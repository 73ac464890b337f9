/** The choose-your-own-adventure story engine: the component that loads a
    game and its first narrative node, then walks the story one choice at a
    time. Every awaited service call is an explicit `Outcome` parameter. */
module Story {
  import opened Fetch
  import Decimal

  /** The fields of a game descriptor that the engine reads. */
  datatype CyoaGame = CyoaGame(title: string, initialNarrativeId: string)

  /** A narrative node; the engine stores it without looking inside. */
  datatype Narrative = Narrative(chapterTitle: string, options: seq<string>)

  /** One call into the game service, as issued by the engine. */
  datatype Request =
    | GameRequest(gameId: string)
    | NarrativeRequest(gameId: string, narrativeId: string)

  /** The props the engine hands to the narrative display. */
  datatype DisplayProps = DisplayProps(
    errorMessage: Option<string>,
    game: Option<CyoaGame>,
    loading: bool,
    narrative: Option<Narrative>)

  /** What the engine renders: the error banner with its Retry control, or
      the narrative display with its props. */
  datatype Screen = RetryScreen(message: string) | StoryScreen(props: DisplayProps)

  const LoadGameError := "Failed to load game. Please refresh the page to try again."
  const NextSegmentError := "Failed to load next story segment. Please try again."

  /** The id of the node reached from node `id` by option `optionIndex`:
      `{id}-{optionIndex}`. The old id is a strict prefix of the new one,
      and a hyphen follows it. */
  function ChildId(id: string, optionIndex: nat): (r: string)
    ensures |id| < |r| && r[..|id|] == id
    ensures r[|id|] == '-'
  {
    id + "-" + Decimal.ToDecimal(optionIndex)
  }

  /** The text after the hyphen is digits only, without a leading zero
      unless it is the single digit of an index below ten, and they spell
      the option index itself. */
  lemma ChildIdIndex(id: string, optionIndex: nat)
    ensures Decimal.AllDigits(ChildId(id, optionIndex)[|id| + 1..])
    ensures Decimal.ParseDecimal(ChildId(id, optionIndex)[|id| + 1..]) == optionIndex
    ensures var d := ChildId(id, optionIndex)[|id| + 1..]; |d| == 1 || d[0] != '0'
  {
    Decimal.ParseToDecimal(optionIndex);
    assert ChildId(id, optionIndex)[|id| + 1..] == Decimal.ToDecimal(optionIndex);
  }

  /** The id of the node reached from the game's first node by the choices
      `choices`, in the order they were made. */
  function NodeId(initialId: string, choices: seq<nat>): (r: string)
    ensures |r| >= |initialId| && r[..|initialId|] == initialId
    ensures |r| == |initialId| <==> choices == []
    decreases |choices|
  {
    if choices == [] then initialId
    else ChildId(NodeId(initialId, choices[..|choices| - 1]), choices[|choices| - 1])
  }

  /** Only a hyphen separates the last option index from the rest of an id,
      and digits contain no hyphen, so the split is unique. */
  lemma SplitLastSegment(a: string, d1: string, b: string, d2: string)
    requires Decimal.AllDigits(d1) && Decimal.AllDigits(d2)
    requires a + "-" + d1 == b + "-" + d2
    ensures a == b && d1 == d2
  {
    var s, t := a + "-" + d1, b + "-" + d2;
    if |d1| < |d2| {
      assert t[|a|] == d2[|a| - |b| - 1];
      Decimal.DigitAt(d2, |a| - |b| - 1);
      assert false;
    } else if |d2| < |d1| {
      assert s[|b|] == d1[|b| - |a| - 1];
      Decimal.DigitAt(d1, |b| - |a| - 1);
      assert false;
    }
    assert a == s[..|a|] == b;
    assert d1 == s[|a| + 1..] == d2;
  }

  lemma NodeIdLast(initialId: string, p: seq<nat>)
    requires p != []
    ensures NodeId(initialId, p)
      == NodeId(initialId, p[..|p| - 1]) + "-" + Decimal.ToDecimal(p[|p| - 1])
  {
  }

  lemma NodeIdLeavesStart(initialId: string, p: seq<nat>)
    requires p != []
    ensures NodeId(initialId, p) != initialId
  {
    assert |NodeId(initialId, p)| != |initialId|;
  }

  lemma SameInitAndLast(p: seq<nat>, q: seq<nat>)
    requires p != [] && q != []
    requires p[..|p| - 1] == q[..|q| - 1] && p[|p| - 1] == q[|q| - 1]
    ensures p == q
  {
    assert p == p[..|p| - 1] + [p[|p| - 1]];
    assert q == q[..|q| - 1] + [q[|q| - 1]];
  }

  /** Different paths through the story reach different node ids: the id
      encodes the whole sequence of choices. */
  lemma {:induction false} NodeIdInjective(initialId: string, p: seq<nat>, q: seq<nat>)
    requires NodeId(initialId, p) == NodeId(initialId, q)
    ensures p == q
    decreases |p|
  {
    if p != [] && q != [] {
      var p', q' := p[..|p| - 1], q[..|q| - 1];
      var x, y := p[|p| - 1], q[|q| - 1];
      NodeIdLast(initialId, p);
      NodeIdLast(initialId, q);
      Decimal.ParseToDecimal(x);
      Decimal.ParseToDecimal(y);
      SplitLastSegment(NodeId(initialId, p'), Decimal.ToDecimal(x),
                       NodeId(initialId, q'), Decimal.ToDecimal(y));
      Decimal.ToDecimalInjective(x, y);
      NodeIdInjective(initialId, p', q');
      SameInitAndLast(p, q);
    } else if p != [] {
      NodeIdLeavesStart(initialId, p);
    } else if q != [] {
      NodeIdLeavesStart(initialId, q);
    }
  }

  /** One more choice appends one more segment to the id. */
  lemma NodeIdExtend(initialId: string, p: seq<nat>, optionIndex: nat)
    ensures NodeId(initialId, p + [optionIndex]) == ChildId(NodeId(initialId, p), optionIndex)
  {
    assert (p + [optionIndex])[..|p|] == p;
  }

  /** A longer path extends the id of each of its prefixes. */
  lemma {:induction false} NodeIdPrefix(initialId: string, p: seq<nat>, q: seq<nat>)
    ensures var a, b := NodeId(initialId, p), NodeId(initialId, p + q);
      |a| <= |b| && b[..|a|] == a && (q != [] ==> |a| < |b|)
    decreases |q|
  {
    if q != [] {
      var q' := q[..|q| - 1];
      assert (p + q)[..|p + q| - 1] == p + q';
      assert (p + q)[|p + q| - 1] == q[|q| - 1];
      NodeIdPrefix(initialId, p, q');
      var a, b', b := NodeId(initialId, p), NodeId(initialId, p + q'), NodeId(initialId, p + q);
      assert b == ChildId(b', q[|q| - 1]);
      assert b[..|a|] == b'[..|a|];
    } else {
      assert p + q == p;
    }
  }

  /** The state of one mounted story engine. */
  class StoryEngine {
    var gameId: string
    var currentGame: Option<CyoaGame>
    var currentNarrative: Option<Narrative>
    var narrativeId: string
    var loading: bool
    var error: Option<string>
    /** The options chosen since the first node was loaded. */
    ghost var choices: seq<nat>
    /** Every call made to the game service, oldest first. */
    ghost var requests: seq<Request>

    /** A game is held exactly when a narrative is, and then the narrative
        id spells the path of choices from the game's first node. */
    ghost predicate Valid()
      reads this
    {
      && (currentGame.Some? <==> currentNarrative.Some?)
      && (currentGame.Some? ==> narrativeId == NodeId(currentGame.value.initialNarrativeId, choices))
    }

    /** The state before the first effect runs. */
    constructor (gameId: string)
      ensures Valid()
      ensures this.gameId == gameId
      ensures currentGame == None && currentNarrative == None
      ensures narrativeId == "" && loading && error == None
      ensures requests == []
    {
      this.gameId := gameId;
      currentGame := None;
      currentNarrative := None;
      narrativeId := "";
      loading := true;
      error := None;
      choices := [];
      requests := [];
    }

    /** The error banner with its Retry control replaces the story when
        there is an error and no game. */
    predicate ShowsRetry()
      reads this
    {
      error.Some? && currentGame.None?
    }

    /** The render: the Retry screen shows the error exactly when no game
        is held; otherwise the narrative display gets the five fields. */
    function Display(): (screen: Screen)
      reads this
      ensures screen.RetryScreen? <==> ShowsRetry()
      ensures screen.RetryScreen? ==> Some(screen.message) == error
      ensures screen.StoryScreen? ==> screen.props.errorMessage == error && screen.props.game == currentGame
      ensures screen.StoryScreen? ==> screen.props.loading == loading && screen.props.narrative == currentNarrative
    {
      if ShowsRetry() then RetryScreen(error.value)
      else StoryScreen(DisplayProps(error, currentGame, loading, currentNarrative))
    }

    /** The outcome of `LoadInitialGame` with the given service results. */
    twostate predicate InitialLoadDone(game: Outcome<CyoaGame>, narrative: Outcome<Narrative>)
      reads this
    {
      && !loading
      && requests == old(requests) + [GameRequest(gameId)]
           + (if game.Success? then [NarrativeRequest(gameId, game.value.initialNarrativeId)] else [])
      && narrativeId == (if game.Success? then game.value.initialNarrativeId else old(narrativeId))
      && if game.Success? && narrative.Success? then
           && currentGame == Some(game.value)
           && currentNarrative == Some(narrative.value)
           && error == None
           && choices == []
         else
           && currentGame == None
           && currentNarrative == None
           && error == Some(LoadGameError)
           && choices == old(choices)
    }

    /** The outcome of `HandleChoiceSelect(optionIndex)` with the given
        service result. */
    twostate predicate ChoiceDone(optionIndex: nat, narrative: Outcome<Narrative>)
      reads this
    {
      if old(currentNarrative).None? then
        && currentGame == old(currentGame) && currentNarrative == old(currentNarrative)
        && narrativeId == old(narrativeId) && loading == old(loading) && error == old(error)
        && choices == old(choices) && requests == old(requests)
      else
        && !loading
        && currentGame == old(currentGame)
        && requests == old(requests) + [NarrativeRequest(gameId, ChildId(old(narrativeId), optionIndex))]
        && if narrative.Success? then
             && currentNarrative == Some(narrative.value)
             && narrativeId == ChildId(old(narrativeId), optionIndex)
             && error == None
             && choices == old(choices) + [optionIndex]
           else
             && currentNarrative == old(currentNarrative)
             && narrativeId == old(narrativeId)
             && error == Some(NextSegmentError)
             && choices == old(choices)
    }

    /** Fetch the game, then its first narrative node. Either failure ends
        with no game, no narrative and the reload message. */
    method LoadInitialGame(game: Outcome<CyoaGame>, narrative: Outcome<Narrative>)
      requires Valid()
      modifies this`currentGame, this`currentNarrative, this`narrativeId, this`loading, this`error
      modifies this`choices, this`requests
      ensures Valid()
      ensures InitialLoadDone(game, narrative)
      ensures game.Success? && narrative.Success? <==> !ShowsRetry()
    {
      loading := true;
      error := None;

      requests := requests + [GameRequest(gameId)];
      var failed := game.Failure?;
      if !failed {
        currentGame := Some(game.value);
        narrativeId := game.value.initialNarrativeId;

        requests := requests + [NarrativeRequest(gameId, game.value.initialNarrativeId)];
        failed := narrative.Failure?;
        if !failed {
          currentNarrative := Some(narrative.value);
          choices := [];
          loading := false;
        }
      }
      if failed {
        error := Some(LoadGameError);
        currentGame := None;
        currentNarrative := None;
        loading := false;
      }
    }

    /** Follow option `optionIndex` of the current node. Without a current
        narrative nothing happens; on failure only the error changes. */
    method HandleChoiceSelect(optionIndex: nat, narrative: Outcome<Narrative>)
      requires Valid()
      modifies this`currentNarrative, this`narrativeId, this`loading, this`error, this`choices, this`requests
      ensures Valid()
      ensures ChoiceDone(optionIndex, narrative)
      ensures old(currentNarrative).Some? ==> !ShowsRetry()
    {
      if currentNarrative.None? {
        return;
      }
      var nextNarrativeId := ChildId(narrativeId, optionIndex);
      NodeIdExtend(currentGame.value.initialNarrativeId, choices, optionIndex);

      loading := true;
      error := None;

      requests := requests + [NarrativeRequest(gameId, nextNarrativeId)];
      match narrative
      case Success(next) =>
        currentNarrative := Some(next);
        narrativeId := nextNarrativeId;
        choices := choices + [optionIndex];
        loading := false;
      case Failure =>
        error := Some(NextSegmentError);
        loading := false;
    }

    /** The Retry control: reload from scratch when no game is held,
        otherwise take option 0 of the current node. */
    method HandleRetry(game: Outcome<CyoaGame>, narrative: Outcome<Narrative>)
      requires Valid()
      modifies this`currentGame, this`currentNarrative, this`narrativeId, this`loading, this`error
      modifies this`choices, this`requests
      ensures Valid()
      ensures old(currentGame).None? ==> InitialLoadDone(game, narrative)
      ensures old(currentGame).Some? ==> ChoiceDone(0, narrative)
      ensures old(ShowsRetry()) ==> InitialLoadDone(game, narrative)
    {
      if currentGame.Some? {
        HandleChoiceSelect(0, narrative);
      } else {
        LoadInitialGame(game, narrative);
      }
    }

    /** The engine renders again with the `gameId` prop `newGameId`. The
        load callback depends on `gameId` alone, so only a different id
        rebuilds it; its effect then re-runs the initial load over the state
        the engine already holds. With the same id nothing happens. */
    method Rerender(newGameId: string, game: Outcome<CyoaGame>, narrative: Outcome<Narrative>)
      requires Valid()
      modifies this
      ensures Valid()
      ensures gameId == newGameId
      ensures old(gameId) != newGameId ==> InitialLoadDone(game, narrative)
      ensures old(gameId) == newGameId ==> unchanged(this)
    {
      if newGameId != gameId {
        gameId := newGameId;
        LoadInitialGame(game, narrative);
      }
    }
  }

  /** Sequences of events from the component tests, checked against the
      contracts above. */
  method LoadThenChooseScenario() {
    var game := CyoaGame("Test Adventure", "start");
    var first := Narrative("The Forest Crossroads", ["Go left", "Go right"]);
    var next := Narrative("A Treasure Chest", []);
    var e := new StoryEngine("test-game");
    assert e.Display() == StoryScreen(DisplayProps(None, None, true, None));

    e.LoadInitialGame(Success(game), Success(first));
    assert e.requests == [GameRequest("test-game"), NarrativeRequest("test-game", "start")];
    assert e.Display() == StoryScreen(DisplayProps(None, Some(game), false, Some(first)));

    assert ChildId("start", 0) == "start-0";
    e.HandleChoiceSelect(0, Success(next));
    assert e.requests[2] == NarrativeRequest("test-game", "start-0");
    assert e.narrativeId == "start-0";
    assert e.Display() == StoryScreen(DisplayProps(None, Some(game), false, Some(next)));

    e.HandleChoiceSelect(1, Failure);
    assert e.narrativeId == "start-0" && !e.ShowsRetry();
    assert e.Display() == StoryScreen(DisplayProps(Some(NextSegmentError), Some(game), false, Some(next)));
  }

  method FailedLoadThenRetryScenario() {
    var game := CyoaGame("Test Adventure", "start");
    var first := Narrative("The Forest Crossroads", ["Go left", "Go right"]);
    var e := new StoryEngine("test-game");

    e.LoadInitialGame(Success(game), Failure);
    assert e.Display() == RetryScreen(LoadGameError);
    assert e.currentGame == None && e.currentNarrative == None && !e.loading;

    e.HandleRetry(Success(game), Success(first));
    assert e.requests[0] == e.requests[2] == GameRequest("test-game");
    assert e.Display() == StoryScreen(DisplayProps(None, Some(game), false, Some(first)));

    var before := e.requests;
    e.Rerender("test-game", Failure, Failure);
    assert e.requests == before && !e.ShowsRetry();
  }

  /** The guard at the top of `handleChoiceSelect`: with no narrative held,
      a choice requests nothing and changes nothing. The component test
      reaches the same guard through the first render's callback, whose
      captured narrative is still null; here the engine has not loaded. */
  method ChoiceBeforeLoadScenario() {
    var e := new StoryEngine("test-game");
    e.HandleChoiceSelect(0, Success(Narrative("", [])));
    assert e.requests == [] && e.loading && e.narrativeId == "";
  }
}
