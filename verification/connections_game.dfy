/** The Connections puzzle screen: when the hint and solution controls are
    offered, the elapsed-time counter and its display, the colours drawn for
    the categories and the selection, and the shake on a wrong guess. The
    puzzle state itself comes from the puzzle hook and is an input here. */
module Connections {
  import opened Fetch
  import Decimal

  /** A background/text colour pair from the palette. */
  datatype GameColor = GameColor(background: string, text: string)

  /** The eight-entry palette, in declaration order. */
  const GameColors: seq<GameColor> := [
    GameColor("#ff1d58", "#fff"),  // red
    GameColor("#fff685", "#000"),  // yellow
    GameColor("#00ddff", "#000"),  // cyan
    GameColor("#0049b7", "#fff"),  // blue
    GameColor("#8458B3", "#fff"),  // purple
    GameColor("#494d5f", "#fff"),  // dark grey
    GameColor("#ff6f00", "#000"),  // orange
    GameColor("#4caf50", "#fff")   // green
  ]

  /** The component's four threshold props. */
  datatype Thresholds = Thresholds(
    incorrectGuessesUntilHint: nat,
    incorrectGuessesUntilSolution: nat,
    secondsUntilHint: nat,
    secondsUntilSolution: nat)

  const DefaultThresholds := Thresholds(2, 4, 60, 180)

  /** What the component reads from the puzzle hook on one render. */
  datatype PuzzleView = PuzzleView(
    isLoading: bool,
    errorMessage: Option<string>,
    words: seq<string>,
    selectedWords: seq<string>,
    incorrectGuesses: nat,
    isHintAvailable: bool,
    isRevealSolutionAvailable: bool)

  predicate IsHintEnabled(view: PuzzleView, elapsedSeconds: nat, t: Thresholds) {
    view.isHintAvailable
    && (view.incorrectGuesses >= t.incorrectGuessesUntilHint || elapsedSeconds >= t.secondsUntilHint)
  }

  predicate IsSolutionEnabled(view: PuzzleView, elapsedSeconds: nat, t: Thresholds) {
    view.isRevealSolutionAvailable
    && (view.incorrectGuesses >= t.incorrectGuessesUntilSolution || elapsedSeconds >= t.secondsUntilSolution)
  }

  predicate IsGameComplete(view: PuzzleView) {
    |view.words| == 0
  }

  /** The board is rendered: a non-empty error message replaces the whole
      screen (an empty one is falsy and shows nothing), and while loading
      only a skeleton is shown. */
  predicate ShowsBoard(view: PuzzleView) {
    (view.errorMessage.None? || view.errorMessage.value == "") && !view.isLoading
  }

  /** The hint button is visible: the board is rendered, the control row
      is (the game is not complete and one of the two gates is open), and
      its own gate is open. */
  predicate HintOffered(view: PuzzleView, elapsedSeconds: nat, t: Thresholds) {
    var hint, solution := IsHintEnabled(view, elapsedSeconds, t), IsSolutionEnabled(view, elapsedSeconds, t);
    ShowsBoard(view) && !IsGameComplete(view) && (hint || solution) && hint
  }

  predicate SolutionOffered(view: PuzzleView, elapsedSeconds: nat, t: Thresholds) {
    var hint, solution := IsHintEnabled(view, elapsedSeconds, t), IsSolutionEnabled(view, elapsedSeconds, t);
    ShowsBoard(view) && !IsGameComplete(view) && (hint || solution) && solution
  }

  /** With the default thresholds the hint opens at two wrong guesses or a
      minute, whichever comes first, and the solution at four or three
      minutes. */
  lemma DefaultGates(view: PuzzleView, elapsedSeconds: nat)
    ensures IsHintEnabled(view, elapsedSeconds, DefaultThresholds)
      <==> view.isHintAvailable && (view.incorrectGuesses >= 2 || elapsedSeconds >= 60)
    ensures IsSolutionEnabled(view, elapsedSeconds, DefaultThresholds)
      <==> view.isRevealSolutionAvailable && (view.incorrectGuesses >= 4 || elapsedSeconds >= 180)
  {
  }

  /** More wrong guesses or more time never close an open gate. */
  lemma GatesMonotone(view: PuzzleView, moreGuesses: nat, s: nat, moreSeconds: nat, t: Thresholds)
    requires view.incorrectGuesses <= moreGuesses && s <= moreSeconds
    ensures IsHintEnabled(view, s, t) ==> IsHintEnabled(view.(incorrectGuesses := moreGuesses), moreSeconds, t)
    ensures IsSolutionEnabled(view, s, t) ==> IsSolutionEnabled(view.(incorrectGuesses := moreGuesses), moreSeconds, t)
  {
  }

  /** On the board, a control is visible exactly when its gate is open and
      words remain; a complete game offers neither, whatever the gates say. */
  lemma OfferedControls(view: PuzzleView, elapsedSeconds: nat, t: Thresholds)
    ensures HintOffered(view, elapsedSeconds, t)
      <==> ShowsBoard(view) && !IsGameComplete(view) && IsHintEnabled(view, elapsedSeconds, t)
    ensures SolutionOffered(view, elapsedSeconds, t)
      <==> ShowsBoard(view) && !IsGameComplete(view) && IsSolutionEnabled(view, elapsedSeconds, t)
    ensures IsGameComplete(view) ==> !HintOffered(view, elapsedSeconds, t) && !SolutionOffered(view, elapsedSeconds, t)
  {
  }

  /** A number below 100, padded to width 2, is exactly two digits. */
  lemma TwoDigitField(n: nat)
    requires n < 100
    ensures var ss := Decimal.PadStartZeros(Decimal.ToDecimal(n), 2);
      |ss| == 2 && Decimal.AllDigits(ss) && Decimal.ParseDecimal(ss) == n
  {
    if n >= 10 {
      assert Decimal.ToDecimal(n) == Decimal.ToDecimal(n / 10) + [Decimal.DigitChar(n % 10)];
    }
    Decimal.ParseToDecimal(n);
    Decimal.ParsePadded(Decimal.ToDecimal(n), 2);
  }

  /** `t` has the `m:ss` shape: digits, a colon, and exactly two digits. */
  predicate IsClockText(t: string) {
    |t| >= 4 && t[|t| - 3] == ':' && Decimal.AllDigits(t[..|t| - 3]) && Decimal.AllDigits(t[|t| - 2..])
  }

  /** The number before the colon of an `m:ss` text. */
  function MinutesField(t: string): nat
    requires IsClockText(t)
  {
    Decimal.ParseDecimal(t[..|t| - 3])
  }

  /** The number after the colon of an `m:ss` text. */
  function SecondsField(t: string): nat
    requires IsClockText(t)
  {
    Decimal.ParseDecimal(t[|t| - 2..])
  }

  /** The minutes are written without leading zeros: a minute field
      longer than one digit does not start with `0`. */
  predicate CanonicalMinutes(t: string)
    requires IsClockText(t)
  {
    |t| == 4 || t[0] != '0'
  }

  /** Joining a digit string and a two-digit string with a colon gives an
      `m:ss` text whose fields are the two strings' values; a minute string
      without leading zeros gives canonical minutes. */
  lemma JoinClock(m: string, ss: string)
    requires |m| >= 1 && Decimal.AllDigits(m) && |ss| == 2 && Decimal.AllDigits(ss)
    requires |m| == 1 || m[0] != '0'
    ensures IsClockText(m + ":" + ss) && CanonicalMinutes(m + ":" + ss)
    ensures MinutesField(m + ":" + ss) == Decimal.ParseDecimal(m)
    ensures SecondsField(m + ":" + ss) == Decimal.ParseDecimal(ss)
  {
    var r := m + ":" + ss;
    assert r[0] == m[0];
    assert r[..|r| - 3] == m;
    assert r[|r| - 2..] == ss;
  }

  /** `m:ss` for a whole number of minutes and fewer than 100 further seconds. */
  function Clock(minutes: nat, remainingSeconds: nat): (r: string)
    requires remainingSeconds < 100
    ensures IsClockText(r) && CanonicalMinutes(r)
    ensures MinutesField(r) == minutes && SecondsField(r) == remainingSeconds
  {
    var m := Decimal.ToDecimal(minutes);
    var ss := Decimal.PadStartZeros(Decimal.ToDecimal(remainingSeconds), 2);
    Decimal.ParseToDecimal(minutes);
    TwoDigitField(remainingSeconds);
    JoinClock(m, ss);
    m + ":" + ss
  }

  /** `m:ss`: the whole minutes in decimal, a colon, and the remaining
      seconds as exactly two digits. */
  function FormatTime(seconds: nat): (r: string)
    ensures IsClockText(r) && CanonicalMinutes(r)
    ensures MinutesField(r) == seconds / 60 && SecondsField(r) == seconds % 60
  {
    Clock(seconds / 60, seconds % 60)
  }

  /** The number of seconds a displayed `m:ss` stands for. */
  function ParseTime(t: string): nat
    requires IsClockText(t)
  {
    60 * MinutesField(t) + SecondsField(t)
  }

  /** The display loses nothing: reading it back gives the seconds, so two
      different counts never show the same time. */
  lemma FormatTimeRoundTrip(seconds: nat)
    ensures ParseTime(FormatTime(seconds)) == seconds
  {
  }

  /** The start of the clock, and the displays the tests expect after five
      seconds and after a minute more. */
  lemma FormatTimeExamples()
    ensures FormatTime(0) == "0:00"
    ensures FormatTime(5) == "0:05"
    ensures FormatTime(65) == "1:05"
  {
    FormatTimeSingleDigits(0, 0);
    FormatTimeSingleDigits(0, 5);
    FormatTimeSingleDigits(1, 5);
  }

  /** Under ten minutes and ten seconds, both fields are a single digit and
      the seconds get one leading zero. */
  lemma FormatTimeSingleDigits(minutes: nat, remainingSeconds: nat)
    requires minutes < 10 && remainingSeconds < 10
    ensures FormatTime(60 * minutes + remainingSeconds)
      == [Decimal.DigitChar(minutes), ':', '0', Decimal.DigitChar(remainingSeconds)]
  {
    WholeMinutes(minutes, remainingSeconds);
    ClockSingleDigits(minutes, remainingSeconds);
  }

  /** `minutes` whole minutes and `remainingSeconds` more split back into
      the same two numbers. */
  lemma WholeMinutes(minutes: nat, remainingSeconds: nat)
    requires remainingSeconds < 60
    ensures (60 * minutes + remainingSeconds) / 60 == minutes
    ensures (60 * minutes + remainingSeconds) % 60 == remainingSeconds
  {
  }

  lemma ClockSingleDigits(minutes: nat, remainingSeconds: nat)
    requires minutes < 10 && remainingSeconds < 10
    ensures Clock(minutes, remainingSeconds)
      == [Decimal.DigitChar(minutes), ':', '0', Decimal.DigitChar(remainingSeconds)]
  {
    var m, d := Decimal.DigitChar(minutes), Decimal.DigitChar(remainingSeconds);
    assert Decimal.ToDecimal(minutes) == [m];
    assert Decimal.ToDecimal(remainingSeconds) == [d];
    assert Decimal.Zeros(1) == "0";
    assert Decimal.PadStartZeros([d], 2) == ['0', d];
    assert Clock(minutes, remainingSeconds) == [m] + ":" + ['0', d];
  }

  lemma ScaledRoll(roll: real, length: nat)
    requires 0.0 <= roll < 1.0
    ensures 0.0 <= roll * length as real
    ensures length > 0 ==> roll * length as real < length as real
  {
    var n := length as real;
    assert (1.0 - roll) * n >= 0.0;
    if length > 0 {
      assert (1.0 - roll) * n > 0.0;
      assert n - roll * n == (1.0 - roll) * n;
    }
  }

  /** `Math.floor(Math.random() * length)` for a roll in [0, 1): an index of
      an array that has one, and 0 for an empty array. */
  function RandomIndex(length: nat, roll: real): (k: nat)
    requires 0.0 <= roll < 1.0
    ensures length == 0 ==> k == 0
    ensures length > 0 ==> k < length
  {
    ScaledRoll(roll, length);
    (roll * length as real).Floor
  }

  /** `getRandomValue`: the entry at the rolled index, or `undefined`
      (`None`) when the array is empty. */
  function RandomValue<T(==)>(arr: seq<T>, roll: real): (r: Option<T>)
    requires 0.0 <= roll < 1.0
    ensures r.None? <==> arr == []
    ensures r.Some? ==> r.value in arr
  {
    var k := RandomIndex(|arr|, roll);
    if k < |arr| then Some(arr[k]) else None
  }

  predicate Distinct<T(==)>(s: seq<T>) {
    forall a, b :: 0 <= a < b < |s| ==> s[a] != s[b]
  }

  /** Deleting the entry at index `k` from a pool of distinct values
      removes exactly that value: what is left is still distinct, one
      shorter, and holds nothing new. */
  lemma RemoveAt<T>(pool: seq<T>, k: nat)
    requires Distinct(pool) && k < |pool|
    ensures var rest := pool[..k] + pool[k + 1..];
      && Distinct(rest) && |rest| == |pool| - 1 && pool[k] !in rest
      && forall c :: c in rest ==> c in pool
  {
    var rest := pool[..k] + pool[k + 1..];
    forall j | 0 <= j < |rest|
      ensures rest[j] == if j < k then pool[j] else pool[j + 1]
    {
    }
  }

  /** Draw a colour for each category name in turn, removing each drawn
      colour from the pool, then one more for the selected words. `rolls`
      are the successive `Math.random()` results. */
  method AssignColors(categoryNames: seq<string>, rolls: seq<real>)
    returns (categoryColors: map<string, Option<GameColor>>, selectedWordColor: Option<GameColor>)
    requires |rolls| == |categoryNames| + 1
    requires forall i :: 0 <= i < |rolls| ==> 0.0 <= rolls[i] < 1.0
    ensures categoryColors.Keys == set i | 0 <= i < |categoryNames| :: categoryNames[i]
    ensures forall k :: k in categoryColors && categoryColors[k].Some? ==> categoryColors[k].value in GameColors
    ensures forall k1, k2 ::
              k1 in categoryColors && k2 in categoryColors && k1 != k2 && categoryColors[k1].Some?
              ==> categoryColors[k1] != categoryColors[k2]
    ensures selectedWordColor.Some? ==> selectedWordColor.value in GameColors
    ensures selectedWordColor.Some? ==> forall k :: k in categoryColors ==> categoryColors[k] != selectedWordColor
    ensures |categoryNames| < |GameColors| ==> selectedWordColor.Some?
    ensures |categoryNames| <= |GameColors| ==> forall k :: k in categoryColors ==> categoryColors[k].Some?
    ensures |categoryNames| >= |GameColors| ==> selectedWordColor.None?
  {
    var available := GameColors;
    categoryColors := map[];
    var i := 0;
    while i < |categoryNames|
      invariant 0 <= i <= |categoryNames|
      invariant Distinct(available)
      invariant forall c :: c in available ==> c in GameColors
      invariant |available| == if i <= |GameColors| then |GameColors| - i else 0
      invariant categoryColors.Keys == set j | 0 <= j < i :: categoryNames[j]
      invariant forall k ::
                  k in categoryColors && categoryColors[k].Some?
                  ==> categoryColors[k].value in GameColors && categoryColors[k].value !in available
      invariant forall k1, k2 ::
                  k1 in categoryColors && k2 in categoryColors && k1 != k2 && categoryColors[k1].Some?
                  ==> categoryColors[k1] != categoryColors[k2]
      invariant i <= |GameColors| ==> forall k :: k in categoryColors ==> categoryColors[k].Some?
    {
      var k := RandomIndex(|available|, rolls[i]);
      var color := RandomValue(available, rolls[i]);
      assert color.Some? ==> k < |available| && color.value == available[k];
      if color.Some? {
        // the pool holds distinct colours, so deleting the drawn one
        // removes exactly the entry at the rolled index
        RemoveAt(available, k);
        available := available[..k] + available[k + 1..];
      }
      categoryColors := categoryColors[categoryNames[i] := color];
      i := i + 1;
    }
    selectedWordColor := RandomValue(available, rolls[i]);
  }

  /** What a click on a word asks the puzzle hook to do. */
  datatype WordAction = Select(word: string) | Unselect(word: string)

  function ClickAction(selectedWords: seq<string>, word: string): (a: WordAction)
    ensures a.word == word
    ensures a.Unselect? <==> word in selectedWords
  {
    if word in selectedWords then Unselect(word) else Select(word)
  }

  /** One mounted puzzle screen: its two pieces of own state, the elapsed
      seconds and the pending shake timeout, beside the last hook output
      and game id it rendered with. */
  class ConnectionsBoard {
    const thresholds: Thresholds
    var gameId: string
    var view: PuzzleView
    var elapsedSeconds: nat
    /** A shake timeout is pending (`shakingTimeout !== undefined`). */
    var shaking: bool

    constructor (gameId: string, view: PuzzleView, thresholds: Thresholds)
      ensures this.gameId == gameId && this.view == view && this.thresholds == thresholds
      ensures elapsedSeconds == 0 && !shaking
    {
      this.thresholds := thresholds;
      this.gameId := gameId;
      this.view := view;
      elapsedSeconds := 0;
      shaking := false;
    }

    /** The one-second interval exists: loaded and not complete. */
    predicate TimerRunning()
      reads this
    {
      !view.isLoading && !IsGameComplete(view)
    }

    predicate HintShown()
      reads this
    {
      HintOffered(view, elapsedSeconds, thresholds)
    }

    predicate SolutionShown()
      reads this
    {
      SolutionOffered(view, elapsedSeconds, thresholds)
    }

    /** The word button is animating: a shake is pending and it is selected. */
    predicate IsShaking(word: string)
      reads this
    {
      shaking && word in view.selectedWords
    }

    /** The interval fires once. Only a running timer counts, and a
        control once shown stays shown. */
    method Tick()
      modifies this`elapsedSeconds
      ensures elapsedSeconds == old(elapsedSeconds) + (if TimerRunning() then 1 else 0)
      ensures old(HintShown()) ==> HintShown()
      ensures old(SolutionShown()) ==> SolutionShown()
    {
      if TimerRunning() {
        elapsedSeconds := elapsedSeconds + 1;
      }
      GatesMonotone(view, view.incorrectGuesses, old(elapsedSeconds), elapsedSeconds, thresholds);
    }

    /** `n` seconds of wall-clock time pass with no other event. */
    method Advance(n: nat)
      modifies this`elapsedSeconds
      ensures elapsedSeconds == old(elapsedSeconds) + (if TimerRunning() then n else 0)
    {
      var i := 0;
      while i < n
        invariant 0 <= i <= n
        invariant elapsedSeconds == old(elapsedSeconds) + (if TimerRunning() then i else 0)
      {
        Tick();
        i := i + 1;
      }
    }

    /** A new render with a new game id or hook output. The reset effect
        runs when the game id or the loading flag changed, and zeroes the
        counter once loading has finished. */
    method Rerender(newGameId: string, newView: PuzzleView)
      modifies this`gameId, this`view, this`elapsedSeconds
      ensures gameId == newGameId && view == newView
      ensures elapsedSeconds ==
        if (old(gameId) != newGameId || old(view.isLoading) != newView.isLoading) && !newView.isLoading
        then 0 else old(elapsedSeconds)
    {
      var resetDepsChanged := gameId != newGameId || view.isLoading != newView.isLoading;
      gameId, view := newGameId, newView;
      if resetDepsChanged && !view.isLoading {
        elapsedSeconds := 0;
      }
    }

    /** Submit the selection; `success` is what the hook's `submitWords`
        returned. A failed guess starts a shake unless one is pending. */
    method HandleSubmit(success: bool) returns (started: bool)
      modifies this`shaking
      ensures started <==> !success && !old(shaking)
      ensures shaking <==> old(shaking) || started
    {
      started := !success && !shaking;
      if started {
        shaking := true;
      }
    }

    /** The 500 ms shake timeout fires. */
    method ShakeFinished()
      modifies this`shaking
      ensures !shaking
    {
      shaking := false;
    }
  }

  /** Sequences of events from the component tests, checked against the
      contracts above. */
  method TimerScenario() {
    var view := PuzzleView(false, None, ["WORD01", "WORD02"], [], 0, false, false);
    var b := new ConnectionsBoard("2025-01-15", view, DefaultThresholds);
    var shown := [b.elapsedSeconds];
    b.Advance(5);
    shown := shown + [b.elapsedSeconds];
    b.Advance(60);
    shown := shown + [b.elapsedSeconds];
    assert shown == [0, 5, 65];
    FormatTimeExamples();
    assert FormatTime(shown[0]) == "0:00" && FormatTime(shown[1]) == "0:05" && FormatTime(shown[2]) == "1:05";
  }

  method HintAfterTimeScenario() {
    var view := PuzzleView(false, None, ["WORD01"], [], 0, true, false);
    var b := new ConnectionsBoard("2025-01-15", view, Thresholds(2, 4, 2, 180));
    assert !b.HintShown();
    b.Advance(5);
    assert b.HintShown() && !b.SolutionShown();
  }

  method CompleteGameScenario() {
    var view := PuzzleView(false, None, [], [], 4, true, true);
    var b := new ConnectionsBoard("2025-01-15", view, DefaultThresholds);
    assert IsHintEnabled(view, 0, DefaultThresholds) && IsSolutionEnabled(view, 0, DefaultThresholds);
    assert !b.HintShown() && !b.SolutionShown();
    b.Tick();
    assert b.elapsedSeconds == 0;
  }

  method ShakeScenario() {
    var view := PuzzleView(false, None, ["WORD01"], ["WORD01"], 0, false, false);
    var b := new ConnectionsBoard("2025-01-15", view, DefaultThresholds);
    var started := b.HandleSubmit(false);
    assert started && b.IsShaking("WORD01");
    started := b.HandleSubmit(false);
    assert !started;
    b.ShakeFinished();
    started := b.HandleSubmit(true);
    assert !started && !b.IsShaking("WORD01");
  }
}
