/** The games-list hook: one request for the list of games, issued when the
    hook mounts, and three fields that record how it settled. */
module CyoaGames {
  import opened Fetch

  /** The fields of a listed game that the browser uses. */
  datatype CyoaGameBulk = CyoaGameBulk(gameId: string, title: string, initialNarrativeId: string)

  const LoadGamesError := "Unable to load games"

  class CyoaGamesLoader {
    var errorMessage: Option<string>
    var games: seq<CyoaGameBulk>
    var isLoading: bool
    /** Requests made for the list of games. */
    ghost var fetches: nat

    /** Exactly one request is ever made, and while it is pending nothing
        has been stored. */
    ghost predicate Valid()
      reads this
    {
      && fetches == 1
      && (isLoading ==> games == [] && errorMessage == None)
    }

    /** Mounting: the initial state, and the effect issues the one request. */
    constructor ()
      ensures Valid()
      ensures isLoading && games == [] && errorMessage == None
    {
      errorMessage := None;
      games := [];
      isLoading := true;
      fetches := 1;
    }

    /** The request settles. A promise settles once, so this happens only
        while it is pending; either way loading is over for good. */
    method Settle(response: Outcome<seq<CyoaGameBulk>>)
      requires Valid() && isLoading
      modifies this
      ensures Valid() && !isLoading
      ensures response.Success? ==> games == response.value && errorMessage == None
      ensures response.Failure? ==> games == [] && errorMessage == Some(LoadGamesError)
    {
      match response
      case Success(list) =>
        games := list;
        isLoading := false;
      case Failure =>
        errorMessage := Some(LoadGamesError);
        isLoading := false;
    }
  }
}
