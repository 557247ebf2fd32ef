/**
 * The games slice: upcoming and previous games, the one game currently tracked
 * (if any), and the fetch flags.
 */
module Games {
  import opened Common

  datatype GameStatus = Upcoming | Live | Completed

  datatype GameTeam = GameTeam(name: string, logoUrl: string, score: Option<int>)

  /** The tracked pitcher's line; innings are a display number such as 5.1, never computed with. */
  datatype YamamotoStats = YamamotoStats(
    isStarting: bool,
    pitchCount: Option<int>,
    strikeouts: Option<int>,
    inningsPitched: Option<real>)

  datatype Game = Game(
    id: string,
    status: GameStatus,
    homeTeam: GameTeam,
    awayTeam: GameTeam,
    date: string,
    time: string,
    yamamoto: YamamotoStats)

  /** A game with any of its top-level fields left out: `None` is a field the update does not supply. */
  datatype PartialGame = PartialGame(
    id: Option<string>,
    status: Option<GameStatus>,
    homeTeam: Option<GameTeam>,
    awayTeam: Option<GameTeam>,
    date: Option<string>,
    time: Option<string>,
    yamamoto: Option<YamamotoStats>)

  datatype GamesState = GamesState(
    upcomingGames: seq<Game>,
    previousGames: seq<Game>,
    currentGame: Option<Game>,
    isLoading: bool,
    error: Option<string>)

  /** The actions the slice exports, one per reducer. */
  datatype GamesAction =
    | FetchGamesStart
    | FetchGamesSuccess(upcomingGames: seq<Game>, previousGames: seq<Game>, currentGame: Option<Game>)
    | FetchGamesFailure(message: string)
    | UpdateCurrentGame(partial: PartialGame)

  function InitialState(upcoming: seq<Game>, previous: seq<Game>, current: Option<Game>): GamesState {
    GamesState(upcoming, previous, current, false, None)
  }

  // ---------------------------------------------------------------------------
  // The shallow merge `{ ...game, ...partial }`

  /** The update that supplies nothing. */
  const NoChange := PartialGame(None, None, None, None, None, None, None)

  /** The update that supplies every field of `g`. */
  function Whole(g: Game): PartialGame {
    PartialGame(Some(g.id), Some(g.status), Some(g.homeTeam), Some(g.awayTeam),
                Some(g.date), Some(g.time), Some(g.yamamoto))
  }

  /** Spreading `q` after `p`: a field `q` supplies wins, otherwise `p`'s is kept. */
  function Then(p: PartialGame, q: PartialGame): PartialGame {
    PartialGame(
      if q.id.Some? then q.id else p.id,
      if q.status.Some? then q.status else p.status,
      if q.homeTeam.Some? then q.homeTeam else p.homeTeam,
      if q.awayTeam.Some? then q.awayTeam else p.awayTeam,
      if q.date.Some? then q.date else p.date,
      if q.time.Some? then q.time else p.time,
      if q.yamamoto.Some? then q.yamamoto else p.yamamoto)
  }

  /** Each field `p` supplies replaces the game's, whole; each field it omits is kept. */
  function Merge(g: Game, p: PartialGame): (r: Game)
    // Every field the update supplies replaces the game's ...
    ensures p.id.Some? ==> r.id == p.id.value
    ensures p.status.Some? ==> r.status == p.status.value
    ensures p.date.Some? ==> r.date == p.date.value
    ensures p.time.Some? ==> r.time == p.time.value
    // ... and the merge is shallow: a supplied team or pitcher line replaces the old one
    // outright, even where the supplied sub-record leaves out a score or a pitch count.
    ensures p.homeTeam.Some? ==> r.homeTeam == p.homeTeam.value
    ensures p.awayTeam.Some? ==> r.awayTeam == p.awayTeam.value
    ensures p.yamamoto.Some? ==> r.yamamoto == p.yamamoto.value
    // Every field the update omits keeps the game's value.
    ensures p.id.None? ==> r.id == g.id
    ensures p.status.None? ==> r.status == g.status
    ensures p.date.None? ==> r.date == g.date
    ensures p.time.None? ==> r.time == g.time
    ensures p.homeTeam.None? ==> r.homeTeam == g.homeTeam
    ensures p.awayTeam.None? ==> r.awayTeam == g.awayTeam
    ensures p.yamamoto.None? ==> r.yamamoto == g.yamamoto
    // Hence supplying nothing keeps the game, and supplying everything yields the supplied game.
    ensures p == NoChange ==> r == g
    ensures forall h :: p == Whole(h) ==> r == h
  {
    Game(
      p.id.GetOr(g.id),
      p.status.GetOr(g.status),
      p.homeTeam.GetOr(g.homeTeam),
      p.awayTeam.GetOr(g.awayTeam),
      p.date.GetOr(g.date),
      p.time.GetOr(g.time),
      p.yamamoto.GetOr(g.yamamoto))
  }

  /** Re-applying the same update changes nothing more. */
  lemma MergeIdempotent(g: Game, p: PartialGame)
    ensures Merge(Merge(g, p), p) == Merge(g, p)
  {
  }

  /** Two successive updates are one update with the later fields winning. */
  lemma MergeThen(g: Game, p: PartialGame, q: PartialGame)
    ensures Merge(Merge(g, p), q) == Merge(g, Then(p, q))
  {
  }

  /** The merge on the slice's optional current game: no game, no change. */
  function UpdateCurrent(current: Option<Game>, p: PartialGame): (r: Option<Game>)
    ensures r.None? <==> current.None?
    ensures current.Some? ==> r == Some(Merge(current.value, p))
  {
    match current
    case None => None
    case Some(g) => Some(Merge(g, p))
  }

  /** The slice's reducer. */
  function Reduce(s: GamesState, a: GamesAction): (r: GamesState)
    // Updating the current game touches nothing else; with no current game it is a no-op.
    ensures a.UpdateCurrentGame? ==> r == s.(currentGame := UpdateCurrent(s.currentGame, a.partial))
    ensures a.UpdateCurrentGame? && s.currentGame.None? ==> r == s
    ensures a.FetchGamesStart? ==> r == s.(isLoading := true, error := None)
    // Success replaces all three game fields but keeps the previous error.
    ensures a.FetchGamesSuccess? ==>
      r == s.(upcomingGames := a.upcomingGames, previousGames := a.previousGames,
              currentGame := a.currentGame, isLoading := false)
    ensures a.FetchGamesFailure? ==> r == s.(isLoading := false, error := Some(a.message))
  {
    match a
    case FetchGamesStart => s.(isLoading := true, error := None)
    case FetchGamesSuccess(up, prev, cur) =>
      s.(upcomingGames := up, previousGames := prev, currentGame := cur, isLoading := false)
    case FetchGamesFailure(m) => s.(isLoading := false, error := Some(m))
    case UpdateCurrentGame(p) => s.(currentGame := UpdateCurrent(s.currentGame, p))
  }

  /** The merge is shallow: a supplied home team without a score erases the old score. */
  lemma ShallowMergeDropsScore(g: Game, name: string, logoUrl: string)
    requires g.homeTeam.score.Some?
    ensures Merge(g, NoChange.(homeTeam := Some(GameTeam(name, logoUrl, None)))).homeTeam.score.None?
  {
  }

  /** With no current game, any number of updates leave the slice untouched. */
  lemma {:induction false} UpdatesWithoutCurrentGame(s: GamesState, trace: seq<GamesAction>)
    requires s.currentGame.None?
    requires forall i :: 0 <= i < |trace| ==> trace[i].UpdateCurrentGame?
    ensures Run(Reduce, s, trace) == s
    decreases |trace|
  {
    if |trace| > 0 {
      assert Reduce(s, trace[0]) == s;
      UpdatesWithoutCurrentGame(s, trace[1..]);
    }
  }

  /** The games slice as the store holds it. */
  class GamesSlice {
    var upcomingGames: seq<Game>
    var previousGames: seq<Game>
    var currentGame: Option<Game>
    var isLoading: bool
    var error: Option<string>

    function State(): GamesState
      reads this
    {
      GamesState(upcomingGames, previousGames, currentGame, isLoading, error)
    }

    constructor (upcoming: seq<Game>, previous: seq<Game>, current: Option<Game>)
      ensures State() == InitialState(upcoming, previous, current)
    {
      upcomingGames, previousGames, currentGame := upcoming, previous, current;
      isLoading, error := false, None;
    }

    method FetchGamesStart()
      modifies this
      ensures State() == Reduce(old(State()), GamesAction.FetchGamesStart)
    {
      isLoading := true;
      error := None;
    }

    method FetchGamesSuccess(upcoming: seq<Game>, previous: seq<Game>, current: Option<Game>)
      modifies this
      ensures State() == Reduce(old(State()), GamesAction.FetchGamesSuccess(upcoming, previous, current))
    {
      upcomingGames := upcoming;
      previousGames := previous;
      currentGame := current;
      isLoading := false;
    }

    method FetchGamesFailure(message: string)
      modifies this
      ensures State() == Reduce(old(State()), GamesAction.FetchGamesFailure(message))
    {
      isLoading := false;
      error := Some(message);
    }

    method UpdateCurrentGame(partial: PartialGame)
      modifies this
      ensures State() == Reduce(old(State()), GamesAction.UpdateCurrentGame(partial))
    {
      if currentGame.Some? {
        currentGame := Some(Merge(currentGame.value, partial));
      }
    }
  }
}
