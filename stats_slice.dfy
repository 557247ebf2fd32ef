/** The stats slice: the strikeout counters, the season stat cards and the fetch flags. */
module Stats {
  import opened Common

  datatype Trend = Up | Down | Neutral

  /** A card's value is either a display string or a number; nothing computes with it. */
  datatype StatValue = Text(text: string) | Number(number: real)

  /** One season stat card, addressed only by its position in the list. */
  datatype Stat = Stat(
    title: string,
    value: StatValue,
    trend: Option<Trend>,
    trendValue: Option<string>,
    average: Option<string>,
    rank: Option<int>)

  datatype StatsState = StatsState(
    currentGameStrikeouts: int,
    seasonStrikeouts: int,
    careerStrikeouts: int,
    stats: seq<Stat>,
    isLoading: bool,
    error: Option<string>)

  /** The actions the slice exports, one per reducer. */
  datatype StatsAction =
    | IncrementStrikeout
    | SetCurrentGameStrikeouts(count: int)
    | SetSeasonStrikeouts(count: int)
    | FetchStatsStart
    | FetchStatsSuccess(stats: seq<Stat>)
    | FetchStatsFailure(message: string)

  /** The state the store starts in: all three counters at zero, not loading, no error. */
  function InitialState(cards: seq<Stat>): StatsState {
    StatsState(0, 0, 0, cards, false, None)
  }

  /** The slice's reducer. */
  function Reduce(s: StatsState, a: StatsAction): (r: StatsState)
    // Career strikeouts move only on an increment, and then by exactly one.
    ensures r.careerStrikeouts == s.careerStrikeouts + (if a.IncrementStrikeout? then 1 else 0)
    // An increment moves the three counters together and nothing else.
    ensures a.IncrementStrikeout? ==>
      r.currentGameStrikeouts == s.currentGameStrikeouts + 1 &&
      r.seasonStrikeouts == s.seasonStrikeouts + 1 &&
      r.stats == s.stats && r.isLoading == s.isLoading && r.error == s.error
    // The two setters overwrite one counter each.
    ensures a.SetCurrentGameStrikeouts? ==> r == s.(currentGameStrikeouts := a.count)
    ensures a.SetSeasonStrikeouts? ==> r == s.(seasonStrikeouts := a.count)
    // The fetch lifecycle never moves a counter; success keeps the previous error.
    ensures a.FetchStatsStart? ==> r == s.(isLoading := true, error := None)
    ensures a.FetchStatsSuccess? ==> r == s.(stats := a.stats, isLoading := false)
    ensures a.FetchStatsFailure? ==> r == s.(isLoading := false, error := Some(a.message))
  {
    match a
    case IncrementStrikeout =>
      s.(currentGameStrikeouts := s.currentGameStrikeouts + 1,
         seasonStrikeouts := s.seasonStrikeouts + 1,
         careerStrikeouts := s.careerStrikeouts + 1)
    case SetCurrentGameStrikeouts(n) => s.(currentGameStrikeouts := n)
    case SetSeasonStrikeouts(n) => s.(seasonStrikeouts := n)
    case FetchStatsStart => s.(isLoading := true, error := None)
    case FetchStatsSuccess(cards) => s.(stats := cards, isLoading := false)
    case FetchStatsFailure(m) => s.(isLoading := false, error := Some(m))
  }

  /** How many increments a trace of actions holds. */
  function Increments(trace: seq<StatsAction>): nat {
    if |trace| == 0 then 0
    else (if trace[0].IncrementStrikeout? then 1 else 0) + Increments(trace[1..])
  }

  /** A trace that never calls either overwriting setter. */
  predicate NoOverwrite(trace: seq<StatsAction>) {
    forall i :: 0 <= i < |trace| ==>
      !trace[i].SetCurrentGameStrikeouts? && !trace[i].SetSeasonStrikeouts?
  }

  /** `n` successive increments. */
  function Strikeouts(n: nat): (t: seq<StatsAction>) {
    seq(n, _ => IncrementStrikeout)
  }

  /** Whatever is dispatched, career strikeouts grow by the number of increments and by nothing else. */
  lemma {:induction false} CareerCountsIncrements(s: StatsState, trace: seq<StatsAction>)
    ensures Run(Reduce, s, trace).careerStrikeouts == s.careerStrikeouts + Increments(trace)
    decreases |trace|
  {
    if |trace| > 0 {
      CareerCountsIncrements(Reduce(s, trace[0]), trace[1..]);
    }
  }

  /** Without the setters, the three counters stay in lockstep: each moves by the number of increments. */
  lemma {:induction false} LockstepWithoutOverwrite(s: StatsState, trace: seq<StatsAction>)
    requires NoOverwrite(trace)
    ensures Run(Reduce, s, trace).currentGameStrikeouts == s.currentGameStrikeouts + Increments(trace)
    ensures Run(Reduce, s, trace).seasonStrikeouts == s.seasonStrikeouts + Increments(trace)
    ensures Run(Reduce, s, trace).careerStrikeouts == s.careerStrikeouts + Increments(trace)
    decreases |trace|
  {
    if |trace| > 0 {
      assert NoOverwrite(trace[1..]) by {
        forall i | 0 <= i < |trace[1..]|
          ensures !trace[1..][i].SetCurrentGameStrikeouts? && !trace[1..][i].SetSeasonStrikeouts?
        {
          assert trace[1..][i] == trace[i + 1];
        }
      }
      LockstepWithoutOverwrite(Reduce(s, trace[0]), trace[1..]);
    }
  }

  lemma {:induction false} StrikeoutsCount(n: nat)
    ensures NoOverwrite(Strikeouts(n)) && Increments(Strikeouts(n)) == n
  {
    if n > 0 {
      assert Strikeouts(n)[1..] == Strikeouts(n - 1);
      StrikeoutsCount(n - 1);
    }
  }

  /** Increments never touch the stat cards. */
  lemma {:induction false} StrikeoutsKeepCards(s: StatsState, n: nat)
    ensures Run(Reduce, s, Strikeouts(n)).stats == s.stats
    decreases n
  {
    if n > 0 {
      assert Strikeouts(n)[1..] == Strikeouts(n - 1);
      StrikeoutsKeepCards(Reduce(s, IncrementStrikeout), n - 1);
    }
  }

  /** From the initial all-zero counters, n increments leave every counter at n. */
  lemma NStrikeoutsFromInitial(cards: seq<Stat>, n: nat)
    ensures Run(Reduce, InitialState(cards), Strikeouts(n)).currentGameStrikeouts == n
    ensures Run(Reduce, InitialState(cards), Strikeouts(n)).seasonStrikeouts == n
    ensures Run(Reduce, InitialState(cards), Strikeouts(n)).careerStrikeouts == n
    ensures Run(Reduce, InitialState(cards), Strikeouts(n)).stats == cards
  {
    StrikeoutsCount(n);
    LockstepWithoutOverwrite(InitialState(cards), Strikeouts(n));
    StrikeoutsKeepCards(InitialState(cards), n);
  }

  /** The stats slice as the store holds it: its fields are updated in place by the reducers. */
  class StatsSlice {
    var currentGameStrikeouts: int
    var seasonStrikeouts: int
    var careerStrikeouts: int
    var stats: seq<Stat>
    var isLoading: bool
    var error: Option<string>

    /** The slice's fields as one value. */
    function State(): StatsState
      reads this
    {
      StatsState(currentGameStrikeouts, seasonStrikeouts, careerStrikeouts, stats, isLoading, error)
    }

    constructor (cards: seq<Stat>)
      ensures State() == InitialState(cards)
    {
      currentGameStrikeouts, seasonStrikeouts, careerStrikeouts := 0, 0, 0;
      stats := cards;
      isLoading, error := false, None;
    }

    method IncrementStrikeout()
      modifies this
      ensures State() == Reduce(old(State()), StatsAction.IncrementStrikeout)
    {
      currentGameStrikeouts := currentGameStrikeouts + 1;
      seasonStrikeouts := seasonStrikeouts + 1;
      careerStrikeouts := careerStrikeouts + 1;
    }

    method SetCurrentGameStrikeouts(count: int)
      modifies this
      ensures State() == Reduce(old(State()), StatsAction.SetCurrentGameStrikeouts(count))
    {
      currentGameStrikeouts := count;
    }

    method SetSeasonStrikeouts(count: int)
      modifies this
      ensures State() == Reduce(old(State()), StatsAction.SetSeasonStrikeouts(count))
    {
      seasonStrikeouts := count;
    }

    method FetchStatsStart()
      modifies this
      ensures State() == Reduce(old(State()), StatsAction.FetchStatsStart)
    {
      isLoading := true;
      error := None;
    }

    method FetchStatsSuccess(cards: seq<Stat>)
      modifies this
      ensures State() == Reduce(old(State()), StatsAction.FetchStatsSuccess(cards))
    {
      stats := cards;
      isLoading := false;
    }

    method FetchStatsFailure(message: string)
      modifies this
      ensures State() == Reduce(old(State()), StatsAction.FetchStatsFailure(message))
    {
      isLoading := false;
      error := Some(message);
    }
  }
}
