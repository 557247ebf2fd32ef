/** Shared vocabulary of the five store slices. */
module Common {

  /** A value that may be absent: the source's `T | null` and its optional (`?`) record fields. */
  datatype Option<T> = None | Some(value: T) {

    /** The wrapped value, or `default` when absent. */
    function GetOr(default: T): T {
      match this
      case Some(v) => v
      case None => default
    }
  }

  /**
   * The state a slice reaches when the actions of `trace` are dispatched one after
   * another, oldest first, through its reducer `step`.
   */
  function Run<S, A>(step: (S, A) -> S, s: S, trace: seq<A>): S
    decreases |trace|
  {
    if |trace| == 0 then s else Run(step, step(s, trace[0]), trace[1..])
  }

  /** Dispatching `t` and then `u` is dispatching their concatenation. */
  lemma {:induction false} RunAppend<S, A>(step: (S, A) -> S, s: S, t: seq<A>, u: seq<A>)
    ensures Run(step, s, t + u) == Run(step, Run(step, s, t), u)
    decreases |t|
  {
    if |t| == 0 {
      assert t + u == u;
    } else {
      assert (t + u)[1..] == t[1..] + u;
      RunAppend(step, step(s, t[0]), t[1..], u);
    }
  }

  /** Dispatching one more action applies the reducer once more to the state reached so far. */
  lemma RunSnoc<S, A>(step: (S, A) -> S, s: S, t: seq<A>, a: A)
    ensures Run(step, s, t + [a]) == step(Run(step, s, t), a)
  {
    RunAppend(step, s, t, [a]);
  }
}
