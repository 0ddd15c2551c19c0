/**
 * Runs of a transition system. A system is a partial function from a state and a step to the next
 * state; a step is enabled where that function is defined.
 */
module Runs {
  ghost predicate Valid<S(!new), A(!new)>(next: (S, A) --> S, s: S, steps: seq<A>)
    decreases |steps|
  {
    steps == [] || (next.requires(s, steps[0]) && Valid(next, next(s, steps[0]), steps[1..]))
  }

  ghost function Exec<S(!new), A(!new)>(next: (S, A) --> S, s: S, steps: seq<A>): S
    requires Valid(next, s, steps)
    decreases |steps|
  {
    if steps == [] then s else Exec(next, next(s, steps[0]), steps[1..])
  }

  lemma {:induction false} Compose<S(!new), A(!new)>(next: (S, A) --> S, s: S, a: seq<A>, b: seq<A>)
    requires Valid(next, s, a) && Valid(next, Exec(next, s, a), b)
    ensures Valid(next, s, a + b) && Exec(next, s, a + b) == Exec(next, Exec(next, s, a), b)
    decreases |a|
  {
    if a == [] {
      assert a + b == b;
    } else {
      Compose(next, next(s, a[0]), a[1..], b);
      assert (a + b)[1..] == a[1..] + b;
    }
  }

  /** One step before a run. */
  lemma Cons<S(!new), A(!new)>(next: (S, A) --> S, s: S, step: A, rest: seq<A>) returns (steps: seq<A>)
    requires next.requires(s, step) && Valid(next, next(s, step), rest)
    ensures steps == [step] + rest && Valid(next, s, steps) && Exec(next, s, steps) == Exec(next, next(s, step), rest)
  {
    steps := [step] + rest;
    assert steps[1..] == rest;
  }

  /** One step after a run. */
  lemma Snoc<S(!new), A(!new)>(next: (S, A) --> S, s: S, steps: seq<A>, step: A)
    requires Valid(next, s, steps) && next.requires(Exec(next, s, steps), step)
    ensures Valid(next, s, steps + [step]) && Exec(next, s, steps + [step]) == next(Exec(next, s, steps), step)
  {
    Compose(next, s, steps, [step]);
  }

  /** A run up to any point is a run, and goes on from there. */
  lemma {:induction false} Cut<S(!new), A(!new)>(next: (S, A) --> S, s: S, steps: seq<A>, n: nat)
    requires Valid(next, s, steps) && n <= |steps|
    ensures Valid(next, s, steps[..n]) && Valid(next, Exec(next, s, steps[..n]), steps[n..])
    ensures Exec(next, s, steps) == Exec(next, Exec(next, s, steps[..n]), steps[n..])
    decreases n
  {
    if n == 0 {
    } else {
      Cut(next, next(s, steps[0]), steps[1..], n - 1);
      assert steps[..n][1..] == steps[1..][..n - 1];
      assert steps[1..][n - 1..] == steps[n..];
    }
  }

  /** The last step of a run is enabled after the others. */
  lemma Last<S(!new), A(!new)>(next: (S, A) --> S, s: S, steps: seq<A>)
    requires Valid(next, s, steps) && steps != []
    ensures var n := |steps| - 1;
      && Valid(next, s, steps[..n]) && next.requires(Exec(next, s, steps[..n]), steps[n])
      && Exec(next, s, steps) == next(Exec(next, s, steps[..n]), steps[n])
  {
    var n := |steps| - 1;
    Cut(next, s, steps, n);
    assert steps[n..] == [steps[n]];
  }
}
