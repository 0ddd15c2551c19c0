/**
 * A run of the deployment, seen from below: the lock steps in it are a run of the lock system, and the steps of
 * each process are a run of a batcher. Everything that holds of all runs of those holds in the deployment.
 */
module ClusterRefines {
  import opened Common
  import opened Cluster
  import B = Batcher
  import L = NonceLock
  import Runs

  /** What a step does in the lock system. */
  ghost function LockActs(c: State, step: Step): seq<L.Step>
    requires Enabled(c, step)
  {
    match step
    case Inner(_, _) => []
    case Enter(p, b, kind) => [SessionStart(c, p, b, kind), L.LockLocal(|c.locks.sessions|)]
    case Leave(p, b) => [L.Unlock(c.current[(p, OwnerOf(b))])]
    case Client(p, b) => if NextLocks(c, step) == c.locks then [] else [L.Return(c.current[(p, OwnerOf(b))])]
    case Lock(a) => [a]
  }

  ghost function LockRun(c: State, steps: seq<Step>): seq<L.Step>
    requires Valid(c, steps)
    decreases |steps|
  {
    if steps == [] then [] else LockActs(c, steps[0]) + LockRun(Apply(c, steps[0]), steps[1..])
  }

  lemma LockActsRun(c: State, step: Step)
    requires Enabled(c, step)
    ensures L.Valid(c.locks, LockActs(c, step)) && L.Exec(c.locks, LockActs(c, step)) == Apply(c, step).locks
  {
    match step
    case Inner(_, _) =>
    case Enter(p, b, kind) => TwoActs(c.locks, SessionStart(c, p, b, kind), L.LockLocal(|c.locks.sessions|));
    case Leave(p, b) => OneAct(c.locks, L.Unlock(c.current[(p, OwnerOf(b))]));
    case Client(p, b) =>
      if NextLocks(c, step) != c.locks {
        OneAct(c.locks, L.Return(c.current[(p, OwnerOf(b))]));
      }
    case Lock(a) => OneAct(c.locks, a);
  }

  lemma OneAct(l: L.State, a: L.Step)
    requires L.Enabled(l, a)
    ensures L.Valid(l, [a]) && L.Exec(l, [a]) == L.Apply(l, a)
  {
    assert L.Valid(L.Apply(l, a), []);
    var one := Runs.Cons(L.Apply, l, a, []);
    assert one == [a];
  }

  lemma TwoActs(l: L.State, a: L.Step, b: L.Step)
    requires L.Enabled(l, a) && L.Enabled(L.Apply(l, a), b)
    ensures L.Valid(l, [a, b]) && L.Exec(l, [a, b]) == L.Apply(L.Apply(l, a), b)
  {
    OneAct(L.Apply(l, a), b);
    var two := Runs.Cons(L.Apply, l, a, [b]);
    assert two == [a, b];
  }

  /** The lock steps of a run of the deployment are a run of the lock system that ends in the same state. */
  lemma {:induction false} LocksRefine(c: State, steps: seq<Step>)
    requires Valid(c, steps)
    ensures L.Valid(c.locks, LockRun(c, steps)) && L.Exec(c.locks, LockRun(c, steps)) == Exec(c, steps).locks
    decreases |steps|
  {
    if steps == [] {
    } else {
      var d := Apply(c, steps[0]);
      LockActsRun(c, steps[0]);
      LocksRefine(d, steps[1..]);
      Runs.Compose(L.Apply, c.locks, LockActs(c, steps[0]), LockRun(d, steps[1..]));
    }
  }

  /** Steps that only a session itself takes. */
  ghost predicate Own(a: L.Step) { !a.Start? && !a.LockLocal? && !a.Unlock? && !a.Return? }

  lemma {:induction false} OwnActs(c: State, steps: seq<Step>, a: L.Step)
    requires Valid(c, steps) && Own(a)
    ensures a in LockRun(c, steps) <==> Lock(a) in steps
    decreases |steps|
  {
    if steps == [] {
    } else {
      OwnActs(Apply(c, steps[0]), steps[1..], a);
      assert a in LockActs(c, steps[0]) <==> steps[0] == Lock(a);
      assert Lock(a) in steps <==> steps[0] == Lock(a) || Lock(a) in steps[1..];
    }
  }

  /** What process p does. */
  ghost function BatcherRun(steps: seq<Step>, p: nat): seq<B.Step> {
    if steps == [] then []
    else (if !steps[0].Lock? && steps[0].p == p then [steps[0].b] else []) + BatcherRun(steps[1..], p)
  }

  /** The steps of a process are a run of a batcher that ends in the same state. */
  lemma {:induction false} BatchersRefine(c: State, steps: seq<Step>, p: nat)
    requires Valid(c, steps) && p < |c.procs|
    ensures p < |Exec(c, steps).procs| && B.Valid(c.procs[p], BatcherRun(steps, p))
    ensures B.Exec(c.procs[p], BatcherRun(steps, p)) == Exec(c, steps).procs[p]
    decreases |steps|
  {
    if steps == [] {
    } else {
      var d := Apply(c, steps[0]);
      BatchersRefine(d, steps[1..], p);
      if !steps[0].Lock? && steps[0].p == p {
        var run := Runs.Cons(B.Apply, c.procs[p], steps[0].b, BatcherRun(steps[1..], p));
      } else {
        assert [] + BatcherRun(steps[1..], p) == BatcherRun(steps[1..], p);
      }
    }
  }
}
