/**
 * The individual retries after a failed batch (internal/userop/batcher.go), seen from the moment flush falls
 * back: whether an operation can still be carried twice is decided by then.
 */
module ClusterRetry {
  import opened Common
  import opened Cluster
  import opened ClusterSafety
  import opened ClusterTheorems
  import B = Batcher
  import BatcherSafety
  import ClusterProgress
  import L = NonceLock
  import Runs

  // ---------- What flush could look at ----------

  /**
   * A submission that reported a hash has landed, whether it was reported as a success or not: after a mining
   * wait that ran out, the hash that flush ignores says that the transaction was accepted.
   */
  lemma ReportedHashLanded(g: Setup, steps: seq<Step>, p: nat, f: nat, a: nat)
    requires ProperPool(g.pool) && Valid(Init(g), steps) && IsSubmission(Exec(Init(g), steps), p, f, a)
    requires Exec(Init(g), steps).procs[p].flights[f].attempts[a].outcome.hash != ""
    ensures Landed(Exec(Init(g), steps), p, f, a)
  {
    Reachable(g, steps);
    var c := Exec(Init(g), steps);
    assert Backed(c, p, f, a);
    assert LandedBy(c, p, f, a, c.backing[(p, f, a)]);
  }

  // ---------- What is settled when flush falls back ----------

  /** Once the batch has returned, whether it landed does not change any more. */
  lemma LandedStep(c: State, step: Step, p: nat, f: nat)
    requires BackingInv(c) && Enabled(c, step) && IsSubmission(c, p, f, 0)
    ensures IsSubmission(Apply(c, step), p, f, 0)
    ensures Landed(Apply(c, step), p, f, 0) <==> Landed(c, p, f, 0)
  {
    var d := Apply(c, step);
    assert Backed(c, p, f, 0);
    StaysBacked(c, step, p, f, 0);
    StaysBacking(c, step, c.backing[(p, f, 0)], p, f, 0);
    SessionsContinue(c, step);
    LandedMeans(c, p, f);
    LandedMeans(d, p, f);
  }

  lemma LandedMeans(c: State, p: nat, f: nat)
    requires IsSubmission(c, p, f, 0) && Backed(c, p, f, 0)
    ensures Landed(c, p, f, 0) <==> c.locks.sessions[c.backing[(p, f, 0)]].sent.Some?
  {
    if c.locks.sessions[c.backing[(p, f, 0)]].sent.Some? {
      assert LandedBy(c, p, f, 0, c.backing[(p, f, 0)]);
    }
  }

  lemma FellBackStep(c: State, step: Step, p: nat, q: nat, f: nat, k: nat)
    requires ProcsInv(c) && Enabled(c, step) && FellBack(c, p, q, f, k)
    ensures FellBack(Apply(c, step), p, q, f, k)
  {
    if !step.Lock? && step.p == p {
      FirstStays(c.procs[p], step.b, f);
    }
  }

  lemma FirstStays(s: B.State, b: B.Step, f: nat)
    requires BatcherSafety.FlightsInv(s) && BatcherSafety.DispatcherInv(s) && B.Enabled(s, b) && f < |s.flights|
    ensures var g := B.Apply(s, b).flights;
      && f < |g| && g[f].batch == s.flights[f].batch
      && (s.flights[f].attempts != [] ==> g[f].attempts != [] && g[f].attempts[0] == s.flights[f].attempts[0])
  {
    BatcherSafety.FlightsStep(s, b);
    AttemptsFrame(s, b);
  }

  lemma {:induction false} SettledRun(c: State, steps: seq<Step>, p: nat, q: nat, f: nat, k: nat)
    requires Inv(c) && Valid(c, steps) && FellBack(c, p, q, f, k)
    ensures Inv(Exec(c, steps)) && FellBack(Exec(c, steps), p, q, f, k)
    ensures Landed(Exec(c, steps), p, f, 0) <==> Landed(c, p, f, 0)
    decreases |steps|
  {
    if steps == [] {
    } else {
      InvStep(c, steps[0]);
      FellBackStep(c, steps[0], p, q, f, k);
      LandedStep(c, steps[0], p, f);
      SettledRun(Apply(c, steps[0]), steps[1..], p, q, f, k);
    }
  }

  /** If the batch had not landed when flush fell back, no continuation carries the operation twice. */
  lemma NotLandedNeverTwice(c: State, steps: seq<Step>, p: nat, q: nat, f: nat, k: nat)
    requires Inv(c) && Valid(c, steps) && FellBack(c, p, q, f, k) && !Landed(c, p, f, 0)
    ensures !CarriedTwice(Exec(c, steps), L.Op(p, q))
  {
    SettledRun(c, steps, p, q, f, k);
    if CarriedTwice(Exec(c, steps), L.Op(p, q)) {
      TwiceLanded(Exec(c, steps), p, q);
      var e, l :| BothLanded(Exec(c, steps), p, q, e, l);
      BatcherSafety.DispatchedDistinct(Exec(c, steps).procs[p]);
      BatcherSafety.OnePlace(Exec(c, steps).procs[p].flights, f, k, e, l);
    }
  }

  // ---------- What can still happen ----------

  /** The k-th operation of the batch has not been submitted on its own yet. */
  ghost predicate ToCome(f: B.Flight, k: nat) { |f.attempts| <= k + 1 && f.pc != B.InOne(k) }

  /** The batch landed although it was reported as failed, and the operation is about to be sent again. */
  ghost predicate Doomed(c: State, p: nat, q: nat, f: nat, k: nat) {
    FellBack(c, p, q, f, k) && Landed(c, p, f, 0) && ToCome(c.procs[p].flights[f], k)
  }

  /** Neither new work nor a client giving up nor an owner losing its entry. */
  ghost predicate Quiet(c: State, step: Step) {
    ClusterProgress.Internal(step) || (step.Lock? && step.a.Expire? && L.Unowned(c.locks, step.a.key))
  }

  ghost predicate QuietRun(c: State, steps: seq<Step>)
    decreases |steps|
  {
    steps == [] || (Enabled(c, steps[0]) && Quiet(c, steps[0]) && QuietRun(Apply(c, steps[0]), steps[1..]))
  }

  /** The step begins the operation's own submission. */
  ghost predicate Begins(c: State, p: nat, f: nat, k: nat, step: Step)
    requires p < |c.procs| && f < |c.procs[p].flights|
  {
    step.Enter? && step.p == p && step.b == B.TakeOne(f) && c.procs[p].flights[f].pc == B.WantOne(k)
  }

  lemma ToComeMoves(g: B.Flight, b: B.Step, k: nat)
    requires BatcherSafety.FlightShape(g) && |g.batch| > 1 && g.attempts != [] && ToCome(g, k) && k < |g.batch|
    requires b.OfFlight() && BatcherSafety.Ready(b, g) && !(b.TakeOne? && g.pc == B.WantOne(k))
    ensures ToCome(B.MoveFlight(b, g), k)
  {
  }

  lemma ToComeStays(s: B.State, b: B.Step, f: nat, k: nat)
    requires BatcherSafety.FlightsInv(s) && B.Enabled(s, b) && f < |s.flights| && k < |s.flights[f].batch|
    requires |s.flights[f].batch| > 1 && s.flights[f].attempts != [] && ToCome(s.flights[f], k)
    requires !(b == B.TakeOne(f) && s.flights[f].pc == B.WantOne(k))
    ensures f < |B.Apply(s, b).flights| && ToCome(B.Apply(s, b).flights[f], k)
  {
    BatcherSafety.FlightsFrame(s, b);
    if b.OfFlight() && b.f == f {
      BatcherSafety.FlightReady(s, b);
      ToComeMoves(s.flights[f], b, k);
    }
  }

  /** Any step but the one that begins the operation's own submission leaves that to come. */
  lemma ToComeStep(c: State, step: Step, p: nat, q: nat, f: nat, k: nat)
    requires ProcsInv(c) && Enabled(c, step) && FellBack(c, p, q, f, k) && ToCome(c.procs[p].flights[f], k)
    requires !Begins(c, p, f, k, step)
    ensures f < |Apply(c, step).procs[p].flights| && ToCome(Apply(c, step).procs[p].flights[f], k)
  {
    if !step.Lock? && step.p == p {
      ToComeStays(c.procs[p], step.b, f, k);
    }
  }

  lemma DoomedStep(c: State, step: Step, p: nat, q: nat, f: nat, k: nat)
    requires Inv(c) && Enabled(c, step) && Doomed(c, p, q, f, k)
    requires !Begins(c, p, f, k, step)
    ensures Doomed(Apply(c, step), p, q, f, k)
  {
    FellBackStep(c, step, p, q, f, k);
    LandedStep(c, step, p, f);
    ToComeStep(c, step, p, q, f, k);
  }

  /** The flush can take its wallet now, for the operation's own submission. */
  ghost predicate Ready(c: State, p: nat, f: nat, k: nat)
    requires p < |c.procs| && f < |c.procs[p].flights|
  {
    c.procs[p].flights[f].pc == B.WantOne(k) && c.procs[p].flights[f].wallet !in c.procs[p].walletLocks
  }

  function KeyOf(c: State, p: nat, f: nat): string
    requires p < |c.procs| && f < |c.procs[p].flights| && c.procs[p].flights[f].wallet < |c.pool|
  {
    L.KeyOf(c.pool[c.procs[p].flights[f].wallet])
  }

  lemma BeginsWhenReady(c: State, p: nat, f: nat, k: nat, step: Step)
    requires p < |c.procs| && f < |c.procs[p].flights| && Enabled(c, step) && Begins(c, p, f, k, step)
    ensures Ready(c, p, f, k)
  {
  }

  /** A step of the system itself or the expiry of an entry that nobody owns. */
  ghost predicate Moves(c: State, step: Step) {
    Enabled(c, step) && Quiet(c, step) && !ClusterProgress.IsArrival(step)
  }

  lemma InternalMoves(c: State, step: Step)
    requires Enabled(c, step) && ClusterProgress.Internal(step)
    ensures Moves(c, step)
  {
  }

  /** Something moves that does not begin the operation's own submission before its key is free. */
  lemma DoomedMoves(c: State, p: nat, q: nat, f: nat, k: nat) returns (step: Step)
    requires Inv(c) && Doomed(c, p, q, f, k)
    requires Ready(c, p, f, k) ==> c.procs[p].flights[f].wallet < |c.pool| && KeyOf(c, p, f) in c.locks.entries
    ensures Moves(c, step) && !Begins(c, p, f, k, step)
  {
    if Ready(c, p, f, k) {
      step := EntryMoves(c, c.pool[c.procs[p].flights[f].wallet]);
    } else {
      NotQuiescent(c, p, q, f, k);
      step := ClusterProgress.SomethingMoves(c);
      InternalMoves(c, step);
      if Begins(c, p, f, k, step) {
        BeginsWhenReady(c, p, f, k, step);
      }
    }
  }

  lemma NotQuiescent(c: State, p: nat, q: nat, f: nat, k: nat)
    requires ProcsInv(c) && Doomed(c, p, q, f, k)
    ensures c.pool != [] && !ClusterProgress.Quiescent(c)
  {
    assert BatcherSafety.FlightShape(c.procs[p].flights[f]);
  }

  /** Whoever has the entry of a pool wallet goes on, or the entry was left behind and may expire. */
  lemma EntryMoves(c: State, w: L.Wallet) returns (step: Step)
    requires L.EntryInv(c.locks) && L.KeyInv(c.locks) && L.TokenDistinct(c.locks) && SortInv(c)
    requires w in c.pool && L.KeyOf(w) in c.locks.entries
    ensures Moves(c, step) && step.Lock?
  {
    var e := L.Writer(c.locks, L.KeyOf(w));
    if c.locks.sessions[e].pc.Owns() {
      ClusterProgress.SameMutexSameWallet(c.locks, e, w);
      step := PoolSessionMoves(c, e);
    } else {
      step := OrphanExpires(c, e);
    }
  }

  lemma OrphanExpires(c: State, e: nat) returns (step: Step)
    requires L.TokenDistinct(c.locks) && c.locks.Is(e) && c.locks.Leased(e) && !c.locks.sessions[e].pc.Owns()
    ensures Moves(c, step) && step.Lock?
  {
    L.OrphanUnowned(c.locks, e);
    step := Lock(L.Expire(c.locks.sessions[e].key));
  }

  lemma PoolSessionMoves(c: State, e: nat) returns (step: Step)
    requires SortInv(c) && c.locks.Is(e) && c.locks.sessions[e].pc.Owns() && c.locks.sessions[e].wallet in c.pool
    ensures Moves(c, step) && step.Lock?
  {
    assert Sorted(c, c.locks.sessions[e]);
    var a := ClusterProgress.SessionMoves(c.locks, e);
    step := Lock(a);
  }

  // ---------- The operation's own submission ----------

  /** Steps of a session that its owner has no part in. */
  ghost predicate OnItsOwn(a: L.Step) { !a.Start? && !a.Expire? && !a.LockLocal? && !a.Unlock? && !a.Return? }

  lemma {:induction false} Lift(c: State, acts: seq<L.Step>) returns (steps: seq<Step>)
    requires L.Valid(c.locks, acts) && forall n :: 0 <= n < |acts| ==> OnItsOwn(acts[n])
    ensures PlainRun(c, steps) && QuietRun(c, steps) && Exec(c, steps) == c.(locks := L.Exec(c.locks, acts))
    decreases |acts|
  {
    if acts == [] {
      steps := [];
    } else {
      var rest := Lift(Apply(c, Lock(acts[0])), acts[1..]);
      steps := Runs.Cons(Apply, c, Lock(acts[0]), rest);
    }
  }

  /** Session i is the sender of some wallet and has got this far. */
  ghost predicate At(l: L.State, i: nat, pc: L.Pc) {
    l.Is(i) && l.sessions[i].pc == pc && l.sessions[i].kind != L.Account
  }

  lemma Owns(l: L.State, i: nat) returns (acts: seq<L.Step>)
    requires At(l, i, L.Local) && (l.distributed ==> l.sessions[i].key !in l.entries)
    ensures L.Valid(l, acts) && At(L.Exec(l, acts), i, L.Inside) && forall n :: 0 <= n < |acts| ==> OnItsOwn(acts[n])
  {
    if l.distributed {
      var token := L.FreshToken(l.sessions);
      var m := L.Apply(l, L.Draw(i, Some(token)));
      assert m.sessions[i] == l.sessions[i].(token := Some(token), pc := L.Trying(0));
      assert L.Enabled(m, L.SetNX(i)) && L.Valid(L.Apply(m, L.SetNX(i)), []);
      acts := Runs.Cons(L.Apply, m, L.SetNX(i), []);
      acts := Runs.Cons(L.Apply, l, L.Draw(i, Some(token)), acts);
    } else {
      assert L.Enabled(l, L.EnterLocal(i)) && L.Valid(L.Apply(l, L.EnterLocal(i)), []);
      acts := Runs.Cons(L.Apply, l, L.EnterLocal(i), []);
    }
  }

  lemma Sends(l: L.State, i: nat) returns (acts: seq<L.Step>)
    requires At(l, i, L.Inside)
    ensures L.Valid(l, acts) && forall n :: 0 <= n < |acts| ==> OnItsOwn(acts[n])
    ensures L.Exec(l, acts).Is(i) && L.Exec(l, acts).sessions[i].sent.Some?
  {
    var m, send := L.Apply(l, L.ReadNonce(i)), L.Send(i, true, false, "");
    assert m.sessions[i].pc.Holding?;
    assert L.Enabled(m, send) && L.Valid(L.Apply(m, send), []);
    acts := Runs.Cons(L.Apply, m, send, []);
    acts := Runs.Cons(L.Apply, l, L.ReadNonce(i), acts);
  }

  /** A session that has just taken its mutex walks in and its transaction is accepted. */
  lemma WalksIn(l: L.State, i: nat) returns (acts: seq<L.Step>)
    requires At(l, i, L.Local) && (l.distributed ==> l.sessions[i].key !in l.entries)
    ensures L.Valid(l, acts) && forall n :: 0 <= n < |acts| ==> OnItsOwn(acts[n])
    ensures L.Exec(l, acts).Is(i) && L.Exec(l, acts).sessions[i].sent.Some?
  {
    var enter := Owns(l, i);
    var send := Sends(L.Exec(l, enter), i);
    Runs.Compose(L.Apply, l, enter, send);
    acts := enter + send;
  }

  lemma TakesOwn(s: B.State, f: nat, k: nat)
    requires f < |s.flights| && s.flights[f].pc == B.WantOne(k) && s.flights[f].wallet !in s.walletLocks
    ensures B.Enabled(s, B.TakeOne(f))
    ensures B.Apply(s, B.TakeOne(f)).flights == s.flights[f := s.flights[f].(pc := B.InOne(k))]
  {
  }

  /** The flush takes its free wallet for the operation's own submission. */
  lemma BeginsOwn(c: State, p: nat, f: nat, k: nat) returns (step: Step)
    requires Inv(c) && p < |c.procs| && f < |c.procs[p].flights| && Ready(c, p, f, k)
    ensures step == Enter(p, B.TakeOne(f), L.Batch) && Enabled(c, step) && Quiet(c, step)
    ensures c.procs[p].flights[f].wallet < |c.pool|
    ensures var d, i := Apply(c, step), |c.locks.sessions|;
      && At(d.locks, i, L.Local) && d.locks.sessions[i].key == KeyOf(c, p, f) && d.locks.entries == c.locks.entries
      && d.locks.distributed == c.locks.distributed
      && f < |d.procs[p].flights| && d.procs[p].flights[f] == c.procs[p].flights[f].(pc := B.InOne(k))
      && (p, Of(B.ByFlight(f))) in d.current && d.current[(p, Of(B.ByFlight(f)))] == i
  {
    var b := B.TakeOne(f);
    TakesOwn(c.procs[p], f, k);
    ClusterProgress.CanEnter(c, p, b);
    step := Enter(p, b, L.Batch);
    BeginSession(c.locks, SessionStart(c, p, b, L.Batch));
  }

  /** A quiet run after which the chain carries the operation twice. */
  ghost predicate SendsTwice(c: State, p: nat, q: nat, steps: seq<Step>) {
    Valid(c, steps) && QuietRun(c, steps) && CarriedTwice(Exec(c, steps), L.Op(p, q))
  }

  lemma SendsTwiceCons(c: State, p: nat, q: nat, step: Step, rest: seq<Step>)
    requires Enabled(c, step) && Quiet(c, step) && SendsTwice(Apply(c, step), p, q, rest)
    ensures SendsTwice(c, p, q, [step] + rest)
  {
    var steps := Runs.Cons(Apply, c, step, rest);
  }

  /** The submission under way has landed. */
  lemma UnderWay(c: State, p: nat, f: nat, a: nat, i: nat)
    requires p < |c.procs| && f < |c.procs[p].flights| && a == |c.procs[p].flights[f].attempts|
    requires c.procs[p].flights[f].pc.HoldsWallet() && c.locks.Is(i) && c.locks.sessions[i].sent.Some?
    requires (p, Of(B.ByFlight(f))) in c.current && c.current[(p, Of(B.ByFlight(f)))] == i
    ensures Landed(c, p, f, a)
  {
    assert LandedBy(c, p, f, a, i);
  }

  /** The flush takes its wallet, whose key is free, and the operation's own transaction is accepted. */
  lemma OwnLands(c: State, p: nat, q: nat, f: nat, k: nat) returns (steps: seq<Step>)
    requires Inv(c) && Doomed(c, p, q, f, k) && Ready(c, p, f, k) && c.procs[p].flights[f].wallet < |c.pool|
    requires c.locks.distributed ==> KeyOf(c, p, f) !in c.locks.entries
    ensures SendsTwice(c, p, q, steps)
  {
    var i := |c.locks.sessions|;
    var step := BeginsOwn(c, p, f, k);
    StillDoomed(c, step, p, q, f, k);
    OwnAttempts(c, p, f, k);
    var rest := OwnEnds(Apply(c, step), p, q, f, k, i);
    SendsTwiceCons(c, p, q, step, rest);
    steps := [step] + rest;
  }

  lemma StillDoomed(c: State, step: Step, p: nat, q: nat, f: nat, k: nat)
    requires Inv(c) && Enabled(c, step) && FellBack(c, p, q, f, k) && Landed(c, p, f, 0)
    ensures Inv(Apply(c, step)) && FellBack(Apply(c, step), p, q, f, k) && Landed(Apply(c, step), p, f, 0)
  {
    InvStep(c, step);
    FellBackStep(c, step, p, q, f, k);
    LandedStep(c, step, p, f);
  }

  /** The session of the operation's own submission goes all the way. */
  lemma OwnEnds(c: State, p: nat, q: nat, f: nat, k: nat, i: nat) returns (steps: seq<Step>)
    requires Inv(c) && FellBack(c, p, q, f, k) && Landed(c, p, f, 0)
    requires At(c.locks, i, L.Local) && (c.locks.distributed ==> c.locks.sessions[i].key !in c.locks.entries)
    requires c.procs[p].flights[f].pc.HoldsWallet() && k + 1 == |c.procs[p].flights[f].attempts|
    requires (p, Of(B.ByFlight(f))) in c.current && c.current[(p, Of(B.ByFlight(f)))] == i
    ensures SendsTwice(c, p, q, steps)
  {
    var acts := WalksIn(c.locks, i);
    steps := Lift(c, acts);
    SettledRun(c, steps, p, q, f, k);
    UnderWay(Exec(c, steps), p, f, k + 1, i);
    LandedTwice(Exec(c, steps), p, q, f, k);
  }

  lemma OwnAttempts(c: State, p: nat, f: nat, k: nat)
    requires ProcsInv(c) && p < |c.procs| && f < |c.procs[p].flights| && c.procs[p].flights[f].pc == B.WantOne(k)
    ensures |c.procs[p].flights[f].attempts| == k + 1
  {
    assert BatcherSafety.FlightShape(c.procs[p].flights[f]);
  }

  lemma PoolWallet(c: State, p: nat, f: nat)
    requires ProcsInv(c) && p < |c.procs| && f < |c.procs[p].flights|
    ensures c.procs[p].flights[f].wallet < |c.pool|
  {
    assert BatcherSafety.FlightsInv(c.procs[p]);
  }

  /** Wherever the flush and everybody else are, the operation's own submission can be reached and land. */
  lemma {:induction false} CarryTwice(c: State, p: nat, q: nat, f: nat, k: nat) returns (steps: seq<Step>)
    requires Inv(c) && Doomed(c, p, q, f, k)
    ensures SendsTwice(c, p, q, steps)
    decreases ClusterProgress.Work(c)
  {
    PoolWallet(c, p, f);
    if Ready(c, p, f, k) && (c.locks.distributed ==> KeyOf(c, p, f) !in c.locks.entries) {
      steps := OwnLands(c, p, q, f, k);
    } else {
      var step := DoomedMoves(c, p, q, f, k);
      InvStep(c, step);
      DoomedStep(c, step, p, q, f, k);
      ClusterProgress.WorkShrinks(c, step);
      var rest := CarryTwice(Apply(c, step), p, q, f, k);
      SendsTwiceCons(c, p, q, step, rest);
      steps := [step] + rest;
    }
  }

  /**
   * The exact condition at the moment of the fallback. When flush has fallen back and an operation's own
   * submission is still to come, some continuation, even one without arrivals, cancellations and lost leases,
   * makes the chain carry the operation twice if and only if the transaction of the batch was accepted.
   */
  lemma TwiceIffLandedAtFallback(g: Setup, past: seq<Step>, p: nat, q: nat, f: nat, k: nat)
    requires ProperPool(g.pool) && Valid(Init(g), past)
    requires var c := Exec(Init(g), past); FellBack(c, p, q, f, k) && ToCome(c.procs[p].flights[f], k)
    ensures var c := Exec(Init(g), past);
      && (Landed(c, p, f, 0) ==> exists steps :: SendsTwice(c, p, q, steps))
      && (!Landed(c, p, f, 0) ==> forall steps :: Valid(c, steps) ==> !CarriedTwice(Exec(c, steps), L.Op(p, q)))
  {
    Reachable(g, past);
    var c := Exec(Init(g), past);
    if Landed(c, p, f, 0) {
      var steps := CarryTwice(c, p, q, f, k);
    } else {
      forall steps | Valid(c, steps)
        ensures !CarriedTwice(Exec(c, steps), L.Op(p, q))
      {
        NotLandedNeverTwice(c, steps, p, q, f, k);
      }
    }
  }
}
