/** Deadlock freedom and termination of the deployment, on every run, whatever expires. */
module ClusterProgress {
  import opened Common
  import opened Cluster
  import opened ClusterSafety
  import B = Batcher
  import BatcherSafety
  import BatcherProgress
  import L = NonceLock
  import LockKeys

  /** A step of the system itself: no arrival, no client giving up, no expiry. */
  ghost predicate Internal(step: Step) {
    match step
    case Lock(a) => !a.Start? && !a.Expire?
    case _ => BatcherProgress.Internal(step.b)
  }

  /** Nothing is left to do in any process, and every session has ended. */
  ghost predicate Quiescent(c: State) {
    && (forall p :: 0 <= p < |c.procs| ==> BatcherProgress.Quiescent(c.procs[p]))
    && (forall i :: 0 <= i < |c.locks.sessions| ==> c.locks.sessions[i].pc.Finished?)
  }

  // ---------- Something can always move ----------

  lemma SameMutexSameWallet(l: L.State, i: nat, w: L.Wallet)
    requires L.KeyInv(l) && l.Is(i) && l.sessions[i].key == L.KeyOf(w)
    ensures l.sessions[i].wallet == w
  {
    var v := l.sessions[i].wallet;
    LockKeys.WalletKeyInjective(v.chain, v.address, w.chain, w.address);
  }

  lemma MutexFree(l: L.State, start: L.Step)
    requires start.Start? && (start.process, L.KeyOf(start.wallet)) !in l.mutexes
    ensures L.Enabled(L.Apply(l, start), L.LockLocal(|l.sessions|))
  {
  }

  function KindOf(b: B.Step): L.Kind
    requires Opens(b)
  {
    if b.TakeAccount? then L.Account else if b.OfSender() then L.Managed else L.Batch
  }

  /**
   * If the batcher of a process sees the wallet free, the mutex underneath is free: distinct wallets and
   * accounts never block each other through their keys.
   */
  lemma CanEnter(c: State, p: nat, b: B.Step)
    requires Inv(c) && p < |c.procs| && b.Takes() && B.Enabled(c.procs[p], b)
    ensures Enabled(c, Enter(p, b, KindOf(b)))
  {
    CanEnterAs(c, p, b, KindOf(b));
  }

  lemma CanEnterAs(c: State, p: nat, b: B.Step, kind: L.Kind)
    requires Inv(c) && p < |c.procs| && b.Takes() && B.Enabled(c.procs[p], b) && KindFits(b, kind)
    ensures Enabled(c, Enter(p, b, kind))
  {
    var s, l := c.procs[p], c.locks;
    TakesPoolWallet(s, b);
    var w := B.WalletOf(s, b);
    if (p, L.KeyOf(c.pool[w])) in l.mutexes {
      MutexIsOwned(c, p, w);
    }
    MutexFree(l, SessionStart(c, p, b, kind));
  }

  lemma TakesPoolWallet(s: B.State, b: B.Step)
    requires BatcherSafety.FlightsInv(s) && BatcherSafety.SendersInv(s) && B.Enabled(s, b) && b.Takes()
    ensures B.WalletOf(s, b) < s.wallets && B.WalletOf(s, b) !in s.walletLocks
  {
  }

  /** The mutex of a pool wallet is held by whoever holds the wallet. */
  lemma MutexIsOwned(c: State, p: nat, w: nat)
    requires Inv(c) && p < |c.procs| && w < |c.pool| && (p, L.KeyOf(c.pool[w])) in c.locks.mutexes
    ensures w in c.procs[p].walletLocks
  {
    var i := c.locks.mutexes[(p, L.KeyOf(c.pool[w]))];
    SameMutexSameWallet(c.locks, i, c.pool[w]);
    assert PoolSession(c, i);
    var v, h :| Owned(c, i, v, h);
    assert HasSession(c, p, v, h);
    assert v == w;
  }

  /** Whatever a session past the mutex is doing, it can go on, unless it waits for its client. */
  lemma SessionMoves(l: L.State, i: nat) returns (a: L.Step)
    requires l.Is(i) && l.sessions[i].pc.HoldsLocal() && !l.sessions[i].pc.Unlocking?
    requires !(l.sessions[i].kind == L.Account && l.sessions[i].pc.Inside?)
    ensures L.Enabled(l, a) && !a.Start? && !a.Expire? && !a.LockLocal? && !a.Unlock? && !a.Return? && a.i == i
  {
    match l.sessions[i].pc
    case Local =>
      var t := L.FreshToken(l.sessions);
      a := if l.distributed then L.Draw(i, Some(t)) else L.EnterLocal(i);
    case Trying(n) => a := if n < L.RETRY_COUNT then L.SetNX(i) else L.GiveUp(i, false);
    case Inside => a := L.ReadNonce(i);
    case Holding(_) => a := L.Send(i, true, false, "");
    case Mining => a := L.WaitOver(i, true);
    case Releasing => a := L.Release(i, true);
  }

  /** A session outside the pool that does not wait for its client goes on or ends. */
  lemma OutsiderMoves(c: State, i: nat) returns (step: Step)
    requires c.locks.Is(i) && c.locks.sessions[i].pc.HoldsLocal() && c.locks.sessions[i].wallet !in c.pool
    requires !(c.locks.sessions[i].kind == L.Account && c.locks.sessions[i].pc.Inside?)
    ensures Enabled(c, step) && Internal(step) && step.Lock? && step.a.i == i
  {
    if c.locks.sessions[i].pc.Unlocking? {
      step := Lock(L.Unlock(i));
    } else {
      var a := SessionMoves(c.locks, i);
      step := Lock(a);
    }
  }

  /** A holder's submission returns, or its session can go on. */
  lemma HolderReturns(c: State, p: nat, b: B.Step) returns (step: Step)
    requires HolderInv(c) && SortInv(c) && p < |c.procs| && b.Returns() && B.Enabled(c.procs[p], b)
    ensures Enabled(c, step) && Internal(step)
    ensures if step.Lock? then (p, OwnerOf(b)) in c.current && step.a.i == c.current[(p, OwnerOf(b))]
            else step.Leave? && step.p == p
  {
    BatcherSafety.HolderMoves(c.procs[p], b);
    assert HasSession(c, p, B.WalletOf(c.procs[p], b), b.Holder());
    var i := c.current[(p, OwnerOf(b))];
    assert Sorted(c, c.locks.sessions[i]);
    if c.locks.sessions[i].pc.Unlocking? {
      step := LeaveWith(c, p, b);
    } else {
      var a := SessionMoves(c.locks, i);
      step := Lock(a);
    }
  }

  /** A submission may return with the outcome its session reached. */
  lemma LeaveWith(c: State, p: nat, b: B.Step) returns (step: Step)
    requires p < |c.procs| && b.Returns() && B.Enabled(c.procs[p], b) && (p, OwnerOf(b)) in c.current
    requires c.locks.Is(c.current[(p, OwnerOf(b))])
    requires c.locks.sessions[c.current[(p, OwnerOf(b))]].pc.Unlocking?
    ensures Enabled(c, step) && Internal(step) && step.Leave? && step.p == p
  {
    var me := c.locks.sessions[c.current[(p, OwnerOf(b))]];
    var o := B.Outcome(me.hash, if me.ok then None else Some(""));
    var d := if b.SubmitBatch? then B.SubmitBatch(b.f, o) else if b.SubmitOne? then B.SubmitOne(b.f, o) else b;
    assert B.Enabled(c.procs[p], d) && OwnerOf(d) == OwnerOf(b);
    step := Leave(p, d);
  }

  /** A client that wants a free account takes its mutex, or whoever still has that mutex can go on. */
  lemma AccountOpens(c: State, p: nat, k: nat) returns (step: Step)
    requires Inv(c) && p < |c.procs| && B.Enabled(c.procs[p], B.TakeAccount(k))
    ensures Enabled(c, step) && Internal(step)
  {
    var b := B.TakeAccount(k);
    var a := c.procs[p].clients[k].account.value;
    var w := AccountLock(c.chain, a);
    if (p, L.KeyOf(w)) in c.locks.mutexes {
      var i := c.locks.mutexes[(p, L.KeyOf(w))];
      SameMutexSameWallet(c.locks, i, w);
      AccountNotInPool(c.pool, c.chain, a);
      if AccountSession(c, i) {
        WorkingIsLocked(c, i, a);
      }
      step := OutsiderMoves(c, i);
    } else {
      MutexFree(c.locks, SessionStart(c, p, b, L.Account));
      step := Enter(p, b, L.Account);
    }
  }

  /** An account whose session is at work is locked in its process. */
  lemma WorkingIsLocked(c: State, i: nat, a: string)
    requires Inv(c) && c.locks.Is(i) && AccountSession(c, i) && c.locks.sessions[i].wallet == AccountLock(c.chain, a)
    ensures c.locks.sessions[i].process < |c.procs| && a in c.procs[c.locks.sessions[i].process].accountLocks
  {
    var p := c.locks.sessions[i].process;
    var d, k :| Kept(c, i, d, k);
    assert HasAccount(c, p, d, k);
    assert ("account:" + d)[8..] == ("account:" + a)[8..];
    assert d == a;
  }

  /** A client under its account lock goes on, or its session does. */
  lemma ClientGoesOn(c: State, p: nat, b: B.Step) returns (step: Step)
    requires AccountInv(c) && SortInv(c) && p < |c.procs| && B.Enabled(c.procs[p], b)
    requires UnderAccount(c.procs[p], b) && !b.Cancel?
    ensures Enabled(c, step) && Internal(step)
  {
    var me := c.procs[p].clients[b.c];
    assert BatcherSafety.AccountHeld(c.procs[p], me.account.value, b.c);
    assert HasAccount(c, p, me.account.value, b.c);
    var i := c.current[(p, ByClient(b.c))];
    assert Sorted(c, c.locks.sessions[i]);
    var pc := c.locks.sessions[i].pc;
    if pc.Inside? {
      step := Client(p, b);
    } else if pc.Unlocking? || pc.Finished? {
      step := Client(p, B.Prepare(b.c, false));
    } else {
      step := OutsiderMoves(c, i);
    }
  }

  lemma ProcessMoves(c: State, p: nat) returns (step: Step)
    requires Inv(c) && c.pool != [] && p < |c.procs| && !BatcherProgress.Quiescent(c.procs[p])
    ensures Enabled(c, step) && Internal(step)
  {
    var b := BatcherProgress.SomethingMoves(c.procs[p]);
    if b.Takes() {
      CanEnter(c, p, b);
      step := Enter(p, b, KindOf(b));
    } else if b.Returns() {
      step := HolderReturns(c, p, b);
    } else if b.TakeAccount? {
      step := AccountOpens(c, p, b.c);
    } else if UnderAccount(c.procs[p], b) {
      step := ClientGoesOn(c, p, b);
    } else {
      step := Inner(p, b);
    }
  }

  /** When all batchers are done, the sessions that are left belong to senders of other wallets. */
  lemma LeftoverMoves(c: State, i: nat) returns (step: Step)
    requires Inv(c) && c.locks.Is(i) && c.locks.sessions[i].pc.HoldsLocal()
    requires forall p :: 0 <= p < |c.procs| ==> BatcherProgress.Quiescent(c.procs[p])
    ensures Enabled(c, step) && Internal(step)
  {
    QuietOwners(c, i);
    step := OutsiderMoves(c, i);
  }

  lemma QuietOwners(c: State, i: nat)
    requires OwnedInv(c) && KeptInv(c) && c.locks.Is(i) && c.locks.sessions[i].pc.HoldsLocal()
    requires forall p :: 0 <= p < |c.procs| ==> BatcherProgress.Quiescent(c.procs[p])
    ensures c.locks.sessions[i].wallet !in c.pool && !AccountSession(c, i)
  {
    forall p | 0 <= p < |c.procs|
      ensures forall w, h :: !BatcherSafety.HolderInside(c.procs[p], w, h)
      ensures forall a, k :: !BatcherSafety.AccountHeld(c.procs[p], a, k)
    {
      QuietBatcher(c.procs[p]);
    }
    assert forall w, h :: !Owned(c, i, w, h);
    assert forall a, k :: !Kept(c, i, a, k);
    assert !PoolSession(c, i);
  }

  lemma QuietBatcher(s: B.State)
    requires BatcherProgress.Quiescent(s)
    ensures forall w, h :: !BatcherSafety.HolderInside(s, w, h)
    ensures forall a, k :: !BatcherSafety.AccountHeld(s, a, k)
  {
  }

  lemma SomethingMoves(c: State) returns (step: Step)
    requires Inv(c) && c.pool != [] && !Quiescent(c)
    ensures Enabled(c, step) && Internal(step)
  {
    if p :| 0 <= p < |c.procs| && !BatcherProgress.Quiescent(c.procs[p]) {
      step := ProcessMoves(c, p);
    } else {
      var i :| 0 <= i < |c.locks.sessions| && !c.locks.sessions[i].pc.Finished?;
      if c.locks.sessions[i].pc.HoldsLocal() {
        step := LeftoverMoves(c, i);
      } else if c.locks.sessions[i].Mutex() in c.locks.mutexes {
        step := LeftoverMoves(c, c.locks.mutexes[c.locks.sessions[i].Mutex()]);
      } else {
        assert Sorted(c, c.locks.sessions[i]);
        step := Lock(L.LockLocal(i));
      }
    }
  }

  /**
   * Deadlock freedom of the whole deployment: while any process has anything unfinished or any session has
   * not ended, some step is enabled that is neither an arrival nor a cancellation nor an expiry, whatever
   * the other processes, the lock server and the node have been doing.
   */
  lemma DeploymentMoves(g: Setup, steps: seq<Step>) returns (step: Step)
    requires ProperPool(g.pool) && g.pool != [] && Valid(Init(g), steps) && !Quiescent(Exec(Init(g), steps))
    ensures Enabled(Exec(Init(g), steps), step) && Internal(step)
  {
    Reachable(g, steps);
    step := SomethingMoves(Exec(Init(g), steps));
  }

  // ---------- Nothing moves forever ----------

  ghost function SessionWork(me: L.Session): nat {
    match me.pc
    case WantLocal => 19
    case Local => 18
    case Trying(n) => if n <= L.RETRY_COUNT then 17 - n else 7
    case Inside => 5
    case Holding(_) => 4
    case Mining => 3
    case Releasing => 2
    case Unlocking => 1
    case Finished => 0
  }

  /** What the sessions still have to do, and the entries that may still expire. */
  ghost function LockWork(l: L.State): nat { Sum(l.sessions, SessionWork) + |l.entries.Keys| }

  lemma SessionWorkShrinks(l: L.State, a: L.Step)
    requires L.Enabled(l, a) && !a.Start? && !a.Expire?
    ensures var d := SessionWork(l.sessions[a.i]) - SessionWork(L.Apply(l, a).sessions[a.i]);
      d >= 1 && (L.Entries(l, a) != l.entries && !a.Release? ==> d >= 2)
  {
  }

  lemma EntriesWork(l: L.State, a: L.Step)
    requires L.Enabled(l, a)
    ensures var d := |L.Entries(l, a).Keys| - |l.entries.Keys|;
      && d <= 1
      && (L.Entries(l, a) == l.entries || a.Release? ==> d <= 0)
      && (a.Expire? ==> d == -1)
  {
    if a.Expire? {
      assert L.Entries(l, a).Keys == l.entries.Keys - {a.key};
    } else if a.Release? {
      assert L.Entries(l, a).Keys == l.entries.Keys ||
             L.Entries(l, a).Keys == l.entries.Keys - {l.sessions[a.i].key};
    } else if L.Entries(l, a) != l.entries {
      assert L.Entries(l, a).Keys == l.entries.Keys + {l.sessions[a.i].key};
    }
  }

  /** Every step of the locks but the start of a session uses up work, expiry included. */
  lemma LockWorkShrinks(l: L.State, a: L.Step)
    requires L.Enabled(l, a)
    ensures if a.Start? then LockWork(L.Apply(l, a)) == LockWork(l) + 19 else LockWork(L.Apply(l, a)) < LockWork(l)
  {
    EntriesWork(l, a);
    if a.Start? {
      SumAppend(l.sessions, L.Apply(l, a).sessions[|l.sessions|], SessionWork);
    } else if !a.Expire? {
      SessionWorkShrinks(l, a);
      SumUpdate(l.sessions, a.i, L.Apply(l, a).sessions[a.i], SessionWork);
    }
  }

  /** An upper bound on the steps the deployment can still make by itself. */
  ghost function Work(c: State): nat { 19 * Sum(c.procs, BatcherProgress.Work) + LockWork(c.locks) }

  ghost predicate IsArrival(step: Step) { if step.Lock? then step.a.Start? else step.b.IsArrival() }

  lemma ProcsWork(c: State, step: Step)
    requires ProcsInv(c) && Enabled(c, step) && !step.Lock?
    ensures var d := Sum(Apply(c, step).procs, BatcherProgress.Work) - Sum(c.procs, BatcherProgress.Work);
      if step.b.IsArrival() then d <= 15 else d <= -1
  {
    BatcherProgress.WorkShrinks(c.procs[step.p], step.b);
    SumUpdate(c.procs, step.p, B.Apply(c.procs[step.p], step.b), BatcherProgress.Work);
  }

  lemma SessionsWork(c: State, step: Step)
    requires Enabled(c, step) && !step.Lock?
    ensures LockWork(Apply(c, step).locks) <= LockWork(c.locks) + if step.Enter? then 18 else 0
  {
    match step
    case Inner(_, _) =>
    case Enter(p, b, kind) =>
      var start := SessionStart(c, p, b, kind);
      LockWorkShrinks(c.locks, start);
      LockWorkShrinks(L.Apply(c.locks, start), L.LockLocal(|c.locks.sessions|));
    case Leave(p, b) => LockWorkShrinks(c.locks, L.Unlock(c.current[(p, OwnerOf(b))]));
    case Client(p, b) =>
      if NextLocks(c, step) != c.locks {
        LockWorkShrinks(c.locks, L.Return(c.current[(p, OwnerOf(b))]));
      }
  }

  /** Every step but an arrival uses up work; an arrival adds at most 285. */
  lemma WorkShrinks(c: State, step: Step)
    requires ProcsInv(c) && Enabled(c, step)
    ensures if IsArrival(step) then Work(Apply(c, step)) <= Work(c) + 285 else Work(Apply(c, step)) < Work(c)
  {
    if step.Lock? {
      LockWorkShrinks(c.locks, step.a);
    } else {
      ProcsWork(c, step);
      SessionsWork(c, step);
    }
  }

  ghost function Arrivals(steps: seq<Step>): nat {
    if steps == [] then 0 else One(IsArrival(steps[0])) + Arrivals(steps[1..])
  }

  lemma {:induction false} RunLength(c: State, steps: seq<Step>)
    requires ProcsInv(c) && Valid(c, steps)
    ensures |steps| + Work(Exec(c, steps)) <= Work(c) + 286 * Arrivals(steps)
    decreases |steps|
  {
    if steps == [] {
    } else {
      ProcsStep(c, steps[0]);
      WorkShrinks(c, steps[0]);
      RunLength(Apply(c, steps[0]), steps[1..]);
    }
  }

  /**
   * A run of the deployment with finitely many arrivals is finite: at most 286 steps per arrival, whatever
   * the interleaving and however often entries expire.
   */
  lemma DeploymentEnds(g: Setup, steps: seq<Step>)
    requires ProperPool(g.pool) && Valid(Init(g), steps)
    ensures |steps| <= 286 * Arrivals(steps)
  {
    InitInv(g);
    InitWork(g);
    RunLength(Init(g), steps);
  }

  lemma InitWork(g: Setup)
    ensures Work(Init(g)) == 0
  {
    var procs := Init(g).procs;
    forall p | 0 <= p < |procs|
      ensures BatcherProgress.Work(procs[p]) == 0
    {
    }
    SumZero(procs, BatcherProgress.Work);
  }

  /**
   * When a run can go no further by itself, everything is finished in every process: each operation that a
   * channel accepted has exactly one answer, all sessions have ended, and no mutex, lock or slot is held.
   */
  lemma DeploymentAnswers(g: Setup, steps: seq<Step>)
    requires ProperPool(g.pool) && g.pool != [] && Valid(Init(g), steps)
    requires forall step :: Internal(step) ==> !Enabled(Exec(Init(g), steps), step)
    ensures var c := Exec(Init(g), steps);
      && Quiescent(c) && c.locks.mutexes == map[]
      && forall p :: 0 <= p < |c.procs| ==> AllAnswered(c.procs[p])
  {
    Reachable(g, steps);
    var c := Exec(Init(g), steps);
    if !Quiescent(c) {
      var step := SomethingMoves(c);
      assert false;
    }
    forall p | 0 <= p < |c.procs|
      ensures AllAnswered(c.procs[p])
    {
      BatcherProgress.QuiescentIsAnswered(c.procs[p]);
    }
    assert forall m :: m !in c.locks.mutexes;
  }

  ghost predicate AllAnswered(s: B.State) {
    && (forall q :: 0 <= q < |s.clients| && q in s.accepted ==> BatcherProgress.AnsweredOnce(s.clients[q]))
    && s.walletLocks == map[] && s.accountLocks == map[] && s.slots == 0
  }
}
