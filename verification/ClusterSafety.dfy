/** What every run of the deployment keeps, whatever expires, and what trusted runs keep. */
module ClusterSafety {
  import opened Common
  import opened Cluster
  import B = Batcher
  import BatcherSafety
  import L = NonceLock
  import LockKeys

  // ---------- The invariant ----------

  ghost predicate ProcsInv(c: State) {
    && ProperPool(c.pool)
    && forall p :: 0 <= p < |c.procs| ==> BatcherSafety.Inv(c.procs[p]) && c.procs[p].wallets == |c.pool|
  }

  /** Every session number was handed out once. */
  ghost predicate CurrentInv(c: State) {
    && (forall k :: k in c.current ==> c.locks.Is(c.current[k]))
    && (forall k, l :: k in c.current && l in c.current && k != l ==> c.current[k] != c.current[l])
  }

  /** A holder of a wallet has a session of its own that has not ended and carries what the holder submits. */
  ghost predicate HasSession(c: State, p: nat, w: nat, h: B.Holder)
    requires p < |c.procs|
  {
    && (p, Of(h)) in c.current && w < |c.pool| && c.locks.Is(c.current[(p, Of(h))])
    && var me := c.locks.sessions[c.current[(p, Of(h))]];
       && me.process == p && me.wallet == c.pool[w] && me.pc.HoldsLocal()
       && me.ops == Tag(p, SubmittingBy(c.procs[p], h))
  }

  ghost predicate HolderInv(c: State) {
    forall p, w, h :: 0 <= p < |c.procs| && BatcherSafety.HolderInside(c.procs[p], w, h) ==> HasSession(c, p, w, h)
  }

  /** The session of an account before fn has returned. */
  ghost predicate Working(pc: L.Pc) { pc.Local? || pc.Trying? || pc.Inside? }

  /** A client with its account has a session of its own; once it is past its preparations, it is inside. */
  ghost predicate HasAccount(c: State, p: nat, a: string, k: nat)
    requires p < |c.procs| && k < |c.procs[p].clients|
  {
    && (p, ByClient(k)) in c.current && c.locks.Is(c.current[(p, ByClient(k))])
    && var me := c.locks.sessions[c.current[(p, ByClient(k))]];
       && me.kind == L.Account && me.process == p && me.wallet == AccountLock(c.chain, a)
       && (Working(me.pc) || me.pc.Unlocking? || me.pc.Finished?)
       && (me.pc.Inside? || c.procs[p].clients[k].pc.Preparing?)
  }

  ghost predicate AccountInv(c: State) {
    forall p, a, k :: 0 <= p < |c.procs| && BatcherSafety.AccountHeld(c.procs[p], a, k) ==> HasAccount(c, p, a, k)
  }

  /** Every submission that returned is backed by a finished session of that wallet that agrees with it. */
  ghost predicate Backed(c: State, p: nat, f: nat, a: nat)
    requires p < |c.procs| && f < |c.procs[p].flights| && a < |c.procs[p].flights[f].attempts|
  {
    var flight := c.procs[p].flights[f];
    && (p, f, a) in c.backing && c.locks.Is(c.backing[(p, f, a)]) && flight.wallet < |c.pool|
    && var me, attempt := c.locks.sessions[c.backing[(p, f, a)]], flight.attempts[a];
       && me.pc.Finished? && me.wallet == c.pool[flight.wallet]
       && me.ops == Tag(p, attempt.ops) && me.ok == attempt.outcome.Ok() && me.hash == attempt.outcome.hash
  }

  ghost predicate IsSubmission(c: State, p: nat, f: nat, a: nat) {
    p < |c.procs| && f < |c.procs[p].flights| && a < |c.procs[p].flights[f].attempts|
  }

  ghost predicate BackingInv(c: State) {
    && (forall p, f, a :: IsSubmission(c, p, f, a) ==> Backed(c, p, f, a))
    && (forall p, f, a :: (p, f, a) in c.backing ==> IsSubmission(c, p, f, a))
    && (forall k, l :: k in c.backing && l in c.backing && k != l ==> c.backing[k] != c.backing[l])
  }

  /** A session past the mutex of a pool wallet belongs to whoever holds that wallet in its process. */
  ghost predicate Owned(c: State, i: nat, w: nat, h: B.Holder)
    requires c.locks.Is(i)
  {
    var p := c.locks.sessions[i].process;
    && p < |c.procs| && BatcherSafety.HolderInside(c.procs[p], w, h)
    && (p, Of(h)) in c.current && c.current[(p, Of(h))] == i
  }

  ghost predicate PoolSession(c: State, i: nat)
    requires c.locks.Is(i)
  {
    c.locks.sessions[i].wallet in c.pool && c.locks.sessions[i].pc.HoldsLocal()
  }

  ghost predicate OwnedInv(c: State) {
    forall i :: 0 <= i < |c.locks.sessions| && PoolSession(c, i) ==> exists w, h :: Owned(c, i, w, h)
  }

  /** A session of an account before fn has returned belongs to the client that holds the account. */
  ghost predicate Kept(c: State, i: nat, a: string, k: nat)
    requires c.locks.Is(i)
  {
    var p := c.locks.sessions[i].process;
    && p < |c.procs| && BatcherSafety.AccountHeld(c.procs[p], a, k)
    && (p, ByClient(k)) in c.current && c.current[(p, ByClient(k))] == i
  }

  ghost predicate AccountSession(c: State, i: nat)
    requires c.locks.Is(i)
  {
    c.locks.sessions[i].kind == L.Account && Working(c.locks.sessions[i].pc)
  }

  ghost predicate KeptInv(c: State) {
    forall i :: 0 <= i < |c.locks.sessions| && AccountSession(c, i) ==> exists a, k :: Kept(c, i, a, k)
  }

  /** The operations of a session that has ended are those of a submission that has returned. */
  ghost predicate Backs(c: State, i: nat, p: nat, f: nat, a: nat) {
    (p, f, a) in c.backing && c.backing[(p, f, a)] == i
  }

  /** Pool wallets and accounts are kept apart; only flushes carry operations. */
  ghost predicate SortInv(c: State) {
    forall i :: 0 <= i < |c.locks.sessions| ==> Sorted(c, c.locks.sessions[i])
  }

  ghost predicate Sorted(c: State, me: L.Session) {
    && (me.kind == L.Account || me.wallet in c.pool ==> !me.pc.WantLocal?)
    && (me.kind == L.Account ==> me.wallet !in c.pool)
    && (me.ops != [] ==> me.wallet in c.pool && me.kind == L.Batch)
  }

  /** A session that carried operations and has ended. */
  ghost predicate HasCarried(c: State, i: nat)
    requires c.locks.Is(i)
  {
    c.locks.sessions[i].ops != [] && c.locks.sessions[i].pc.Finished?
  }

  ghost predicate CarrierInv(c: State) {
    forall i :: 0 <= i < |c.locks.sessions| && HasCarried(c, i) ==> exists p, f, a :: Backs(c, i, p, f, a)
  }

  /** What every run keeps. */
  ghost predicate Inv(c: State) {
    && ProcsInv(c) && L.Inv(c.locks) && CurrentInv(c) && HolderInv(c) && AccountInv(c)
    && BackingInv(c) && OwnedInv(c) && KeptInv(c) && SortInv(c) && CarrierInv(c)
  }

  // ---------- What a step of a batcher can change ----------

  lemma AttemptsFrame(s: B.State, b: B.Step)
    requires B.Enabled(s, b)
    ensures var t := B.Apply(s, b);
      && t.wallets == s.wallets && |s.flights| <= |t.flights|
      && (forall f :: |s.flights| <= f < |t.flights| ==> t.flights[f].attempts == [])
      && (forall f :: 0 <= f < |s.flights| ==>
            && t.flights[f].wallet == s.flights[f].wallet
            && t.flights[f].attempts == s.flights[f].attempts +
                 if b.OfFlight() && b.Returns() && b.f == f then [B.Attempt(Submitting(s.flights[f]), b.outcome)]
                 else [])
  {
  }

  /** What a holder submits does not change while it holds the wallet. */
  lemma SubmittingStays(s: B.State, b: B.Step, w: nat, h: B.Holder)
    requires B.Enabled(s, b) && BatcherSafety.HolderInside(s, w, h) && !(b.Returns() && h == b.Holder())
    ensures SubmittingBy(B.Apply(s, b), h) == SubmittingBy(s, h)
  {
  }

  lemma SubmittingBegins(s: B.State, b: B.Step)
    requires B.Enabled(s, b) && b.Takes()
    ensures SubmittingBy(B.Apply(s, b), b.Holder()) == SubmittingBy(s, b.Holder())
  {
  }

  /** A client that keeps its account past its preparations was past them, or has just finished them. */
  lemma ClientFrame(s: B.State, b: B.Step, a: string, k: nat)
    requires B.Enabled(s, b) && BatcherSafety.AccountHeld(s, a, k) && BatcherSafety.AccountHeld(B.Apply(s, b), a, k)
    ensures !B.Apply(s, b).clients[k].pc.Preparing? ==> !s.clients[k].pc.Preparing? || b == B.Prepare(k, true)
    ensures b.OfClient() && b.c == k ==> !B.Closes(s, b)
  {
  }

  // ---------- What a step can change about the sessions ----------

  /** A new session that has just taken its mutex; all others are as they were. */
  lemma BeginSession(l: L.State, start: L.Step)
    requires start.Start? && L.Enabled(L.Apply(l, start), L.LockLocal(|l.sessions|))
    ensures var m := L.Apply(L.Apply(l, start), L.LockLocal(|l.sessions|));
      && |m.sessions| == |l.sessions| + 1
      && (forall i :: 0 <= i < |l.sessions| ==> m.sessions[i] == l.sessions[i])
      && m.sessions[|l.sessions|] ==
           L.Session(start.process, start.wallet, L.KeyOf(start.wallet), start.kind, start.ops,
                     None, L.Local, None, "", false)
  {
  }

  /** What stays of a session whatever happens. */
  ghost predicate Continues(me: L.Session, now: L.Session) {
    && now.process == me.process && now.wallet == me.wallet && now.kind == me.kind && now.ops == me.ops
    && (me.pc.Finished? ==> now == me)
    && (now.pc.WantLocal? ==> me.pc.WantLocal?)
  }

  lemma ContinuesStep(l: L.State, a: L.Step)
    requires L.Enabled(l, a)
    ensures |l.sessions| <= |L.Apply(l, a).sessions|
    ensures forall i :: 0 <= i < |l.sessions| ==> Continues(l.sessions[i], L.Apply(l, a).sessions[i])
  {
    L.OnlyActorMoves(l, a);
  }

  lemma SessionsContinue(c: State, step: Step)
    requires Enabled(c, step)
    ensures |c.locks.sessions| <= |Apply(c, step).locks.sessions|
    ensures forall i :: 0 <= i < |c.locks.sessions| ==>
      Continues(c.locks.sessions[i], Apply(c, step).locks.sessions[i])
  {
    match step
    case Inner(_, _) =>
    case Enter(p, b, kind) => BeginSession(c.locks, SessionStart(c, p, b, kind));
    case Leave(p, b) => ContinuesStep(c.locks, L.Unlock(c.current[(p, OwnerOf(b))]));
    case Client(p, b) =>
      if NextLocks(c, step) != c.locks {
        ContinuesStep(c.locks, L.Return(c.current[(p, OwnerOf(b))]));
      }
    case Lock(a) => ContinuesStep(c.locks, a);
  }

  /** A new session is that of an owner who has just entered, or waits for a wallet outside the pool. */
  lemma NewSession(c: State, step: Step, i: nat)
    requires Enabled(c, step) && |c.locks.sessions| <= i < |Apply(c, step).locks.sessions|
    ensures i == |c.locks.sessions| && (step.Enter? || step.Lock?)
    ensures var me := Apply(c, step).locks.sessions[i];
      if step.Enter? then
        me == L.Session(step.p, LockOf(c, step.p, step.b), L.KeyOf(LockOf(c, step.p, step.b)), step.kind,
                        SessionStart(c, step.p, step.b, step.kind).ops, None, L.Local, None, "", false)
      else
        me.pc.WantLocal? && me.wallet !in c.pool && me.kind != L.Account && me.ops == []
  {
    SessionCount(c, step);
    if step.Enter? {
      BeginSession(c.locks, SessionStart(c, step.p, step.b, step.kind));
    }
  }

  lemma SessionCount(c: State, step: Step)
    requires Enabled(c, step)
    ensures |Apply(c, step).locks.sessions| == |c.locks.sessions| + One(step.Enter? || (step.Lock? && step.a.Start?))
  {
    match step
    case Inner(_, _) =>
    case Enter(p, b, kind) => BeginSession(c.locks, SessionStart(c, p, b, kind));
    case Leave(p, b) => L.OnlyActorMoves(c.locks, L.Unlock(c.current[(p, OwnerOf(b))]));
    case Client(p, b) =>
      if NextLocks(c, step) != c.locks {
        L.OnlyActorMoves(c.locks, L.Return(c.current[(p, OwnerOf(b))]));
      }
    case Lock(a) => L.OnlyActorMoves(c.locks, a);
  }

  /** The mutex of a pool wallet is given back by its owner only. */
  lemma PoolSessionMoves(c: State, step: Step, i: nat)
    requires Enabled(c, step) && c.locks.Is(i) && c.locks.sessions[i].wallet in c.pool
    ensures var ends := step.Leave? && c.current[(step.p, OwnerOf(step.b))] == i;
      var me, now := c.locks.sessions[i], Apply(c, step).locks.sessions[i];
      && now.pc.HoldsLocal() == (me.pc.HoldsLocal() && !ends)
      && (ends ==> now == me.(pc := L.Finished))
  {
    match step
    case Inner(_, _) =>
    case Enter(p, b, kind) => BeginSession(c.locks, SessionStart(c, p, b, kind));
    case Leave(p, b) => L.HoldersStep(c.locks, L.Unlock(c.current[(p, OwnerOf(b))]));
    case Client(p, b) =>
      if NextLocks(c, step) != c.locks {
        L.HoldersStep(c.locks, L.Return(c.current[(p, OwnerOf(b))]));
      }
    case Lock(a) => L.HoldersStep(c.locks, a);
  }

  /** The session of an account leaves fn only when its client returns. */
  lemma AccountSessionMoves(l: L.State, a: L.Step, i: nat)
    requires L.Enabled(l, a) && l.Is(i) && l.sessions[i].kind == L.Account && a != L.Return(i)
    ensures var me, now := l.sessions[i].pc, L.Apply(l, a).sessions[i].pc;
      && (me.Inside? ==> now.Inside?)
      && (Working(me) || me.Unlocking? || me.Finished? ==> Working(now) || now.Unlocking? || now.Finished?)
      && (Working(now) ==> Working(me) || me.WantLocal?)
  {
    L.OnlyActorMoves(l, a);
  }

  lemma AccountStays(c: State, step: Step, i: nat)
    requires Enabled(c, step) && c.locks.Is(i) && c.locks.sessions[i].kind == L.Account
    requires c.locks.sessions[i].wallet !in c.pool
    requires step.Client? && B.Closes(c.procs[step.p], step.b) ==> c.current[(step.p, OwnerOf(step.b))] != i
    ensures var me, now := c.locks.sessions[i].pc, Apply(c, step).locks.sessions[i].pc;
      && (me.Inside? ==> now.Inside?)
      && (Working(me) || me.Unlocking? || me.Finished? ==> Working(now) || now.Unlocking? || now.Finished?)
      && (Working(now) ==> Working(me) || me.WantLocal?)
  {
    match step
    case Inner(_, _) =>
    case Enter(p, b, kind) => BeginSession(c.locks, SessionStart(c, p, b, kind));
    case Leave(p, b) => AccountSessionMoves(c.locks, L.Unlock(c.current[(p, OwnerOf(b))]), i);
    case Client(p, b) =>
      if NextLocks(c, step) != c.locks {
        AccountSessionMoves(c.locks, L.Return(c.current[(p, OwnerOf(b))]), i);
      }
    case Lock(a) => AccountSessionMoves(c.locks, a, i);
  }

  // ---------- Every step keeps the invariant ----------

  lemma ProcsStep(c: State, step: Step)
    requires ProcsInv(c) && Enabled(c, step)
    ensures ProcsInv(Apply(c, step))
  {
    if !step.Lock? {
      BatcherSafety.InvStep(c.procs[step.p], step.b);
      BatcherSafety.FlightsFrame(c.procs[step.p], step.b);
    }
  }

  lemma LocksStep(c: State, step: Step)
    requires L.Inv(c.locks) && Enabled(c, step)
    ensures L.Inv(Apply(c, step).locks)
  {
    match step
    case Inner(_, _) =>
    case Enter(p, b, kind) =>
      var start := SessionStart(c, p, b, kind);
      L.InvStep(c.locks, start);
      L.InvStep(L.Apply(c.locks, start), L.LockLocal(|c.locks.sessions|));
    case Leave(p, b) => L.InvStep(c.locks, L.Unlock(c.current[(p, OwnerOf(b))]));
    case Client(p, b) =>
      if NextLocks(c, step) != c.locks {
        L.InvStep(c.locks, L.Return(c.current[(p, OwnerOf(b))]));
      }
    case Lock(a) => L.InvStep(c.locks, a);
  }

  lemma CurrentStep(c: State, step: Step)
    requires CurrentInv(c) && Enabled(c, step)
    ensures CurrentInv(Apply(c, step))
  {
    SessionsContinue(c, step);
    if step.Enter? {
      BeginSession(c.locks, SessionStart(c, step.p, step.b, step.kind));
    }
  }

  lemma HolderStep(c: State, step: Step, p: nat, w: nat, h: B.Holder)
    requires CurrentInv(c) && HolderInv(c) && Enabled(c, step)
    requires p < |c.procs| && BatcherSafety.HolderInside(Apply(c, step).procs[p], w, h)
    ensures HasSession(Apply(c, step), p, w, h)
  {
    if !step.Lock? && step.p == p {
      BatcherSafety.HoldersFrame(c.procs[p], step.b, w, h);
    }
    if step.Enter? && step.p == p && step.b.Takes() && h == step.b.Holder() {
      EntersInside(c, step, w);
    } else {
      assert HasSession(c, p, w, h);
      if !step.Lock? && step.p == p {
        SubmittingStays(c.procs[p], step.b, w, h);
      }
      SessionStays(c, step, p, w, h);
    }
  }

  /** Whoever takes a wallet begins a session for it. */
  lemma EntersInside(c: State, step: Step, w: nat)
    requires Enabled(c, step) && step.Enter? && step.b.Takes() && w == B.WalletOf(c.procs[step.p], step.b)
    ensures HasSession(Apply(c, step), step.p, w, step.b.Holder())
  {
    SubmittingBegins(c.procs[step.p], step.b);
    BeginSession(c.locks, SessionStart(c, step.p, step.b, step.kind));
  }

  /** The session of a holder that keeps its wallet is not ended by others. */
  lemma SessionStays(c: State, step: Step, p: nat, w: nat, h: B.Holder)
    requires CurrentInv(c) && Enabled(c, step) && p < |c.procs| && HasSession(c, p, w, h)
    requires step.Enter? || step.Leave? ==> (step.p, OwnerOf(step.b)) != (p, Of(h))
    requires SubmittingBy(Apply(c, step).procs[p], h) == SubmittingBy(c.procs[p], h)
    ensures HasSession(Apply(c, step), p, w, h)
  {
    SessionsContinue(c, step);
    PoolSessionMoves(c, step, c.current[(p, Of(h))]);
  }

  lemma AccountStep(c: State, step: Step, p: nat, a: string, k: nat)
    requires CurrentInv(c) && AccountInv(c) && SortInv(c) && Enabled(c, step)
    requires p < |c.procs| && BatcherSafety.AccountHeld(Apply(c, step).procs[p], a, k)
    ensures HasAccount(Apply(c, step), p, a, k)
  {
    if !step.Lock? && step.p == p {
      BatcherSafety.AccountFrame(c.procs[p], step.b, a, k);
    }
    if step.Enter? && step.p == p && step.b == B.TakeAccount(k) {
      EntersAccount(c, p, a, k, step.kind);
    } else {
      assert HasAccount(c, p, a, k);
      if !step.Lock? && step.p == p {
        ClientFrame(c.procs[p], step.b, a, k);
      }
      AccountRemains(c, step, p, a, k);
    }
  }

  /** Taking the mutex of an account begins its client's session. */
  lemma EntersAccount(c: State, p: nat, a: string, k: nat, kind: L.Kind)
    requires Enabled(c, Enter(p, B.TakeAccount(k), kind)) && c.procs[p].clients[k].account == Some(a)
    ensures HasAccount(Apply(c, Enter(p, B.TakeAccount(k), kind)), p, a, k)
  {
    BeginSession(c.locks, SessionStart(c, p, B.TakeAccount(k), kind));
  }

  lemma AccountRemains(c: State, step: Step, p: nat, a: string, k: nat)
    requires CurrentInv(c) && SortInv(c) && Enabled(c, step) && p < |c.procs|
    requires BatcherSafety.AccountHeld(c.procs[p], a, k) && HasAccount(c, p, a, k)
    requires BatcherSafety.AccountHeld(Apply(c, step).procs[p], a, k)
    requires !step.Lock? && step.p == p ==> step.b != B.TakeAccount(k)
    requires !step.Lock? && step.p == p && step.b.OfClient() && step.b.c == k ==> !B.Closes(c.procs[p], step.b)
    requires !Apply(c, step).procs[p].clients[k].pc.Preparing? ==>
      !c.procs[p].clients[k].pc.Preparing? || (!step.Lock? && step.p == p && step.b == B.Prepare(k, true))
    ensures HasAccount(Apply(c, step), p, a, k)
  {
    SessionsContinue(c, step);
    var i := c.current[(p, ByClient(k))];
    assert Sorted(c, c.locks.sessions[i]);
    AccountStays(c, step, i);
  }

  lemma BackingStep(c: State, step: Step)
    requires BackingInv(c) && CurrentInv(c) && HolderInv(c) && Enabled(c, step)
    ensures BackingInv(Apply(c, step))
  {
    var d := Apply(c, step);
    forall p, f, a | IsSubmission(d, p, f, a)
      ensures Backed(d, p, f, a)
    {
      if IsSubmission(c, p, f, a) {
        assert Backed(c, p, f, a);
        StaysBacked(c, step, p, f, a);
      } else {
        OnlyLeaveSubmits(c, step, p, f, a);
        NewlyBacked(c, step);
      }
    }
    forall p, f, a | (p, f, a) in d.backing
      ensures IsSubmission(d, p, f, a)
    {
      BackingIsSubmission(c, step, p, f, a);
    }
    BackingDistinct(c, step);
  }

  lemma BackingIsSubmission(c: State, step: Step, p: nat, f: nat, a: nat)
    requires BackingInv(c) && Enabled(c, step) && (p, f, a) in Apply(c, step).backing
    ensures IsSubmission(Apply(c, step), p, f, a)
  {
    if !step.Lock? && step.p == p {
      AttemptsFrame(c.procs[p], step.b);
    }
  }

  lemma BackingDistinct(c: State, step: Step)
    requires BackingInv(c) && Enabled(c, step)
    ensures var d := Apply(c, step);
      forall k, l :: k in d.backing && l in d.backing && k != l ==> d.backing[k] != d.backing[l]
  {
    if step.Leave? && step.b.OfFlight() {
      var i := c.current[(step.p, OwnerOf(step.b))];
      RunningIsNew(c, i);
      InsertInjective(c.backing, (step.p, step.b.f, |c.procs[step.p].flights[step.b.f].attempts|), i);
    }
  }

  /** A session that has not ended backs no submission yet. */
  lemma RunningIsNew(c: State, i: nat)
    requires BackingInv(c) && c.locks.Is(i) && !c.locks.sessions[i].pc.Finished?
    ensures forall k :: k in c.backing ==> c.backing[k] != i
  {
    forall k | k in c.backing
      ensures c.backing[k] != i
    {
      var (p, f, a) := k;
      assert IsSubmission(c, p, f, a) && Backed(c, p, f, a);
    }
  }

  lemma InsertInjective<K, V>(m: map<K, V>, key: K, value: V)
    requires forall k, l :: k in m && l in m && k != l ==> m[k] != m[l]
    requires forall k :: k in m ==> m[k] != value
    ensures var n := m[key := value]; forall k, l :: k in n && l in n && k != l ==> n[k] != n[l]
  {
  }

  lemma StaysBacked(c: State, step: Step, p: nat, f: nat, a: nat)
    requires Enabled(c, step) && IsSubmission(c, p, f, a) && Backed(c, p, f, a)
    ensures IsSubmission(Apply(c, step), p, f, a) && Backed(Apply(c, step), p, f, a)
  {
    SessionsContinue(c, step);
    if !step.Lock? && step.p == p {
      AttemptsFrame(c.procs[p], step.b);
    }
  }

  lemma OnlyLeaveSubmits(c: State, step: Step, p: nat, f: nat, a: nat)
    requires Enabled(c, step) && IsSubmission(Apply(c, step), p, f, a) && !IsSubmission(c, p, f, a)
    ensures step.Leave? && step.b.OfFlight() && step.p == p && step.b.f == f && f < |c.procs[p].flights|
    ensures a == |c.procs[p].flights[f].attempts|
  {
    if !step.Lock? && step.p == p {
      AttemptsFrame(c.procs[p], step.b);
    }
  }

  /** The submission that returns is backed by the session that ends with it. */
  lemma NewlyBacked(c: State, step: Step)
    requires HolderInv(c) && Enabled(c, step) && step.Leave? && step.b.OfFlight()
    ensures var a := |c.procs[step.p].flights[step.b.f].attempts|;
      IsSubmission(Apply(c, step), step.p, step.b.f, a) && Backed(Apply(c, step), step.p, step.b.f, a)
  {
    var s := c.procs[step.p];
    AttemptsFrame(s, step.b);
    BatcherSafety.HolderMoves(s, step.b);
    assert HasSession(c, step.p, B.WalletOf(s, step.b), step.b.Holder());
    PoolSessionMoves(c, step, c.current[(step.p, OwnerOf(step.b))]);
  }

  lemma OwnedStep(c: State, step: Step, i: nat)
    requires CurrentInv(c) && OwnedInv(c) && Enabled(c, step) && SortInv(Apply(c, step))
    requires Apply(c, step).locks.Is(i) && PoolSession(Apply(c, step), i)
    ensures exists w, h :: Owned(Apply(c, step), i, w, h)
  {
    if i < |c.locks.sessions| {
      SessionsContinue(c, step);
      PoolSessionMoves(c, step, i);
      assert PoolSession(c, i);
      var w, h :| Owned(c, i, w, h);
      StaysOwned(c, step, i, w, h);
    } else {
      NewSession(c, step, i);
      assert Sorted(Apply(c, step), Apply(c, step).locks.sessions[i]);
      EntersOwned(c, step);
    }
  }

  lemma EntersOwned(c: State, step: Step)
    requires Enabled(c, step) && step.Enter? && LockOf(c, step.p, step.b) in c.pool && step.kind != L.Account
    requires Apply(c, step).locks.Is(|c.locks.sessions|)
    requires Apply(c, step).locks.sessions[|c.locks.sessions|].process == step.p
    ensures exists w, h :: Owned(Apply(c, step), |c.locks.sessions|, w, h)
  {
    BatcherSafety.HoldersFrame(c.procs[step.p], step.b, B.WalletOf(c.procs[step.p], step.b), step.b.Holder());
    assert Owned(Apply(c, step), |c.locks.sessions|, B.WalletOf(c.procs[step.p], step.b), step.b.Holder());
  }

  lemma StaysOwned(c: State, step: Step, i: nat, w: nat, h: B.Holder)
    requires CurrentInv(c) && Enabled(c, step) && c.locks.Is(i) && Owned(c, i, w, h)
    requires step.Leave? ==> i != c.current[(step.p, OwnerOf(step.b))]
    requires var l := Apply(c, step).locks; l.Is(i) && l.sessions[i].process == c.locks.sessions[i].process
    ensures Owned(Apply(c, step), i, w, h)
  {
    var p := c.locks.sessions[i].process;
    if !step.Lock? && step.p == p {
      if step.Enter? && step.b.Takes() {
        BatcherSafety.HolderMoves(c.procs[p], step.b);
      }
      BatcherSafety.HoldersFrame(c.procs[p], step.b, w, h);
    }
  }

  lemma KeptStep(c: State, step: Step, i: nat)
    requires CurrentInv(c) && KeptInv(c) && SortInv(c) && Enabled(c, step)
    requires Apply(c, step).locks.Is(i) && AccountSession(Apply(c, step), i)
    ensures exists a, k :: Kept(Apply(c, step), i, a, k)
  {
    var d := Apply(c, step);
    if i < |c.locks.sessions| {
      SessionsContinue(c, step);
      assert Sorted(c, c.locks.sessions[i]);
      ClosedIsNotWorking(c, step, i);
      AccountStays(c, step, i);
      assert AccountSession(c, i);
      var a, k :| Kept(c, i, a, k);
      StaysKept(c, step, i, a, k);
    } else {
      NewSession(c, step, i);
      EntersKept(c, step);
    }
  }

  /** When its client has returned, a session of an account is past fn. */
  lemma ClosedIsNotWorking(c: State, step: Step, i: nat)
    requires Enabled(c, step) && c.locks.Is(i) && AccountSession(Apply(c, step), i)
    ensures step.Client? && B.Closes(c.procs[step.p], step.b) ==> c.current[(step.p, OwnerOf(step.b))] != i
  {
    if step.Client? && NextLocks(c, step) != c.locks {
      L.OnlyActorMoves(c.locks, L.Return(c.current[(step.p, OwnerOf(step.b))]));
    }
  }

  lemma EntersKept(c: State, step: Step)
    requires Enabled(c, step) && step.Enter? && step.kind == L.Account
    requires Apply(c, step).locks.Is(|c.locks.sessions|)
    requires Apply(c, step).locks.sessions[|c.locks.sessions|].process == step.p
    ensures exists a, k :: Kept(Apply(c, step), |c.locks.sessions|, a, k)
  {
    var s := c.procs[step.p];
    BatcherSafety.AccountFrame(s, step.b, s.clients[step.b.c].account.value, step.b.c);
    assert Kept(Apply(c, step), |c.locks.sessions|, s.clients[step.b.c].account.value, step.b.c);
  }

  lemma StaysKept(c: State, step: Step, i: nat, a: string, k: nat)
    requires CurrentInv(c) && Enabled(c, step) && c.locks.Is(i) && Kept(c, i, a, k)
    requires step.Client? && B.Closes(c.procs[step.p], step.b) ==> c.current[(step.p, OwnerOf(step.b))] != i
    requires var l := Apply(c, step).locks; l.Is(i) && l.sessions[i].process == c.locks.sessions[i].process
    ensures Kept(Apply(c, step), i, a, k)
  {
    var p := c.locks.sessions[i].process;
    if !step.Lock? && step.p == p {
      BatcherSafety.AccountFrame(c.procs[p], step.b, a, k);
      HoldingClient(c, step, a, k);
    }
  }

  /** A client that holds its account neither takes it again nor returns outside its session. */
  lemma HoldingClient(c: State, step: Step, a: string, k: nat)
    requires Enabled(c, step) && !step.Lock? && BatcherSafety.AccountHeld(c.procs[step.p], a, k)
    ensures step.b != B.TakeAccount(k)
    ensures B.Closes(c.procs[step.p], step.b) && step.b.c == k ==> step.Client?
  {
  }

  lemma SortStep(c: State, step: Step)
    requires ProcsInv(c) && SortInv(c) && Enabled(c, step)
    ensures SortInv(Apply(c, step))
  {
    SessionsContinue(c, step);
    var d := Apply(c, step);
    forall i | 0 <= i < |d.locks.sessions|
      ensures Sorted(d, d.locks.sessions[i])
    {
      if i < |c.locks.sessions| {
        assert Sorted(c, c.locks.sessions[i]);
      } else {
        NewSession(c, step, i);
        if step.Enter? && step.b.TakeAccount? {
          AccountNotInPool(c.pool, c.chain, c.procs[step.p].clients[step.b.c].account.value);
        }
      }
    }
  }

  /** No wallet of the pool is locked by locking an account. */
  lemma AccountNotInPool(pool: seq<L.Wallet>, chain: LockKeys.ChainId, a: string)
    requires ProperPool(pool)
    ensures AccountLock(chain, a) !in pool
  {
    var w := AccountLock(chain, a);
    LockKeys.AccountKeyIsWalletKey(chain, a);
    LockKeys.NamespacesDisjoint(chain, a, w.chain, w.address);
  }

  lemma CarrierStep(c: State, step: Step, i: nat)
    requires HolderInv(c) && BackingInv(c) && SortInv(c) && CarrierInv(c) && Enabled(c, step)
    requires Apply(c, step).locks.Is(i) && HasCarried(Apply(c, step), i)
    ensures exists p, f, a :: Backs(Apply(c, step), i, p, f, a)
  {
    SessionsContinue(c, step);
    FinishedIsOld(c, step, i);
    if HasCarried(c, i) {
      var p, f, a :| Backs(c, i, p, f, a);
      StaysBacking(c, step, i, p, f, a);
    } else {
      assert Sorted(c, c.locks.sessions[i]);
      PoolSessionMoves(c, step, i);
      EndsBacked(c, step);
      assert Backs(Apply(c, step), i, step.p, step.b.f, |c.procs[step.p].flights[step.b.f].attempts|);
    }
  }

  lemma FinishedIsOld(c: State, step: Step, i: nat)
    requires Enabled(c, step) && Apply(c, step).locks.Is(i) && Apply(c, step).locks.sessions[i].pc.Finished?
    ensures i < |c.locks.sessions|
  {
    if i >= |c.locks.sessions| {
      NewSession(c, step, i);
    }
  }

  lemma StaysBacking(c: State, step: Step, i: nat, p: nat, f: nat, a: nat)
    requires BackingInv(c) && Enabled(c, step) && Backs(c, i, p, f, a)
    ensures Backs(Apply(c, step), i, p, f, a)
  {
    assert IsSubmission(c, p, f, a);
  }

  /** A session with operations is that of a flush. */
  lemma EndsBacked(c: State, step: Step)
    requires HolderInv(c) && Enabled(c, step) && step.Leave?
    requires c.locks.sessions[c.current[(step.p, OwnerOf(step.b))]].ops != []
    ensures step.b.OfFlight()
  {
    var s := c.procs[step.p];
    BatcherSafety.HolderMoves(s, step.b);
    assert HasSession(c, step.p, B.WalletOf(s, step.b), step.b.Holder());
  }

  lemma InvStep(c: State, step: Step)
    requires Inv(c) && Enabled(c, step)
    ensures Inv(Apply(c, step))
  {
    ProcsStep(c, step);
    LocksStep(c, step);
    CurrentStep(c, step);
    BackingStep(c, step);
    SortStep(c, step);
    OwnersStep(c, step);
    SessionsStep(c, step);
  }

  lemma OwnersStep(c: State, step: Step)
    requires CurrentInv(c) && HolderInv(c) && AccountInv(c) && SortInv(c) && Enabled(c, step)
    ensures HolderInv(Apply(c, step)) && AccountInv(Apply(c, step))
  {
    var d := Apply(c, step);
    forall p, w, h | 0 <= p < |d.procs| && BatcherSafety.HolderInside(d.procs[p], w, h)
      ensures HasSession(d, p, w, h)
    {
      HolderStep(c, step, p, w, h);
    }
    forall p, a, k | 0 <= p < |d.procs| && BatcherSafety.AccountHeld(d.procs[p], a, k)
      ensures HasAccount(d, p, a, k)
    {
      AccountStep(c, step, p, a, k);
    }
  }

  lemma SessionsStep(c: State, step: Step)
    requires CurrentInv(c) && HolderInv(c) && BackingInv(c) && OwnedInv(c) && KeptInv(c) && SortInv(c) && CarrierInv(c)
    requires Enabled(c, step) && SortInv(Apply(c, step))
    ensures OwnedInv(Apply(c, step)) && KeptInv(Apply(c, step)) && CarrierInv(Apply(c, step))
  {
    var d := Apply(c, step);
    forall i | 0 <= i < |d.locks.sessions| && PoolSession(d, i)
      ensures exists w, h :: Owned(d, i, w, h)
    {
      OwnedStep(c, step, i);
    }
    forall i | 0 <= i < |d.locks.sessions| && AccountSession(d, i)
      ensures exists a, k :: Kept(d, i, a, k)
    {
      KeptStep(c, step, i);
    }
    forall i | 0 <= i < |d.locks.sessions| && HasCarried(d, i)
      ensures exists p, f, a :: Backs(d, i, p, f, a)
    {
      CarrierStep(c, step, i);
    }
  }

  lemma InitInv(g: Setup)
    requires ProperPool(g.pool)
    ensures Inv(Init(g))
  {
    InitLocks(g.distributed, g.base);
    InitProcs(g);
    InitOwners(g);
  }

  lemma InitLocks(distributed: bool, base: map<L.Wallet, nat>)
    ensures L.Inv(L.Init(distributed, base))
  {
    assert forall w :: L.Init(distributed, base).Accepted(w) == [];
  }

  lemma InitProcs(g: Setup)
    requires ProperPool(g.pool)
    ensures ProcsInv(Init(g))
  {
    BatcherSafety.InitInv(|g.pool|);
  }

  lemma InitOwners(g: Setup)
    ensures var c := Init(g);
      && CurrentInv(c) && HolderInv(c) && AccountInv(c) && BackingInv(c)
      && OwnedInv(c) && KeptInv(c) && SortInv(c) && CarrierInv(c)
  {
    var c := Init(g);
    forall p, w, h | 0 <= p < |c.procs|
      ensures !BatcherSafety.HolderInside(c.procs[p], w, h)
    {
    }
    forall p, a, k: nat | 0 <= p < |c.procs|
      ensures !BatcherSafety.AccountHeld(c.procs[p], a, k)
    {
    }
    assert forall p, f, a :: !IsSubmission(c, p, f, a);
  }

  lemma {:induction false} InvRun(c: State, steps: seq<Step>)
    requires Inv(c) && Valid(c, steps)
    ensures Inv(Exec(c, steps))
    decreases |steps|
  {
    if steps == [] {
    } else {
      InvStep(c, steps[0]);
      InvRun(Apply(c, steps[0]), steps[1..]);
    }
  }

  /** What every run of the deployment keeps, and what never changes. */
  lemma Reachable(g: Setup, steps: seq<Step>)
    requires ProperPool(g.pool) && Valid(Init(g), steps)
    ensures Inv(Exec(Init(g), steps))
    ensures Exec(Init(g), steps).pool == g.pool && Exec(Init(g), steps).locks.base == g.base
    ensures Exec(Init(g), steps).chain == g.chain && Exec(Init(g), steps).locks.distributed == g.distributed
    ensures |Exec(Init(g), steps).procs| == g.processes
  {
    InitInv(g);
    InvRun(Init(g), steps);
    ConfigKept(Init(g), steps);
  }

  lemma {:induction false} ConfigKept(c: State, steps: seq<Step>)
    requires Valid(c, steps)
    ensures Exec(c, steps).pool == c.pool && Exec(c, steps).locks.base == c.locks.base
    ensures Exec(c, steps).chain == c.chain && Exec(c, steps).locks.distributed == c.locks.distributed
    ensures |Exec(c, steps).procs| == |c.procs|
    decreases |steps|
  {
    if steps == [] {
    } else {
      ConfigKept(Apply(c, steps[0]), steps[1..]);
    }
  }

  // ---------- Trusted runs ----------

  lemma GoodStep(c: State, step: Step)
    requires L.Good(c.locks) && Enabled(c, step) && Trusted(c, step)
    ensures L.Good(Apply(c, step).locks)
  {
    match step
    case Inner(_, _) =>
    case Enter(p, b, kind) =>
      var start := SessionStart(c, p, b, kind);
      L.GoodStep(c.locks, start);
      L.GoodStep(L.Apply(c.locks, start), L.LockLocal(|c.locks.sessions|));
    case Leave(p, b) => L.GoodStep(c.locks, L.Unlock(c.current[(p, OwnerOf(b))]));
    case Client(p, b) =>
      if NextLocks(c, step) != c.locks {
        L.GoodStep(c.locks, L.Return(c.current[(p, OwnerOf(b))]));
      }
    case Lock(a) => L.GoodStep(c.locks, a);
  }

  lemma {:induction false} GoodRun(c: State, steps: seq<Step>)
    requires L.Good(c.locks) && Valid(c, steps) && TrustedRun(c, steps)
    ensures L.Good(Exec(c, steps).locks)
    decreases |steps|
  {
    if steps == [] {
    } else {
      GoodStep(c, steps[0]);
      GoodRun(Apply(c, steps[0]), steps[1..]);
    }
  }

  lemma ReachableTrusted(g: Setup, steps: seq<Step>)
    requires ProperPool(g.pool) && Valid(Init(g), steps) && TrustedRun(Init(g), steps)
    ensures Inv(Exec(Init(g), steps)) && L.Good(Exec(Init(g), steps).locks)
    ensures Exec(Init(g), steps).pool == g.pool && Exec(Init(g), steps).locks.base == g.base
    ensures Exec(Init(g), steps).chain == g.chain
  {
    Reachable(g, steps);
    GoodRun(Init(g), steps);
  }
}
