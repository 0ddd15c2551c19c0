/**
 * Serialisation of accounts across processes (internal/transfer/send.go): what two unresolved operations of an
 * account mean, what a step can change about that, and a run in which expiry leads to them.
 */
module ClusterAccounts {
  import opened Common
  import opened Cluster
  import opened ClusterSafety
  import B = Batcher
  import BatcherSafety
  import BatcherTheorems
  import ClusterProgress
  import L = NonceLock
  import Runs

  function Key(c: State, account: string): string { L.KeyOf(AccountLock(c.chain, account)) }

  /** An unresolved operation of the account. */
  ghost predicate Open(c: State, account: string, p: nat, q: nat) {
    p < |c.procs| && BatcherTheorems.OpenOp(c.procs[p], account, q)
  }

  /** An unresolved operation of the account whose client no longer waits for it. */
  ghost predicate Abandoned(c: State, account: string, p: nat, q: nat) {
    p < |c.procs| && BatcherTheorems.AbandonedOp(c.procs[p], account, q)
  }

  ghost predicate Holds(c: State, account: string, p: nat, q: nat) {
    p < |c.procs| && BatcherSafety.AccountHeld(c.procs[p], account, q)
  }

  /** The client is inside its account lock in its own eyes, but its entry expired. */
  ghost predicate Lapsed(c: State, p: nat, q: nat) {
    (p, ByClient(q)) in c.current && c.locks.Is(c.current[(p, ByClient(q))]) &&
    c.locks.Lapsed(c.current[(p, ByClient(q))])
  }

  /** A client with the account and without an answer whose entry expired. */
  ghost predicate Exposed(c: State, account: string, p: nat, q: nat) {
    Holds(c, account, p, q) && c.procs[p].clients[q].answers == [] && Lapsed(c, p, q)
  }

  /** At most one unresolved operation of the account in all processes together. */
  ghost predicate Serial(c: State, account: string) {
    forall p, q, r, t :: Open(c, account, p, q) && Open(c, account, r, t) ==> (p, q) == (r, t)
  }

  // ---------- Two unresolved operations ----------

  /**
   * In every run, whatever expires: of two unresolved operations of an account one was abandoned by
   * cancellation, or they are in different processes and the lock session of one of them has lapsed (or
   * there is no Redis at all).
   */
  lemma OneLiveOpAnywhere(g: Setup, steps: seq<Step>, account: string, p: nat, q: nat, r: nat, t: nat)
    requires ProperPool(g.pool) && Valid(Init(g), steps) && (p, q) != (r, t)
    requires Open(Exec(Init(g), steps), account, p, q) && Open(Exec(Init(g), steps), account, r, t)
    ensures var c := Exec(Init(g), steps);
      || Abandoned(c, account, p, q) || Abandoned(c, account, r, t)
      || (p != r && (g.distributed ==> Lapsed(c, p, q) || Lapsed(c, r, t)))
  {
    Reachable(g, steps);
    TwoOpen(Exec(Init(g), steps), account, p, q, r, t);
  }

  lemma TwoOpen(c: State, account: string, p: nat, q: nat, r: nat, t: nat)
    requires Inv(c) && Open(c, account, p, q) && Open(c, account, r, t) && (p, q) != (r, t)
    ensures || Abandoned(c, account, p, q) || Abandoned(c, account, r, t)
            || (p != r && (c.locks.distributed ==> Lapsed(c, p, q) || Lapsed(c, r, t)))
  {
    if !Abandoned(c, account, p, q) && !Abandoned(c, account, r, t) {
      LiveIsInside(c, account, p, q);
      LiveIsInside(c, account, r, t);
      TwoHolders(c, account, p, q, r, t);
    }
  }

  /** The lock session of the client has got inside. */
  ghost predicate IsInside(c: State, p: nat, q: nat) {
    (p, ByClient(q)) in c.current && c.locks.Is(c.current[(p, ByClient(q))]) &&
    c.locks.sessions[c.current[(p, ByClient(q))]].pc.Inside?
  }

  lemma PreparedIsInside(c: State, account: string, p: nat, q: nat)
    requires AccountInv(c) && Holds(c, account, p, q) && !c.procs[p].clients[q].pc.Preparing?
    ensures IsInside(c, p, q)
  {
    assert HasAccount(c, p, account, q);
  }

  /** The client of an unresolved operation that was not abandoned is inside its account lock. */
  lemma LiveIsInside(c: State, account: string, p: nat, q: nat)
    requires ProcsInv(c) && AccountInv(c) && Open(c, account, p, q) && !Abandoned(c, account, p, q)
    ensures Holds(c, account, p, q) && IsInside(c, p, q)
  {
    assert BatcherSafety.ClientInv(c.procs[p]);
    BatcherTheorems.LiveOp(c.procs[p], account, q);
    PreparedIsInside(c, account, p, q);
  }

  /** Two clients are inside one account lock only in different processes, and not both with a lease. */
  lemma TwoHolders(c: State, account: string, p: nat, q: nat, r: nat, t: nat)
    requires ProcsInv(c) && AccountInv(c) && CurrentInv(c) && L.Inv(c.locks) && (p, q) != (r, t)
    requires Holds(c, account, p, q) && IsInside(c, p, q) && Holds(c, account, r, t) && IsInside(c, r, t)
    ensures p != r && (c.locks.distributed ==> Lapsed(c, p, q) || Lapsed(c, r, t))
  {
    assert HasAccount(c, p, account, q) && HasAccount(c, r, account, t);
    var i, j := c.current[(p, ByClient(q))], c.current[(r, ByClient(t))];
    assert (p, ByClient(q)) != (r, ByClient(t));
    L.SameKeySameWallet(c.locks, i, j);
    TwoInside(c.locks, i, j);
  }

  lemma TwoInside(l: L.State, i: nat, j: nat)
    requires L.MutexInv(l) && L.TokenDistinct(l) && l.Is(i) && l.Is(j) && i != j
    requires l.sessions[i].pc.Inside? && l.sessions[j].pc.Inside? && l.sessions[i].key == l.sessions[j].key
    ensures l.sessions[i].process != l.sessions[j].process && (l.Lapsed(i) || l.Lapsed(j))
  {
    assert if i < j then l.sessions[i].token.None? || l.sessions[i].token != l.sessions[j].token
           else l.sessions[j].token.None? || l.sessions[j].token != l.sessions[i].token;
  }

  // ---------- What keeps an account serial ----------

  /** No owner of this key loses its entry; entries of other keys may expire at any time. */
  ghost predicate Spares(c: State, step: Step, key: string) {
    step == Lock(L.Expire(key)) ==> L.Unowned(c.locks, key)
  }

  ghost predicate SparingRun(c: State, steps: seq<Step>, key: string)
    requires Valid(c, steps)
    decreases |steps|
  {
    steps == [] || (Spares(c, steps[0], key) && SparingRun(Apply(c, steps[0]), steps[1..], key))
  }

  ghost predicate NoneAbandoned(c: State, account: string) { forall p, q :: !Abandoned(c, account, p, q) }

  ghost predicate NoneExposed(c: State, account: string) { forall p, q :: !Exposed(c, account, p, q) }

  lemma OpenIsExposed(c: State, account: string, p: nat, q: nat)
    requires ProcsInv(c) && Open(c, account, p, q) && !Abandoned(c, account, p, q)
    ensures Holds(c, account, p, q) && (Lapsed(c, p, q) ==> Exposed(c, account, p, q))
  {
    BatcherTheorems.LiveOp(c.procs[p], account, q);
  }

  lemma NoneAbandonedStep(c: State, step: Step, account: string, p: nat, q: nat)
    requires ProcsInv(c) && Enabled(c, step) && (!step.Lock? ==> !step.b.Cancel?)
    requires !Abandoned(c, account, p, q)
    ensures !Abandoned(Apply(c, step), account, p, q)
  {
    if !step.Lock? && step.p == p {
      BatcherTheorems.OnlyGivingUpAbandons(c.procs[p], step.b, account, q);
    }
  }

  /** Only expiry takes the entry of an owner. */
  lemma LeaseStep(c: State, step: Step, i: nat)
    requires L.Inv(c.locks) && c.locks.distributed && Enabled(c, step) && c.locks.Is(i) && !c.locks.Lapsed(i)
    requires step != Lock(L.Expire(c.locks.sessions[i].key))
    ensures Apply(c, step).locks.Is(i) && !Apply(c, step).locks.Lapsed(i)
  {
    SessionsContinue(c, step);
    match step
    case Inner(_, _) =>
    case Enter(p, b, kind) => BeginSession(c.locks, SessionStart(c, p, b, kind));
    case Leave(p, b) => StaysLeased(c.locks, L.Unlock(c.current[(p, OwnerOf(b))]), i);
    case Client(p, b) =>
      if NextLocks(c, step) != c.locks {
        StaysLeased(c.locks, L.Return(c.current[(p, OwnerOf(b))]), i);
      }
    case Lock(a) => StaysLeased(c.locks, a, i);
  }

  lemma StaysLeased(l: L.State, a: L.Step, i: nat)
    requires L.Inv(l) && l.distributed && L.Enabled(l, a) && l.Is(i) && !l.Lapsed(i)
    requires a != L.Expire(l.sessions[i].key)
    ensures L.Apply(l, a).Is(i) && !L.Apply(l, a).Lapsed(i)
  {
    L.OnlyActorMoves(l, a);
    if L.Apply(l, a).sessions[i].pc.Owns() {
      L.KeepsLease(l, a, i);
    }
  }

  lemma NoneExposedStep(c: State, step: Step, account: string, p: nat, q: nat)
    requires AccountInv(c) && L.Inv(c.locks) && c.locks.distributed && Enabled(c, step)
    requires Spares(c, step, Key(c, account)) && !Exposed(c, account, p, q)
    ensures !Exposed(Apply(c, step), account, p, q)
  {
    if Holds(c, account, p, q) {
      AnswersStep(c, step, p, q);
      NotTakenAgain(c, step, account, p, q);
      if !Lapsed(c, p, q) {
        HolderKeepsLease(c, step, account, p, q);
      }
    } else if Holds(Apply(c, step), account, p, q) {
      JustEntered(c, step, account, p, q);
    }
  }

  lemma NotTakenAgain(c: State, step: Step, account: string, p: nat, q: nat)
    requires Holds(c, account, p, q) && Enabled(c, step)
    ensures !(step.Enter? && step.p == p && step.b == B.TakeAccount(q))
  {
  }

  /** Whoever has just taken the mutex of its account owns nothing yet. */
  lemma JustEntered(c: State, step: Step, account: string, p: nat, q: nat)
    requires Enabled(c, step) && !Holds(c, account, p, q) && Holds(Apply(c, step), account, p, q)
    ensures !Lapsed(Apply(c, step), p, q)
  {
    JustTook(c, step, account, p, q);
    BeginSession(c.locks, SessionStart(c, p, step.b, step.kind));
  }

  lemma JustTook(c: State, step: Step, account: string, p: nat, q: nat)
    requires Enabled(c, step) && !Holds(c, account, p, q) && Holds(Apply(c, step), account, p, q)
    ensures step.Enter? && step.p == p && step.b == B.TakeAccount(q)
  {
    BatcherSafety.AccountFrame(c.procs[p], step.b, account, q);
  }

  /** Answers are never taken back. */
  lemma AnswersStep(c: State, step: Step, p: nat, q: nat)
    requires Enabled(c, step) && p < |c.procs| && q < |c.procs[p].clients|
    ensures q < |Apply(c, step).procs[p].clients|
    ensures c.procs[p].clients[q].answers <= Apply(c, step).procs[p].clients[q].answers
    ensures Apply(c, step).procs[p].clients[q].account == c.procs[p].clients[q].account
  {
    if !step.Lock? && step.p == p {
      BatcherSafety.ClientsFrame(c.procs[p], step.b);
    }
  }

  lemma HolderKeepsLease(c: State, step: Step, account: string, p: nat, q: nat)
    requires AccountInv(c) && L.Inv(c.locks) && c.locks.distributed && Enabled(c, step)
    requires Spares(c, step, Key(c, account)) && Holds(c, account, p, q) && !Lapsed(c, p, q)
    requires !(step.Enter? && step.p == p && step.b == B.TakeAccount(q))
    ensures !Lapsed(Apply(c, step), p, q)
  {
    assert HasAccount(c, p, account, q);
    var i := c.current[(p, ByClient(q))];
    if step == Lock(L.Expire(Key(c, account))) {
      assert !c.locks.sessions[i].pc.Owns();
    } else {
      LeaseStep(c, step, i);
    }
  }

  // ---------- A new client goes all the way to the channel ----------

  /** In d, process r has got more clients and operations than in c; the other processes are as they were. */
  ghost predicate Adds(c: State, d: State, r: nat) {
    && d.chain == c.chain && d.locks.distributed == c.locks.distributed
    && |d.procs| == |c.procs| && r < |c.procs| && |c.procs[r].clients| < |d.procs[r].clients|
    && (forall s :: 0 <= s < |c.procs| && s != r ==> d.procs[s] == c.procs[s])
    && (forall t :: 0 <= t < |c.procs[r].clients| ==> d.procs[r].clients[t] == c.procs[r].clients[t])
    && (forall t :: t in c.procs[r].accepted ==> t in d.procs[r].accepted)
  }

  /** Client n of process r and its lock session i have got this far. */
  ghost predicate At(c: State, account: string, r: nat, n: nat, i: nat, pc: B.ClientPc, lock: L.Pc) {
    && r < |c.procs| && n < |c.procs[r].clients|
    && c.procs[r].clients[n] == B.Client(Some(account), pc, [], [])
    && (r, ByClient(n)) in c.current && c.current[(r, ByClient(n))] == i && c.locks.Is(i)
    && c.locks.sessions[i].key == Key(c, account) && c.locks.sessions[i].pc == lock
  }

  /** A new client of process r can take the account at once. */
  ghost predicate Clear(c: State, account: string, r: nat)
    requires r < |c.procs|
  {
    && Key(c, account) !in c.locks.entries && (r, Key(c, account)) !in c.locks.mutexes
    && account !in c.procs[r].accountLocks
  }

  lemma Arrives(c: State, account: string, r: nat)
    requires r < |c.procs| && Clear(c, account, r)
    ensures var step := Inner(r, B.Arrive(Some(account)));
      && Enabled(c, step)
      && var d, n := Apply(c, step), |c.procs[r].clients|;
      && Adds(c, d, r) && d.procs[r].channel == c.procs[r].channel && d.locks == c.locks && Clear(d, account, r)
      && |d.procs[r].clients| == n + 1
      && d.procs[r].clients[n] == B.Client(Some(account), B.WantAccount, [], [])
  {
  }

  lemma TakesMutex(c: State, account: string, r: nat, n: nat)
    requires r < |c.procs| && Clear(c, account, r) && n < |c.procs[r].clients|
    requires c.procs[r].clients[n] == B.Client(Some(account), B.WantAccount, [], [])
    ensures var step := Enter(r, B.TakeAccount(n), L.Account);
      && Enabled(c, step)
      && var d := Apply(c, step);
      && Keeps(c, d, r, n) && d.procs[r].channel == c.procs[r].channel && d.locks.entries == c.locks.entries
      && d.locks.accepted == c.locks.accepted
      && d.locks.mutexes == c.locks.mutexes[(r, Key(c, account)) := |c.locks.sessions|]
      && At(d, account, r, n, |c.locks.sessions|, B.Preparing, L.Local)
  {
    ClusterProgress.MutexFree(c.locks, SessionStart(c, r, B.TakeAccount(n), L.Account));
    BeginSession(c.locks, SessionStart(c, r, B.TakeAccount(n), L.Account));
  }

  /** Only client n of process r has moved on. */
  ghost predicate Keeps(c: State, d: State, r: nat, n: nat) {
    && d.chain == c.chain && d.locks.distributed == c.locks.distributed
    && |d.procs| == |c.procs| && r < |c.procs| && |d.procs[r].clients| == |c.procs[r].clients|
    && (forall s :: 0 <= s < |c.procs| && s != r ==> d.procs[s] == c.procs[s])
    && (forall t :: 0 <= t < |c.procs[r].clients| && t != n ==> d.procs[r].clients[t] == c.procs[r].clients[t])
    && (forall t :: t in c.procs[r].accepted ==> t in d.procs[r].accepted)
  }

  lemma DrawsToken(c: State, account: string, r: nat, n: nat, i: nat, token: L.Token)
    requires c.locks.distributed && At(c, account, r, n, i, B.Preparing, L.Local) && L.Unused(c.locks, Some(token))
    ensures var step := Lock(L.Draw(i, Some(token)));
      && Enabled(c, step)
      && var d := Apply(c, step);
      && Keeps(c, d, r, n) && d.procs == c.procs && d.locks.entries == c.locks.entries
      && d.locks.mutexes == c.locks.mutexes
      && At(d, account, r, n, i, B.Preparing, L.Trying(0)) && d.locks.sessions[i].token == Some(token)
  {
  }

  lemma GetsEntry(c: State, account: string, r: nat, n: nat, i: nat)
    requires At(c, account, r, n, i, B.Preparing, L.Trying(0)) && c.locks.sessions[i].token.Some?
    requires Key(c, account) !in c.locks.entries
    ensures var step := Lock(L.SetNX(i));
      && Enabled(c, step)
      && var d := Apply(c, step);
      && Keeps(c, d, r, n) && d.procs == c.procs && d.locks.mutexes == c.locks.mutexes
      && d.locks.entries.Keys == c.locks.entries.Keys + {Key(c, account)}
      && At(d, account, r, n, i, B.Preparing, L.Inside)
  {
  }

  lemma FinishesPreparing(c: State, account: string, r: nat, n: nat, i: nat)
    requires At(c, account, r, n, i, B.Preparing, L.Inside)
    ensures var step := Client(r, B.Prepare(n, true));
      && Enabled(c, step)
      && var d := Apply(c, step);
      && Keeps(c, d, r, n) && d.locks == c.locks && d.current == c.current
      && d.procs[r].channel == c.procs[r].channel && At(d, account, r, n, i, B.Offering, L.Inside)
  {
  }

  lemma GetsIn(c: State, account: string, r: nat, n: nat, i: nat)
    requires At(c, account, r, n, i, B.Offering, L.Inside) && |c.procs[r].channel| < B.CHANNEL_CAP
    ensures var step := Inner(r, B.Offer(n));
      && Enabled(c, step)
      && var d := Apply(c, step);
      && Keeps(c, d, r, n) && d.locks == c.locks && d.current == c.current
      && Open(d, account, r, n) && Holds(d, account, r, n)
  {
    assert Apply(c, Inner(r, B.Offer(n))).procs[r].accepted == c.procs[r].accepted + [n];
  }

  lemma Enters(c: State, account: string, r: nat) returns (steps: seq<Step>)
    requires r < |c.procs| && Clear(c, account, r)
    ensures PlainRun(c, steps)
    ensures var d := Exec(c, steps);
      && Adds(c, d, r) && d.procs[r].channel == c.procs[r].channel && d.locks.entries == c.locks.entries
      && |d.procs[r].clients| == |c.procs[r].clients| + 1 && d.locks.accepted == c.locks.accepted
      && d.locks.mutexes.Keys == c.locks.mutexes.Keys + {(r, Key(c, account))}
      && At(d, account, r, |c.procs[r].clients|, |c.locks.sessions|, B.Preparing, L.Local)
  {
    var n := |c.procs[r].clients|;
    Arrives(c, account, r);
    TakesMutex(Apply(c, Inner(r, B.Arrive(Some(account)))), account, r, n);
    steps := PlainTwo(c, Inner(r, B.Arrive(Some(account))), Enter(r, B.TakeAccount(n), L.Account));
  }

  lemma GetsLock(c: State, account: string, r: nat, n: nat, i: nat) returns (steps: seq<Step>)
    requires c.locks.distributed && At(c, account, r, n, i, B.Preparing, L.Local)
    requires Key(c, account) !in c.locks.entries
    ensures PlainRun(c, steps)
    ensures var d := Exec(c, steps);
      && Keeps(c, d, r, n) && d.procs == c.procs && d.locks.mutexes == c.locks.mutexes
      && d.locks.entries.Keys == c.locks.entries.Keys + {Key(c, account)}
      && At(d, account, r, n, i, B.Preparing, L.Inside)
  {
    var token := L.FreshToken(c.locks.sessions);
    DrawsToken(c, account, r, n, i, token);
    GetsEntry(Apply(c, Lock(L.Draw(i, Some(token)))), account, r, n, i);
    steps := PlainTwo(c, Lock(L.Draw(i, Some(token))), Lock(L.SetNX(i)));
  }

  lemma Offers(c: State, account: string, r: nat, n: nat, i: nat) returns (steps: seq<Step>)
    requires At(c, account, r, n, i, B.Preparing, L.Inside) && |c.procs[r].channel| < B.CHANNEL_CAP
    ensures PlainRun(c, steps)
    ensures var d := Exec(c, steps);
      && Keeps(c, d, r, n) && d.locks == c.locks && d.current == c.current
      && Open(d, account, r, n) && Holds(d, account, r, n)
  {
    FinishesPreparing(c, account, r, n, i);
    GetsIn(Apply(c, Client(r, B.Prepare(n, true))), account, r, n, i);
    steps := PlainTwo(c, Client(r, B.Prepare(n, true)), Inner(r, B.Offer(n)));
  }

  /** A new client of a free account gets as far as the channel. */
  lemma OpenAt(c: State, account: string, r: nat) returns (steps: seq<Step>)
    requires c.locks.distributed && r < |c.procs| && Clear(c, account, r) && |c.procs[r].channel| < B.CHANNEL_CAP
    ensures PlainRun(c, steps)
    ensures var d := Exec(c, steps);
      && Adds(c, d, r) && Open(d, account, r, |c.procs[r].clients|)
      && d.locks.mutexes.Keys == c.locks.mutexes.Keys + {(r, Key(c, account))}
      && d.locks.entries.Keys == c.locks.entries.Keys + {Key(c, account)}
  {
    var n, i := |c.procs[r].clients|, |c.locks.sessions|;
    steps := Enters(c, account, r);
    var more := GetsLock(Exec(c, steps), account, r, n, i);
    steps := PlainJoin(c, steps, more);
    more := Offers(Exec(c, steps), account, r, n, i);
    steps := PlainJoin(c, steps, more);
  }

  lemma {:induction false} PlainSpares(c: State, steps: seq<Step>, key: string)
    requires PlainRun(c, steps)
    ensures NoCancel(steps) && SparingRun(c, steps, key)
    decreases |steps|
  {
    if steps == [] {
    } else {
      PlainSpares(Apply(c, steps[0]), steps[1..], key);
    }
  }

  /** The operations that were unresolved still are. */
  lemma OpenStays(c: State, d: State, r: nat, account: string, p: nat, q: nat)
    requires Adds(c, d, r) && Open(c, account, p, q)
    ensures Open(d, account, p, q)
  {
  }

  /**
   * Expiry alone is enough: with two processes some run without any cancellation, in which the entry of the
   * account expires while its client waits, ends with an unresolved operation of the account in each of them.
   */
  lemma ExpiryBreaksSerialisation(g: Setup, account: string) returns (steps: seq<Step>)
    requires ProperPool(g.pool) && g.distributed && g.processes >= 2
    ensures Valid(Init(g), steps) && NoCancel(steps)
    ensures var c := Exec(Init(g), steps);
      Open(c, account, 0, 0) && Open(c, account, 1, 0) && NoneAbandoned(c, account)
  {
    InitInv(g);
    steps := ExpiryRun(g, account);
    NeverAbandoned(Init(g), steps, account);
  }

  lemma ExpiryRun(g: Setup, account: string) returns (steps: seq<Step>)
    requires g.distributed && g.processes >= 2
    ensures Valid(Init(g), steps) && NoCancel(steps)
    ensures Open(Exec(Init(g), steps), account, 0, 0) && Open(Exec(Init(g), steps), account, 1, 0)
  {
    var first := OpenAt(Init(g), account, 0);
    PlainSpares(Init(g), first, "");
    var rest := LosesEntry(Exec(Init(g), first), account);
    Runs.Compose(Apply, Init(g), first, rest);
    steps := first + rest;
  }

  /** The entry of the client in process 0 expires, and a client of process 1 walks in. */
  lemma LosesEntry(c: State, account: string) returns (steps: seq<Step>)
    requires c.locks.distributed && |c.procs| >= 2 && Open(c, account, 0, 0) && Key(c, account) in c.locks.entries
    requires (1, Key(c, account)) !in c.locks.mutexes && c.procs[1] == B.Init(c.procs[1].wallets)
    ensures Valid(c, steps) && NoCancel(steps)
    ensures Open(Exec(c, steps), account, 0, 0) && Open(Exec(c, steps), account, 1, 0)
  {
    var expire := Lock(L.Expire(Key(c, account)));
    var d := Apply(c, expire);
    var enter := OpenAt(d, account, 1);
    PlainSpares(d, enter, "");
    OpenStays(d, Exec(d, enter), 1, account, 0, 0);
    steps := Runs.Cons(Apply, c, expire, enter);
  }

  lemma {:induction false} NeverAbandoned(c: State, steps: seq<Step>, account: string)
    requires ProcsInv(c) && Valid(c, steps) && NoCancel(steps) && NoneAbandoned(c, account)
    ensures NoneAbandoned(Exec(c, steps), account)
    decreases |steps|
  {
    if steps == [] {
    } else {
      ProcsStep(c, steps[0]);
      forall p, q
        ensures !Abandoned(Apply(c, steps[0]), account, p, q)
      {
        NoneAbandonedStep(c, steps[0], account, p, q);
      }
      NeverAbandoned(Apply(c, steps[0]), steps[1..], account);
    }
  }
}
