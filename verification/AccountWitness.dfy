/**
 * A run in which two operations of an account get the same account nonce although nothing expired and nobody
 * was cancelled: the first one is answered with an error while its transaction is pending.
 */
module AccountWitness {
  import opened Common
  import opened Cluster
  import opened ClusterSafety
  import opened ClusterTheorems
  import opened ClusterAccounts
  import opened AccountNonce
  import B = Batcher
  import L = NonceLock
  import LockKeys
  import W = ClusterWitness

  // ---------- The batcher ----------

  /** The only client has the account. */
  function Solo(account: string, pc: B.ClientPc, channel: seq<nat>, accepted: seq<nat>,
                dispatcher: B.Dispatcher): B.State {
    B.Init(1).(clients := [B.Client(Some(account), pc, [], [])], channel := channel, accepted := accepted,
               dispatcher := dispatcher, accountLocks := map[account := 0])
  }

  /** Its operation is in the hands of a flush. */
  function InFlight(account: string, attempts: seq<B.Attempt>, pc: B.FlightPc): B.State {
    Solo(account, B.Awaiting, [], [0], B.Idle).(slots := 1, flights := [B.Flight(0, [0], true, attempts, pc)])
  }

  function TimedOut(): B.Outcome { B.Outcome("hash", Some("failed")) }

  /** The submission has failed and the client is about to be told. */
  function Failed(account: string): B.State {
    InFlight(account, [B.Attempt([0], TimedOut())], B.ReplyErr)
  }

  lemma OfferedAndLaunched(account: string) returns (bs: seq<B.Step>)
    ensures var s := Solo(account, B.Offering, [], [], B.Idle);
      W.LocklessRun(s, bs) && B.Exec(s, bs) == InFlight(account, [], B.WantBatch)
  {
    var s1 := Solo(account, B.Awaiting, [0], [0], B.Idle);
    var s2 := Solo(account, B.Awaiting, [], [0], B.Draining([0]));
    var s3 := Solo(account, B.Awaiting, [], [0], B.Choosing([0], true));
    var s4 := Solo(account, B.Awaiting, [], [0], B.WantSlot([0], true, 0));
    Offered(account);
    Chosen(account);
    Launches(account);
    bs := W.Before(s4, B.Launch, InFlight(account, [], B.WantBatch), []);
    bs := W.Before(s3, B.Choose(None), s4, bs);
    bs := W.Before(s2, B.EndDrain, s3, bs);
    bs := W.Before(s1, B.Receive, s2, bs);
    bs := W.Before(Solo(account, B.Offering, [], [], B.Idle), B.Offer(0), s1, bs);
  }

  lemma Offered(account: string)
    ensures W.Leads(Solo(account, B.Offering, [], [], B.Idle), B.Offer(0), Solo(account, B.Awaiting, [0], [0], B.Idle))
    ensures W.Leads(Solo(account, B.Awaiting, [0], [0], B.Idle), B.Receive,
                    Solo(account, B.Awaiting, [], [0], B.Draining([0])))
  {
    assert [0][1..] == [];
  }

  lemma Chosen(account: string)
    ensures W.Leads(Solo(account, B.Awaiting, [], [0], B.Draining([0])), B.EndDrain,
                    Solo(account, B.Awaiting, [], [0], B.Choosing([0], true)))
    ensures W.Leads(Solo(account, B.Awaiting, [], [0], B.Choosing([0], true)), B.Choose(None),
                    Solo(account, B.Awaiting, [], [0], B.WantSlot([0], true, 0)))
  {
  }

  lemma Launches(account: string)
    ensures W.Leads(Solo(account, B.Awaiting, [], [0], B.WantSlot([0], true, 0)), B.Launch,
                    InFlight(account, [], B.WantBatch))
  {
  }

  lemma Taken(account: string)
    ensures var s, b := InFlight(account, [], B.WantBatch), B.TakeBatch(0);
      && B.Enabled(s, b) && B.WalletOf(s, b) == 0 && SubmittingBy(s, b.Holder()) == [0]
      && B.Apply(s, b) == Submitting(account)
  {
  }

  function Submitting(account: string): B.State {
    InFlight(account, [], B.InBatch).(walletLocks := map[0 := B.ByFlight(0)])
  }

  lemma Fails(account: string)
    ensures B.Enabled(Submitting(account), B.SubmitBatch(0, TimedOut()))
    ensures B.Apply(Submitting(account), B.SubmitBatch(0, TimedOut())) == Failed(account)
  {
    var t := B.Apply(Submitting(account), B.SubmitBatch(0, TimedOut()));
    assert t.walletLocks == map[];
    assert [] + [B.Attempt([0], TimedOut())] == [B.Attempt([0], TimedOut())];
    assert t.flights == Failed(account).flights;
  }

  /** The client has been told, and can return. */
  lemma Told(account: string)
    ensures var s := Failed(account);
      B.Enabled(s, B.Tell(0)) && W.Lockless(B.Tell(0)) &&
      var t := B.Apply(s, B.Tell(0));
      B.Enabled(t, B.Collect(0)) && UnderAccount(t, B.Collect(0)) && B.Closes(t, B.Collect(0)) &&
      AllDone(B.Apply(t, B.Collect(0)))
  {
  }

  /** The only client so far has got an error, and the account is free. */
  ghost predicate AllDone(s: B.State) {
    |s.clients| == 1 && s.clients[0].answers != [] && !s.clients[0].answers[0].Ok() && s.accountLocks == map[]
  }

  // ---------- The deployment ----------

  function AccountSession(chain: LockKeys.ChainId, account: string, pc: L.Pc): L.Session {
    var w := AccountLock(chain, account);
    L.Session(0, w, L.KeyOf(w), L.Account, [], None, pc, None, "", false)
  }

  function AccountLocked(g: Setup, account: string, pc: L.Pc): L.State {
    L.Init(false, g.base).(sessions := [AccountSession(g.chain, account, pc)],
                           mutexes := map[(0, L.KeyOf(AccountLock(g.chain, account))) := 0])
  }

  /** The first client is inside its account lock. */
  function Reading(g: Setup, account: string, pc: B.ClientPc): State {
    State(g.chain, [Solo(account, pc, [], [], B.Idle)], AccountLocked(g, account, L.Inside), g.pool,
          map[(0, ByClient(0)) := 0], map[])
  }

  /** It has the mutex of its account, and is not inside yet. */
  function Waiting(g: Setup, account: string): State {
    Reading(g, account, B.Preparing).(locks := AccountLocked(g, account, L.Local))
  }

  lemma FirstReads(g: Setup, account: string) returns (steps: seq<Step>)
    requires g.processes == 1 && |g.pool| == 1 && !g.distributed
    ensures PlainRun(Init(g), steps) && Exec(Init(g), steps) == Reading(g, account, B.Preparing)
  {
    FirstArrives(g, account);
    FirstEnters(g, account);
    steps := PlainTwo(Init(g), Inner(0, B.Arrive(Some(account))), Enter(0, B.TakeAccount(0), L.Account));
    var more := FirstInside(g, account);
    steps := PlainJoin(Init(g), steps, more);
  }

  lemma FirstInside(g: Setup, account: string) returns (steps: seq<Step>)
    requires !g.distributed
    ensures PlainRun(Waiting(g, account), steps)
    ensures Exec(Waiting(g, account), steps) == Reading(g, account, B.Preparing)
  {
    var c := Waiting(g, account);
    EntersLocal(c, 0);
    steps := PlainOne(c, Lock(L.EnterLocal(0)));
    assert Exec(c, steps).locks.sessions == AccountLocked(g, account, L.Inside).sessions;
  }

  function Arrived(g: Setup, account: string): State {
    Init(g).(procs := [B.Init(1).(clients := [B.Client(Some(account), B.WantAccount, [], [])])])
  }

  lemma FirstArrives(g: Setup, account: string)
    requires g.processes == 1 && |g.pool| == 1
    ensures var step := Inner(0, B.Arrive(Some(account)));
      Enabled(Init(g), step) && Apply(Init(g), step) == Arrived(g, account)
  {
    var me := B.Client(Some(account), B.WantAccount, [], []);
    assert Init(g).procs == [B.Init(1)];
    assert B.Apply(B.Init(1), B.Arrive(Some(account))).clients == [me];
  }

  lemma TakesAccount(account: string)
    ensures var s := B.Init(1).(clients := [B.Client(Some(account), B.WantAccount, [], [])]);
      && B.Enabled(s, B.TakeAccount(0))
      && B.Apply(s, B.TakeAccount(0)) == Solo(account, B.Preparing, [], [], B.Idle)
  {
    var s := B.Init(1).(clients := [B.Client(Some(account), B.WantAccount, [], [])]);
    assert B.Apply(s, B.TakeAccount(0)).accountLocks == map[account := 0];
  }

  lemma FirstEnters(g: Setup, account: string)
    requires g.processes == 1 && |g.pool| == 1 && !g.distributed
    ensures var step := Enter(0, B.TakeAccount(0), L.Account);
      && Enabled(Arrived(g, account), step)
      && Apply(Arrived(g, account), step) == Waiting(g, account)
  {
    var c, w := Arrived(g, account), AccountLock(g.chain, account);
    L.Begun(c.locks, 0, w, L.Account);
    TakesAccount(account);
    var d := Apply(c, Enter(0, B.TakeAccount(0), L.Account));
    assert d.procs == [Solo(account, B.Preparing, [], [], B.Idle)];
    assert d.locks.sessions == [AccountSession(g.chain, account, L.Local)];
  }

  /** Without Redis the mutex is all it takes. */
  lemma EntersLocal(c: State, i: nat)
    requires !c.locks.distributed && c.locks.Is(i) && c.locks.sessions[i].pc.Local?
    ensures var step := Lock(L.EnterLocal(i));
      && Enabled(c, step)
      && var inside := c.locks.sessions[i := c.locks.sessions[i].(pc := L.Inside)];
      Apply(c, step) == c.(locks := c.locks.(sessions := inside))
  {
  }

  /** The client finishes its preparations. */
  lemma Prepares(g: Setup, account: string)
    ensures var c, step := Reading(g, account, B.Preparing), Client(0, B.Prepare(0, true));
      Enabled(c, step) && Apply(c, step) == Reading(g, account, B.Offering)
  {
    var s := Solo(account, B.Preparing, [], [], B.Idle);
    assert B.Apply(s, B.Prepare(0, true)).clients == Solo(account, B.Offering, [], [], B.Idle).clients;
    assert Apply(Reading(g, account, B.Preparing), Client(0, B.Prepare(0, true))).procs ==
           Reading(g, account, B.Offering).procs;
  }

  /** The flush has the operation and waits for its wallet. */
  function Queued(g: Setup, account: string): State {
    Reading(g, account, B.Awaiting).(procs := [InFlight(account, [], B.WantBatch)])
  }

  lemma FirstQueued(g: Setup, account: string) returns (steps: seq<Step>)
    ensures var c := Reading(g, account, B.Preparing);
      PlainRun(c, steps) && Exec(c, steps) == Queued(g, account)
  {
    Prepares(g, account);
    steps := PlainOne(Reading(g, account, B.Preparing), Client(0, B.Prepare(0, true)));
    var bs := OfferedAndLaunched(account);
    var more := W.Lift(Reading(g, account, B.Offering), bs);
    steps := PlainJoin(Reading(g, account, B.Preparing), steps, more);
  }

  /** The wallet's session has sent the transaction and returns an error, because it was not mined in time. */
  function Pending(g: Setup, account: string): State
    requires g.pool != []
  {
    var c := Queued(g, account);
    c.(procs := [Submitting(account)], current := c.current[(0, Of(B.ByFlight(0))) := 1],
       locks := W.AfterSend(c.locks, g.pool[0], Tag(0, [0]), W.WaitRanOut))
  }

  lemma WalletMutexFree(g: Setup, account: string)
    requires ProperPool(g.pool) && g.pool != []
    ensures L.KeyOf(AccountLock(g.chain, account)) != L.KeyOf(g.pool[0])
  {
    AccountNotInPool(g.pool, g.chain, account);
    var v, w := AccountLock(g.chain, account), g.pool[0];
    LockKeys.WalletKeyInjective(v.chain, v.address, w.chain, w.address);
  }

  lemma FirstPending(g: Setup, account: string) returns (steps: seq<Step>)
    requires ProperPool(g.pool) && |g.pool| == 1
    ensures PlainRun(Queued(g, account), steps) && Exec(Queued(g, account), steps) == Pending(g, account)
  {
    WalletMutexFree(g, account);
    Taken(account);
    steps := W.FlushSends(Queued(g, account), B.TakeBatch(0), W.WaitRanOut);
  }

  /** The account session of the first client is as it was, and nobody else has a mutex. */
  ghost predicate OnlyAccount(c: State, g: Setup, account: string)
    requires g.pool != []
  {
    && c.chain == g.chain && c.pool == g.pool && (0, ByClient(0)) in c.current && c.current[(0, ByClient(0))] == 0
    && !c.locks.distributed && c.locks.entries == map[] && c.locks.accepted == Pending(g, account).locks.accepted
    && c.locks.Is(0) && c.locks.sessions[0] == AccountSession(g.chain, account, L.Inside)
    && c.locks.mutexes == map[(0, L.KeyOf(AccountLock(g.chain, account))) := 0]
  }

  lemma BatchReturns(g: Setup, account: string)
    requires ProperPool(g.pool) && |g.pool| == 1
    ensures var c, step := Pending(g, account), Leave(0, B.SubmitBatch(0, TimedOut()));
      && Enabled(c, step)
      && Apply(c, step).procs == [Failed(account)] && OnlyAccount(Apply(c, step), g, account)
  {
    Fails(account);
    WalletReturned(g, account);
    var d := Apply(Pending(g, account), Leave(0, B.SubmitBatch(0, TimedOut())));
    assert d.procs == [Failed(account)];
  }

  /** The session of the wallet ends with an error and a hash. */
  lemma WalletReturned(g: Setup, account: string)
    requires ProperPool(g.pool) && |g.pool| == 1
    ensures var l := Pending(g, account).locks;
      && L.Enabled(l, L.Unlock(1)) && !l.sessions[1].ok && l.sessions[1].hash == TimedOut().hash
      && var m := L.Apply(l, L.Unlock(1));
      && !m.distributed && m.entries == map[] && m.accepted == l.accepted
      && m.Is(0) && m.sessions[0] == AccountSession(g.chain, account, L.Inside)
      && m.mutexes == map[(0, L.KeyOf(AccountLock(g.chain, account))) := 0]
  {
    WalletMutexFree(g, account);
    var l := Pending(g, account).locks;
    assert l.sessions[1] == W.Sent(Queued(g, account).locks, g.pool[0], Tag(0, [0]), W.WaitRanOut);
  }

  /** The account is free again, and the transaction of its operation pending. */
  ghost predicate FreeAgain(c: State, g: Setup, account: string)
    requires g.pool != []
  {
    && c.chain == g.chain && |c.procs| == 1 && AllDone(c.procs[0]) && c.pool == g.pool
    && !c.locks.distributed && c.locks.entries == map[] && c.locks.mutexes == map[]
    && c.locks.accepted == Pending(g, account).locks.accepted
  }

  lemma ClientReturns(c: State, g: Setup, account: string) returns (steps: seq<Step>)
    requires ProperPool(g.pool) && |g.pool| == 1 && OnlyAccount(c, g, account)
    requires c.procs == [B.Apply(Failed(account), B.Tell(0))]
    ensures PlainRun(c, steps) && FreeAgain(Exec(c, steps), g, account)
  {
    var collect, unlock := Client(0, B.Collect(0)), Lock(L.Unlock(0));
    Collects(c, g, account);
    AccountReturned(c.locks, g.chain, account);
    AccountNotInPool(g.pool, g.chain, account);
    steps := PlainTwo(c, collect, unlock);
  }

  lemma Collects(c: State, g: Setup, account: string)
    requires g.pool != [] && OnlyAccount(c, g, account) && c.procs == [B.Apply(Failed(account), B.Tell(0))]
    ensures var step := Client(0, B.Collect(0));
      && Enabled(c, step) && L.Enabled(c.locks, L.Return(0))
      && var d := Apply(c, step);
      && d.locks == L.Apply(c.locks, L.Return(0)) && d.chain == c.chain && d.pool == c.pool
      && |d.procs| == 1 && AllDone(d.procs[0])
  {
    Told(account);
  }

  /** The session of the account ends. */
  lemma AccountReturned(l: L.State, chain: LockKeys.ChainId, account: string)
    requires !l.distributed && l.Is(0) && l.sessions[0] == AccountSession(chain, account, L.Inside)
    requires l.mutexes == map[(0, L.KeyOf(AccountLock(chain, account))) := 0]
    ensures L.Enabled(l, L.Return(0))
    ensures var m := L.Apply(l, L.Return(0));
      && m.sessions[0].wallet == AccountLock(chain, account) && L.Enabled(m, L.Unlock(0))
      && var n := L.Apply(m, L.Unlock(0));
      && n.mutexes == map[] && !n.distributed && n.entries == l.entries && n.accepted == l.accepted
  {
  }

  lemma Tells(c: State, g: Setup, account: string)
    requires g.pool != [] && OnlyAccount(c, g, account) && c.procs == [Failed(account)]
    ensures var step := Inner(0, B.Tell(0));
      && Enabled(c, step)
      && OnlyAccount(Apply(c, step), g, account) && Apply(c, step).procs == [B.Apply(Failed(account), B.Tell(0))]
  {
    Told(account);
  }

  lemma FirstAnswered(g: Setup, account: string) returns (steps: seq<Step>)
    requires ProperPool(g.pool) && |g.pool| == 1
    ensures PlainRun(Pending(g, account), steps) && FreeAgain(Exec(Pending(g, account), steps), g, account)
  {
    var c, leave, tell := Pending(g, account), Leave(0, B.SubmitBatch(0, TimedOut())), Inner(0, B.Tell(0));
    BatchReturns(g, account);
    Tells(Apply(c, leave), g, account);
    var more := ClientReturns(Apply(Apply(c, leave), tell), g, account);
    steps := PlainTwo(c, leave, tell);
    steps := PlainJoin(c, steps, more);
  }

  /** The next client of the account reads its nonce. */
  lemma SecondReads(c: State, g: Setup, account: string) returns (steps: seq<Step>)
    requires g.pool != [] && FreeAgain(c, g, account)
    ensures PlainRun(c, steps)
    ensures Reads(Exec(c, steps), account, 0, 1) && Sent(Exec(c, steps), L.Op(0, 0))
    ensures forall op :: !Confirmed(Exec(c, steps), op)
  {
    var i := |c.locks.sessions|;
    steps := Enters(c, account, 0);
    NoneConfirmed(c, Exec(c, steps), account, i);
    var more := SecondInside(Exec(c, steps), g, account, i);
    steps := PlainJoin(c, steps, more);
  }

  lemma SecondInside(c: State, g: Setup, account: string, i: nat) returns (steps: seq<Step>)
    requires g.pool != [] && !c.locks.distributed && At(c, account, 0, 1, i, B.Preparing, L.Local)
    requires (forall op :: !Confirmed(c, op)) && c.locks.accepted == Pending(g, account).locks.accepted
    ensures PlainRun(c, steps)
    ensures Reads(Exec(c, steps), account, 0, 1) && Sent(Exec(c, steps), L.Op(0, 0))
    ensures forall op :: !Confirmed(Exec(c, steps), op)
  {
    EntersLocal(c, i);
    steps := PlainOne(c, Lock(L.EnterLocal(i)));
    PendingIsSent(Exec(c, steps), g, account);
    forall op
      ensures !Confirmed(Exec(c, steps), op)
    {
      assert !Confirmed(c, op);
    }
  }

  lemma NoneConfirmed(c: State, d: State, account: string, i: nat)
    requires |c.procs| == 1 && AllDone(c.procs[0]) && Adds(c, d, 0) && |d.procs[0].clients| == 2
    requires At(d, account, 0, 1, i, B.Preparing, L.Local)
    ensures forall op :: !Confirmed(d, op)
  {
  }

  lemma PendingIsSent(c: State, g: Setup, account: string)
    requires g.pool != [] && c.locks.accepted == Pending(g, account).locks.accepted
    ensures Sent(c, L.Op(0, 0))
  {
    assert Tag(0, [0])[0] == L.Op(0, 0);
    assert Carried(c, g.pool[0], 0, L.Op(0, 0));
  }

  /**
   * With one process and one wallet, nothing expired and nobody cancelled: a first client reads the nonce of the
   * account, its operation is answered with an error because its transaction was not mined in time, and a second
   * client of the account may read the same nonce while that transaction is pending.
   */
  lemma SameNonceTwice(g: Setup, account: string) returns (past: seq<Step>, steps: seq<Step>)
    requires ProperPool(g.pool) && g.processes == 1 && |g.pool| == 1 && !g.distributed
    ensures PlainRun(Init(g), past)
    ensures var c := Exec(Init(g), past);
      && PlainRun(c, steps)
      && var d := Exec(c, steps);
      && Reads(c, account, 0, 0) && Reads(d, account, 0, 1) && Sent(d, L.Op(0, 0)) && MaySeeSame(c, d, account)
  {
    past := FirstReads(g, account);
    var c := Reading(g, account, B.Preparing);
    steps := ThenSecond(g, account);
    assert ConfirmedWereSent(c, Exec(c, steps), account);
    SameNonceIff(g, past, steps, account);
  }

  lemma ThenSecond(g: Setup, account: string) returns (steps: seq<Step>)
    requires ProperPool(g.pool) && |g.pool| == 1
    ensures var c := Reading(g, account, B.Preparing);
      && PlainRun(c, steps)
      && var d := Exec(c, steps);
      && Reads(d, account, 0, 1) && Sent(d, L.Op(0, 0)) && (forall op :: !Confirmed(d, op))
  {
    var c := Reading(g, account, B.Preparing);
    steps := FirstQueued(g, account);
    var more := FirstPending(g, account);
    steps := PlainJoin(c, steps, more);
    more := FirstAnswered(g, account);
    steps := PlainJoin(c, steps, more);
    more := SecondReads(Exec(c, steps), g, account);
    steps := PlainJoin(c, steps, more);
  }
}
