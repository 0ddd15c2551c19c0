/** A run of the deployment in which the chain carries an operation twice, with nothing expired or cancelled. */
module ClusterWitness {
  import opened Common
  import opened Cluster
  import opened ClusterTheorems
  import B = Batcher
  import ClusterRetry
  import L = NonceLock
  import Runs

  /** With one process and no Redis, nothing has to be trusted. */
  lemma {:induction false} NothingToTrust(c: State, steps: seq<Step>)
    requires |c.procs| == 1 && !c.locks.distributed && PlainRun(c, steps)
    ensures TrustedRun(c, steps) && NoCancel(steps)
    decreases |steps|
  {
    if steps == [] {
    } else {
      NothingToTrust(Apply(c, steps[0]), steps[1..]);
    }
  }

  /** A batcher step that needs no lock in any deployment. */
  ghost predicate Lockless(b: B.Step) { !Opens(b) && !b.Returns() && !b.Prepare? && !b.Collect? && !b.Cancel? }

  /** What a batcher does without locks, the deployment can do. */
  lemma {:induction false} Lift(c: State, bs: seq<B.Step>) returns (steps: seq<Step>)
    requires |c.procs| == 1 && LocklessRun(c.procs[0], bs)
    ensures PlainRun(c, steps) && Exec(c, steps) == c.(procs := [B.Exec(c.procs[0], bs)])
    decreases |bs|
  {
    if bs == [] {
      steps := [];
    } else {
      var step := Inner(0, bs[0]);
      var d := Apply(c, step);
      assert d.procs == [B.Apply(c.procs[0], bs[0])];
      var rest := Lift(d, bs[1..]);
      steps := Runs.Cons(Apply, c, step, rest);
    }
  }

  function Client(pc: B.ClientPc): B.Client { B.Client(None, pc, [], []) }

  /** What the batcher of one wallet is like while two operations are gathered. */
  function Gathering(first: B.ClientPc, second: B.ClientPc, channel: seq<nat>, accepted: seq<nat>,
                     dispatcher: B.Dispatcher): B.State {
    B.Init(1).(clients := [Client(first), Client(second)], channel := channel, accepted := accepted,
               dispatcher := dispatcher)
  }

  /** Two operations have been gathered and wait for the only wallet. */
  function Gathered(): B.State {
    Gathering(B.Awaiting, B.Awaiting, [], [0, 1], B.Idle).(
      slots := 1, flights := [B.Flight(0, [0, 1], true, [], B.WantBatch)])
  }

  ghost predicate Leads(s: B.State, b: B.Step, t: B.State) { B.Enabled(s, b) && B.Apply(s, b) == t && Lockless(b) }

  lemma TwoArrive()
    ensures var one := B.Init(1).(clients := [Client(B.Offering)]);
      && Leads(B.Init(1), B.Arrive(None), one)
      && Leads(one, B.Arrive(None), Gathering(B.Offering, B.Offering, [], [], B.Idle))
  {
    assert [] + [Client(B.Offering)] == [Client(B.Offering)];
  }

  lemma TwoOffer()
    ensures Leads(Gathering(B.Offering, B.Offering, [], [], B.Idle), B.Offer(0),
                  Gathering(B.Awaiting, B.Offering, [0], [0], B.Idle))
    ensures Leads(Gathering(B.Awaiting, B.Offering, [0], [0], B.Idle), B.Offer(1),
                  Gathering(B.Awaiting, B.Awaiting, [0, 1], [0, 1], B.Idle))
  {
  }

  lemma TwoDrain()
    ensures Leads(Gathering(B.Awaiting, B.Awaiting, [0, 1], [0, 1], B.Idle), B.Receive,
                  Gathering(B.Awaiting, B.Awaiting, [1], [0, 1], B.Draining([0])))
    ensures Leads(Gathering(B.Awaiting, B.Awaiting, [1], [0, 1], B.Draining([0])), B.Drain,
                  Gathering(B.Awaiting, B.Awaiting, [], [0, 1], B.Draining([0, 1])))
  {
    assert [0, 1][1..] == [1] && [1][1..] == [] && [0] + [1] == [0, 1];
  }

  lemma TwoLaunch()
    ensures Leads(Gathering(B.Awaiting, B.Awaiting, [], [0, 1], B.Draining([0, 1])), B.EndDrain,
                  Gathering(B.Awaiting, B.Awaiting, [], [0, 1], B.Choosing([0, 1], true)))
    ensures Leads(Gathering(B.Awaiting, B.Awaiting, [], [0, 1], B.Choosing([0, 1], true)), B.Choose(None),
                  Gathering(B.Awaiting, B.Awaiting, [], [0, 1], B.WantSlot([0, 1], true, 0)))
    ensures Leads(Gathering(B.Awaiting, B.Awaiting, [], [0, 1], B.WantSlot([0, 1], true, 0)), B.Launch, Gathered())
  {
  }

  ghost predicate LocklessRun(s: B.State, bs: seq<B.Step>) {
    B.Valid(s, bs) && forall k :: 0 <= k < |bs| ==> Lockless(bs[k])
  }

  lemma Before(s: B.State, b: B.Step, t: B.State, bs: seq<B.Step>) returns (more: seq<B.Step>)
    requires Leads(s, b, t) && LocklessRun(t, bs)
    ensures LocklessRun(s, more) && B.Exec(s, more) == B.Exec(t, bs)
  {
    more := Runs.Cons(B.Apply, s, b, bs);
  }

  lemma Gather() returns (bs: seq<B.Step>)
    ensures LocklessRun(B.Init(1), bs) && B.Exec(B.Init(1), bs) == Gathered()
  {
    var done := B.Awaiting;
    TwoLaunch();
    bs := Before(Gathering(done, done, [], [0, 1], B.WantSlot([0, 1], true, 0)), B.Launch, Gathered(), []);
    bs := Before(Gathering(done, done, [], [0, 1], B.Choosing([0, 1], true)), B.Choose(None),
                 Gathering(done, done, [], [0, 1], B.WantSlot([0, 1], true, 0)), bs);
    bs := Before(Gathering(done, done, [], [0, 1], B.Draining([0, 1])), B.EndDrain,
                 Gathering(done, done, [], [0, 1], B.Choosing([0, 1], true)), bs);
    bs := GatherBefore(bs);
  }

  lemma GatherBefore(rest: seq<B.Step>) returns (bs: seq<B.Step>)
    requires LocklessRun(Gathering(B.Awaiting, B.Awaiting, [], [0, 1], B.Draining([0, 1])), rest)
    ensures LocklessRun(B.Init(1), bs)
    ensures B.Exec(B.Init(1), bs) == B.Exec(Gathering(B.Awaiting, B.Awaiting, [], [0, 1], B.Draining([0, 1])), rest)
  {
    TwoDrain();
    bs := Before(Gathering(B.Awaiting, B.Awaiting, [1], [0, 1], B.Draining([0])), B.Drain,
                 Gathering(B.Awaiting, B.Awaiting, [], [0, 1], B.Draining([0, 1])), rest);
    bs := Before(Gathering(B.Awaiting, B.Awaiting, [0, 1], [0, 1], B.Idle), B.Receive,
                 Gathering(B.Awaiting, B.Awaiting, [1], [0, 1], B.Draining([0])), bs);
    TwoOffer();
    bs := Before(Gathering(B.Awaiting, B.Offering, [0], [0], B.Idle), B.Offer(1),
                 Gathering(B.Awaiting, B.Awaiting, [0, 1], [0, 1], B.Idle), bs);
    bs := Before(Gathering(B.Offering, B.Offering, [], [], B.Idle), B.Offer(0),
                 Gathering(B.Awaiting, B.Offering, [0], [0], B.Idle), bs);
    TwoArrive();
    var one := B.Init(1).(clients := [Client(B.Offering)]);
    bs := Before(one, B.Arrive(None), Gathering(B.Offering, B.Offering, [], [], B.Idle), bs);
    bs := Before(B.Init(1), B.Arrive(None), one, bs);
  }

  // ---------- A submission whose transaction is accepted ----------

  /** What the sender learns of an accepted transaction. */
  datatype Fate = Told | ReplyLost | WaitRanOut

  /** The session after that: waiting for its transaction to be mined, or about to return with an error. */
  function Sent(l: L.State, w: L.Wallet, ops: seq<L.Op>, fate: Fate): L.Session {
    L.Session(0, w, L.KeyOf(w), L.Batch, ops, None, if fate.Told? then L.Mining else L.Unlocking,
              Some(l.Pending(w)), if fate.ReplyLost? then "" else "hash", false)
  }

  function AfterSend(l: L.State, w: L.Wallet, ops: seq<L.Op>, fate: Fate): L.State {
    var i := |l.sessions|;
    l.(sessions := l.sessions + [Sent(l, w, ops, fate)],
       mutexes := l.mutexes[(0, L.KeyOf(w)) := i],
       accepted := l.accepted[w := l.Accepted(w) + [L.Tx(i, l.Pending(w), "hash", ops)]])
  }

  function Fresh(w: L.Wallet, ops: seq<L.Op>, pc: L.Pc): L.Session {
    L.Session(0, w, L.KeyOf(w), L.Batch, ops, None, pc, None, "", false)
  }

  /** A session of process 0 that has taken its mutex and got to pc. */
  function WithSession(l: L.State, w: L.Wallet, ops: seq<L.Op>, pc: L.Pc): L.State {
    l.(sessions := l.sessions + [Fresh(w, ops, pc)], mutexes := l.mutexes[(0, L.KeyOf(w)) := |l.sessions|])
  }

  lemma SessionOpens(l: L.State, w: L.Wallet, ops: seq<L.Op>)
    requires (0, L.KeyOf(w)) !in l.mutexes
    ensures var m := L.Apply(l, L.Start(0, w, L.Batch, ops));
      && L.Enabled(m, L.LockLocal(|l.sessions|))
      && L.Apply(m, L.LockLocal(|l.sessions|)) == WithSession(l, w, ops, L.Local)
  {
    var m := L.Apply(l, L.Start(0, w, L.Batch, ops));
    assert m == l.(sessions := l.sessions + [Fresh(w, ops, L.WantLocal)]);
    assert L.Apply(m, L.LockLocal(|l.sessions|)).sessions == l.sessions + [Fresh(w, ops, L.Local)];
  }

  lemma SessionReads(l: L.State, w: L.Wallet, ops: seq<L.Op>)
    requires !l.distributed
    ensures var i, m := |l.sessions|, WithSession(l, w, ops, L.Local);
      && L.Enabled(m, L.EnterLocal(i))
      && L.Apply(m, L.EnterLocal(i)) == WithSession(l, w, ops, L.Inside)
      && L.Enabled(WithSession(l, w, ops, L.Inside), L.ReadNonce(i))
      && L.Apply(WithSession(l, w, ops, L.Inside), L.ReadNonce(i)) == WithSession(l, w, ops, L.Holding(l.Pending(w)))
  {
    var i, m, n := |l.sessions|, WithSession(l, w, ops, L.Local), WithSession(l, w, ops, L.Inside);
    assert L.Apply(m, L.EnterLocal(i)).sessions == n.sessions;
    assert L.Apply(n, L.ReadNonce(i)).sessions == WithSession(l, w, ops, L.Holding(l.Pending(w))).sessions;
  }

  lemma SessionSends(l: L.State, w: L.Wallet, ops: seq<L.Op>, fate: Fate) returns (acts: seq<L.Step>)
    requires !l.distributed
    ensures var m := WithSession(l, w, ops, L.Holding(l.Pending(w)));
      L.Valid(m, acts) && L.Exec(m, acts) == AfterSend(l, w, ops, fate)
    ensures forall k :: 0 <= k < |acts| ==> ClusterRetry.OnItsOwn(acts[k])
  {
    var m, i := WithSession(l, w, ops, L.Holding(l.Pending(w))), |l.sessions|;
    var send, noticed := L.Send(i, true, fate.ReplyLost?, "hash"), if fate.ReplyLost? then ReplyLost else Told;
    assert L.Apply(m, send).sessions == l.sessions + [Sent(l, w, ops, noticed)];
    assert L.Apply(m, send) == AfterSend(l, w, ops, noticed);
    acts := [];
    if fate.WaitRanOut? {
      acts := WaitRunsOut(l, w, ops);
    }
    acts := Runs.Cons(L.Apply, m, send, acts);
  }

  /** The mining wait of a batch is over and the transaction still pending. */
  lemma WaitRunsOut(l: L.State, w: L.Wallet, ops: seq<L.Op>) returns (acts: seq<L.Step>)
    requires !l.distributed
    ensures var m := AfterSend(l, w, ops, Told); L.Valid(m, acts) && L.Exec(m, acts) == AfterSend(l, w, ops, WaitRanOut)
    ensures forall k :: 0 <= k < |acts| ==> ClusterRetry.OnItsOwn(acts[k])
  {
    var m, wait := AfterSend(l, w, ops, Told), L.WaitOver(|l.sessions|, false);
    assert L.Apply(m, wait).sessions == l.sessions + [Sent(l, w, ops, WaitRanOut)];
    assert L.Enabled(m, wait) && L.Valid(L.Apply(m, wait), []);
    acts := Runs.Cons(L.Apply, m, wait, []);
  }

  /** From the mutex to the node. */
  lemma SessionRuns(l: L.State, w: L.Wallet, ops: seq<L.Op>, fate: Fate) returns (acts: seq<L.Step>)
    requires !l.distributed
    ensures var m := WithSession(l, w, ops, L.Local); L.Valid(m, acts) && L.Exec(m, acts) == AfterSend(l, w, ops, fate)
    ensures forall k :: 0 <= k < |acts| ==> ClusterRetry.OnItsOwn(acts[k])
  {
    var i := |l.sessions|;
    SessionReads(l, w, ops);
    acts := SessionSends(l, w, ops, fate);
    acts := Runs.Cons(L.Apply, WithSession(l, w, ops, L.Inside), L.ReadNonce(i), acts);
    acts := Runs.Cons(L.Apply, WithSession(l, w, ops, L.Local), L.EnterLocal(i), acts);
  }

  /** The only flush takes the only wallet and its transaction is accepted. */
  lemma FlushSends(c: State, b: B.Step, fate: Fate) returns (steps: seq<Step>)
    requires |c.procs| == 1 && |c.pool| == 1 && B.Enabled(c.procs[0], b) && (b.TakeBatch? || b.TakeOne?)
    requires B.WalletOf(c.procs[0], b) == 0
    requires !c.locks.distributed && (0, L.KeyOf(c.pool[0])) !in c.locks.mutexes
    ensures PlainRun(c, steps)
    ensures var ops := Tag(0, SubmittingBy(c.procs[0], b.Holder()));
      Exec(c, steps) == c.(procs := [B.Apply(c.procs[0], b)], locks := AfterSend(c.locks, c.pool[0], ops, fate),
                           current := c.current[(0, OwnerOf(b)) := |c.locks.sessions|])
  {
    steps := FlushEnters(c, b);
    var acts := SessionRuns(c.locks, c.pool[0], Tag(0, SubmittingBy(c.procs[0], b.Holder())), fate);
    var send := ClusterRetry.Lift(Exec(c, steps), acts);
    steps := PlainJoin(c, steps, send);
  }

  lemma FlushEnters(c: State, b: B.Step) returns (steps: seq<Step>)
    requires |c.procs| == 1 && |c.pool| == 1 && B.Enabled(c.procs[0], b) && (b.TakeBatch? || b.TakeOne?)
    requires B.WalletOf(c.procs[0], b) == 0 && (0, L.KeyOf(c.pool[0])) !in c.locks.mutexes
    ensures PlainRun(c, steps)
    ensures var ops := Tag(0, SubmittingBy(c.procs[0], b.Holder()));
      Exec(c, steps) == c.(procs := [B.Apply(c.procs[0], b)], locks := WithSession(c.locks, c.pool[0], ops, L.Local),
                           current := c.current[(0, OwnerOf(b)) := |c.locks.sessions|])
  {
    SessionOpens(c.locks, c.pool[0], Tag(0, SubmittingBy(c.procs[0], b.Holder())));
    steps := PlainOne(c, Enter(0, b, L.Batch));
    assert Exec(c, steps).procs == [B.Apply(c.procs[0], b)];
  }

  // ---------- The batch fails, the retry lands ----------

  /** What flush is told of a batch that was accepted and not seen mined. */
  function Failure(fate: Fate): B.Outcome { B.Outcome(if fate.ReplyLost? then "" else "hash", Some("failed")) }

  function Flush(attempts: seq<B.Attempt>, pc: B.FlightPc): B.Flight { B.Flight(0, [0, 1], true, attempts, pc) }

  /** The batch is being submitted. */
  function Submitted(): B.State {
    Gathered().(flights := [Flush([], B.InBatch)], walletLocks := map[0 := B.ByFlight(0)])
  }

  /** The batch was reported as failed; its operations are about to be submitted one by one. */
  function Spread(fate: Fate): B.State {
    Gathered().(flights := [Flush([B.Attempt([0, 1], Failure(fate))], B.WantOne(0))])
  }

  lemma BatchTaken()
    ensures B.Enabled(Gathered(), B.TakeBatch(0)) && B.WalletOf(Gathered(), B.TakeBatch(0)) == 0
    ensures B.Apply(Gathered(), B.TakeBatch(0)) == Submitted() && SubmittingBy(Gathered(), B.ByFlight(0)) == [0, 1]
  {
    assert B.Apply(Gathered(), B.TakeBatch(0)).flights == Submitted().flights;
  }

  lemma BatchFails(fate: Fate)
    ensures B.Enabled(Submitted(), B.SubmitBatch(0, Failure(fate)))
    ensures B.Apply(Submitted(), B.SubmitBatch(0, Failure(fate))) == Spread(fate)
  {
    var t := B.Apply(Submitted(), B.SubmitBatch(0, Failure(fate)));
    assert t.walletLocks == map[];
    assert [] + [B.Attempt([0, 1], Failure(fate))] == [B.Attempt([0, 1], Failure(fate))];
    assert t.flights == Spread(fate).flights;
  }

  lemma RetryTaken(fate: Fate)
    ensures B.Enabled(Spread(fate), B.TakeOne(0)) && B.WalletOf(Spread(fate), B.TakeOne(0)) == 0
    ensures SubmittingBy(Spread(fate), B.ByFlight(0)) == [0]
  {
  }

  /** The session of the batch returns an error and gives the wallet back. */
  lemma BatchReturns(c: State, fate: Fate) returns (steps: seq<Step>)
    requires c.procs == [Submitted()] && (0, Of(B.ByFlight(0))) in c.current
    requires c.locks.Is(c.current[(0, Of(B.ByFlight(0)))])
    requires var me := c.locks.sessions[c.current[(0, Of(B.ByFlight(0)))]];
      me.pc.Unlocking? && !me.ok && me.hash == Failure(fate).hash
    ensures PlainRun(c, steps)
    ensures var d := Exec(c, steps);
      && d.procs == [Spread(fate)] && d.pool == c.pool
      && d.locks == L.Apply(c.locks, L.Unlock(c.current[(0, Of(B.ByFlight(0)))]))
  {
    BatchFails(fate);
    steps := PlainOne(c, Leave(0, B.SubmitBatch(0, Failure(fate))));
    assert Exec(c, steps).procs == [Spread(fate)];
  }

  /** Everything up to the moment when the only flush has sent its batch and its session has failed. */
  lemma SendBatch(g: Setup, fate: Fate) returns (steps: seq<Step>)
    requires g.processes == 1 && |g.pool| == 1 && !g.distributed
    ensures PlainRun(Init(g), steps)
    ensures var c := Exec(Init(g), steps);
      && c.procs == [Submitted()] && c.pool == g.pool && c.current == map[(0, Of(B.ByFlight(0))) := 0]
      && c.locks == AfterSend(L.Init(false, g.base), g.pool[0], Tag(0, [0, 1]), fate)
  {
    var bs := Gather();
    var c := Init(g);
    assert c.procs == [B.Init(1)];
    BatchTaken();
    var gather := Lift(c, bs);
    var send := FlushSends(Exec(c, gather), B.TakeBatch(0), fate);
    steps := PlainJoin(c, gather, send);
  }

  /** After the session of the batch has ended, the only wallet has one transaction and is free. */
  lemma WalletFree(l: L.State, w: L.Wallet, ops: seq<L.Op>, fate: Fate)
    requires !l.distributed && l.sessions == [] && l.mutexes == map[] && l.accepted == map[] && !fate.Told?
    ensures var m := AfterSend(l, w, ops, fate);
      && m.Is(0) && m.sessions[0] == Sent(l, w, ops, fate) && L.Enabled(m, L.Unlock(0))
      && var n := L.Apply(m, L.Unlock(0));
      && !n.distributed && n.mutexes == map[] && n.Accepted(w) == [L.Tx(0, l.Pending(w), "hash", ops)]
  {
  }

  /**
   * With one process, one wallet and neither expiry nor cancellation: two operations are batched and the node
   * accepts their transaction, but flush is told an error, because the node's reply was lost or because the
   * transaction was not mined in time, and the node also accepts the retry of the first operation.
   */
  lemma OperationCarriedTwice(g: Setup, fate: Fate) returns (steps: seq<Step>)
    requires g.processes == 1 && |g.pool| == 1 && !g.distributed && !fate.Told?
    ensures Valid(Init(g), steps) && TrustedRun(Init(g), steps) && NoCancel(steps)
    ensures CarriedTwice(Exec(Init(g), steps), L.Op(0, 0))
  {
    var c, w := Init(g), g.pool[0];
    steps := SendBatch(g, fate);
    WalletFree(L.Init(false, g.base), w, Tag(0, [0, 1]), fate);
    var back := BatchReturns(Exec(c, steps), fate);
    steps := PlainJoin(c, steps, back);
    RetryTaken(fate);
    var d := Exec(c, steps);
    var again := FlushSends(d, B.TakeOne(0), Told);
    steps := PlainJoin(c, steps, again);
    TwoTransactions(Exec(c, steps), d.locks, w);
    NothingToTrust(c, steps);
  }

  lemma TwoTransactions(c: State, l: L.State, w: L.Wallet)
    requires |l.Accepted(w)| == 1 && l.Accepted(w)[0].ops == Tag(0, [0, 1])
    requires c.locks == AfterSend(l, w, Tag(0, [0]), Told)
    ensures CarriedTwice(c, L.Op(0, 0))
  {
    assert Tag(0, [0, 1])[0] == L.Op(0, 0) && Tag(0, [0])[0] == L.Op(0, 0);
    assert Carried(c, w, 0, L.Op(0, 0)) && Carried(c, w, 1, L.Op(0, 0));
  }
}
