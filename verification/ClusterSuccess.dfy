/** Who is told success in the deployment, and that clients can be told success at all. */
module ClusterSuccess {
  import opened Common
  import opened Cluster
  import opened ClusterSafety
  import opened ClusterTheorems
  import B = Batcher
  import BatcherSafety
  import BatcherTheorems
  import ClusterProgress
  import ClusterRefines
  import ClusterRetry
  import ClusterWitness
  import F = LockFates
  import L = NonceLock
  import LockTraces
  import Runs

  // ---------- Told success exactly when mined ----------

  /** Session i has the operation and was told by the node that its transaction is mined. */
  ghost predicate SawMined(c: State, steps: seq<Step>, i: nat, op: L.Op) {
    c.locks.Is(i) && op in c.locks.sessions[i].ops && Lock(L.WaitOver(i, true)) in steps
  }

  /** A session that carries operations succeeds exactly when it sees its transaction mined. */
  lemma OkIsMined(g: Setup, steps: seq<Step>, i: nat)
    requires ProperPool(g.pool) && Valid(Init(g), steps)
    requires Exec(Init(g), steps).locks.Is(i) && Exec(Init(g), steps).locks.sessions[i].ops != []
    ensures Exec(Init(g), steps).locks.sessions[i].ok <==> Lock(L.WaitOver(i, true)) in steps
  {
    var c := Exec(Init(g), steps);
    Reachable(g, steps);
    ClusterRefines.LocksRefine(Init(g), steps);
    ClusterRefines.OwnActs(Init(g), steps, L.WaitOver(i, true));
    LockTraces.SuccessIff(g.distributed, g.base, ClusterRefines.LockRun(Init(g), steps), i);
    assert Sorted(c, c.locks.sessions[i]);
  }

  lemma SuccessHasSession(c: State, p: nat, q: nat) returns (i: nat)
    requires Inv(c) && p < |c.procs| && q < |c.procs[p].clients|
    requires c.procs[p].clients[q].answers != [] && c.procs[p].clients[q].answers[0].Ok()
    ensures c.locks.Is(i) && c.locks.sessions[i].ok && L.Op(p, q) in c.locks.sessions[i].ops
  {
    var f, a := BatcherTheorems.SuccessfulAttempt(c.procs[p], q);
    assert IsSubmission(c, p, f, a) && Backed(c, p, f, a);
    i := c.backing[(p, f, a)];
    Tagged(p, c.procs[p].flights[f].attempts[a].ops, q);
  }

  /** The k-th operation of a flush has been told, and the submission that concerns it succeeded. */
  lemma GoodAnswer(f: B.Flight, a: nat, k: nat)
    requires BatcherSafety.FlightShape(f) && k < f.Told() && (a == 0 || a == k + 1)
    requires a < |f.attempts| && f.attempts[a].outcome.Ok()
    ensures BatcherSafety.Answer(f, k).Ok()
  {
  }

  /** A submission that is still under way has not been answered. */
  lemma AnswersFollow(f: B.Flight, a: nat, k: nat)
    requires BatcherSafety.FlightShape(f) && k < f.Told() && k < |f.batch|
    requires a == 0 || (a == k + 1 && f.attempts != [] && !f.attempts[0].outcome.Ok() && |f.batch| > 1)
    ensures a < |f.attempts|
  {
  }

  /** An answer given while the operation's submission i succeeds is a success. */
  lemma OkIsAnswered(c: State, p: nat, q: nat, i: nat)
    requires Inv(c) && p < |c.procs| && q < |c.procs[p].clients| && c.procs[p].clients[q].answers != []
    requires c.locks.Is(i) && c.locks.sessions[i].ok && L.Op(p, q) in c.locks.sessions[i].ops
    ensures c.procs[p].clients[q].answers[0].Ok()
  {
    var f, a, k := CarrierPlace(c, i, p, q);
    OkAt(c, p, q, i, f, a, k);
  }

  lemma OkAt(c: State, p: nat, q: nat, i: nat, f: nat, a: nat, k: nat)
    requires BackingInv(c) && p < |c.procs| && BatcherSafety.ToldInv(c.procs[p])
    requires q < |c.procs[p].clients| && c.procs[p].clients[q].answers != []
    requires c.locks.Is(i) && c.locks.sessions[i].ok && CarriesAs(c, i, p, q, f, a, k)
    ensures c.procs[p].clients[q].answers[0].Ok()
  {
    var flight := c.procs[p].flights[f];
    assert BatcherSafety.ToldAt(c.procs[p], f, k);
    AnswersFollow(flight, a, k);
    assert IsSubmission(c, p, f, a) && Backed(c, p, f, a);
    GoodAnswer(flight, a, k);
  }

  /**
   * Success means mined, and mined means success. In every run of any number of processes, whatever expires, a
   * client that has been answered was told success if and only if a session that carries its operation, alone
   * or in a batch, was told by the node that its transaction is mined.
   */
  lemma SuccessIffMined(g: Setup, steps: seq<Step>, p: nat, q: nat)
    requires ProperPool(g.pool) && Valid(Init(g), steps)
    requires var c := Exec(Init(g), steps);
      p < |c.procs| && q < |c.procs[p].clients| && c.procs[p].clients[q].answers != []
    ensures var c := Exec(Init(g), steps);
      c.procs[p].clients[q].answers[0].Ok() <==> exists i :: SawMined(c, steps, i, L.Op(p, q))
  {
    var c := Exec(Init(g), steps);
    Reachable(g, steps);
    if c.procs[p].clients[q].answers[0].Ok() {
      var i := SuccessHasSession(c, p, q);
      OkIsMined(g, steps, i);
      assert SawMined(c, steps, i, L.Op(p, q));
    }
    if i :| SawMined(c, steps, i, L.Op(p, q)) {
      OkIsMined(g, steps, i);
      OkIsAnswered(c, p, q, i);
    }
  }

  /**
   * So when a run can go no further by itself, every operation that a channel accepted has one answer, and that
   * is a success exactly if its transaction was seen mined.
   */
  lemma AllMinedAreTold(g: Setup, steps: seq<Step>, p: nat, q: nat)
    requires ProperPool(g.pool) && g.pool != [] && Valid(Init(g), steps)
    requires forall step :: ClusterProgress.Internal(step) ==> !Enabled(Exec(Init(g), steps), step)
    requires p < g.processes
    ensures var c := Exec(Init(g), steps);
      && p < |c.procs|
      && (q < |c.procs[p].clients| && q in c.procs[p].accepted ==>
            && |c.procs[p].clients[q].answers| == 1
            && (c.procs[p].clients[q].answers[0].Ok() <==> exists i :: SawMined(c, steps, i, L.Op(p, q))))
  {
    var c := Exec(Init(g), steps);
    Reachable(g, steps);
    ClusterProgress.DeploymentAnswers(g, steps);
    assert ClusterProgress.AllAnswered(c.procs[p]);
    if q < |c.procs[p].clients| && q in c.procs[p].accepted {
      SuccessIffMined(g, steps, p, q);
    }
  }

  // ---------- Whatever can become of a submission does ----------

  lemma PlainStep(c: State, step: Step) returns (steps: seq<Step>)
    requires Inv(c) && Enabled(c, step) && Plain(step)
    ensures PlainRun(c, steps) && Exec(c, steps) == Apply(c, step) && Inv(Exec(c, steps))
  {
    steps := PlainOne(c, step);
    InvStep(c, step);
  }

  /** Session i goes on by itself while the deployment stands still around it. */
  lemma {:induction false} LiftOwn(c: State, acts: seq<L.Step>, i: nat) returns (steps: seq<Step>)
    requires L.Valid(c.locks, acts) && F.ByItself(acts, i) && c.locks.Is(i) && c.locks.sessions[i].kind != L.Account
    ensures PlainRun(c, steps) && Exec(c, steps) == c.(locks := L.Exec(c.locks, acts))
    ensures forall step :: step in steps ==> step.Lock?
    decreases |acts|
  {
    if acts == [] {
      steps := [];
    } else {
      L.OnlyActorMoves(c.locks, acts[0]);
      var rest := LiftOwn(Apply(c, Lock(acts[0])), acts[1..], i);
      steps := Runs.Cons(Apply, c, Lock(acts[0]), rest);
    }
  }

  /** Session i has just begun for the batch of the flush, and nothing else has happened. */
  ghost predicate Begun(c: State, d: State, p: nat, f: nat)
    requires p < |c.procs| && f < |c.procs[p].flights| && c.procs[p].flights[f].wallet < |c.pool|
  {
    var flight, i := c.procs[p].flights[f], |c.locks.sessions|;
    var w := c.pool[flight.wallet];
    && d.locks.Is(i)
    && d.locks.sessions[i] == L.Session(p, w, L.KeyOf(w), L.Batch, Tag(p, flight.batch), None, L.Local, None, "", false)
    && d.locks.entries == c.locks.entries && d.locks.distributed == c.locks.distributed
    && d.locks.accepted == c.locks.accepted && d.locks.base == c.locks.base
    && p < |d.procs| && f < |d.procs[p].flights| && d.procs[p].flights[f] == flight.(pc := B.InBatch)
    && (p, Of(B.ByFlight(f))) in d.current && d.current[(p, Of(B.ByFlight(f)))] == i
  }

  /** The flush takes its free wallet for its batch. */
  lemma BatchBegins(c: State, p: nat, f: nat) returns (steps: seq<Step>)
    requires Inv(c) && p < |c.procs| && f < |c.procs[p].flights| && c.procs[p].flights[f].pc == B.WantBatch
    requires c.procs[p].flights[f].wallet !in c.procs[p].walletLocks && c.procs[p].flights[f].wallet < |c.pool|
    ensures PlainRun(c, steps) && Inv(Exec(c, steps)) && Begun(c, Exec(c, steps), p, f)
  {
    var b := B.TakeBatch(f);
    ClusterProgress.CanEnter(c, p, b);
    steps := PlainStep(c, Enter(p, b, L.Batch));
    BeginSession(c.locks, SessionStart(c, p, b, L.Batch));
  }

  /** What the submission of a batch reports when its session goes this way. */
  function Reported(fate: F.Fate, err: string): B.Outcome {
    B.Outcome(if fate.Well() then fate.hash else "", if fate.Well() && fate.mined then None else Some(err))
  }

  /** What the session reports after this way, and what the ledger holds. */
  lemma AfterReports(l: L.State, i: nat, t: Option<L.Token>, fate: F.Fate, delivered: bool)
    requires l.Is(i) && l.sessions[i].kind == L.Batch
    ensures var m := F.After(F.With(l, i, l.sessions[i].(token := t)), i, fate, delivered);
      && m.Is(i) && m.accepted == F.LedgerAfter(l, i, fate)
      && m.sessions[i].pc == L.Unlocking && m.sessions[i].hash == Reported(fate, "").hash
      && m.sessions[i].ok == Reported(fate, "").Ok()
  {
  }

  /** The session of the flush goes this way, up to its unlocking. */
  lemma BatchRuns(c: State, i: nat, fate: F.Fate, delivered: bool) returns (steps: seq<Step>, l: L.State)
    requires Inv(c) && c.locks.Is(i) && c.locks.sessions[i].pc == L.Local && c.locks.sessions[i].kind == L.Batch
    requires F.Possible(c.locks, i, fate)
    ensures PlainRun(c, steps) && Inv(Exec(c, steps)) && Exec(c, steps) == c.(locks := l)
    ensures l.Is(i) && l.accepted == F.LedgerAfter(c.locks, i, fate)
    ensures l.sessions[i].pc == L.Unlocking && l.sessions[i].hash == Reported(fate, "").hash
    ensures l.sessions[i].ok == Reported(fate, "").Ok()
  {
    var acts, t := F.FromLocal(c.locks, i, fate, delivered);
    l := L.Exec(c.locks, acts);
    AfterReports(c.locks, i, t, fate, delivered);
    steps := LiftOwn(c, acts, i);
    InvRun(c, steps);
  }

  /** The flush has this outcome for its batch, and its wallet is free for others. */
  ghost predicate Settled(flight: B.Flight, d: State, p: nat, f: nat, o: B.Outcome) {
    && p < |d.procs| && f < |d.procs[p].flights| && flight.wallet !in d.procs[p].walletLocks
    && d.procs[p].flights[f] ==
       flight.(pc := if o.Ok() then B.Spread(0) else if |flight.batch| > 1 then B.WantOne(0) else B.ReplyErr,
               attempts := [B.Attempt(flight.batch, o)])
  }

  lemma ReturnsWith(s: B.State, f: nat, o: B.Outcome)
    requires BatcherSafety.FlightsInv(s) && f < |s.flights| && s.flights[f].pc == B.InBatch
    ensures var step := B.SubmitBatch(f, o);
      && B.Enabled(s, step)
      && var t, was := B.Apply(s, step), s.flights[f];
         && f < |t.flights| && was.wallet !in t.walletLocks
         && t.flights[f] == was.(pc := if o.Ok() then B.Spread(0) else if |was.batch| > 1 then B.WantOne(0)
                                       else B.ReplyErr,
                                 attempts := [B.Attempt(was.batch, o)])
  {
    assert BatcherSafety.FlightShape(s.flights[f]);
  }

  /** Session of the flush, about to unlock, with what this outcome reports. */
  ghost predicate Reporting(c: State, p: nat, f: nat, o: B.Outcome) {
    && (p, Of(B.ByFlight(f))) in c.current && c.locks.Is(c.current[(p, Of(B.ByFlight(f)))])
    && var me := c.locks.sessions[c.current[(p, Of(B.ByFlight(f)))]];
       me.pc == L.Unlocking && me.ok == o.Ok() && me.hash == o.hash
  }

  lemma LeavesWith(c: State, p: nat, f: nat, o: B.Outcome)
    requires p < |c.procs| && f < |c.procs[p].flights| && c.procs[p].flights[f].pc == B.InBatch
    requires BatcherSafety.FlightsInv(c.procs[p]) && Reporting(c, p, f, o)
    ensures var step := Leave(p, B.SubmitBatch(f, o));
      && Enabled(c, step) && Settled(c.procs[p].flights[f], Apply(c, step), p, f, o)
      && Apply(c, step).locks.accepted == c.locks.accepted
  {
    ReturnsWith(c.procs[p], f, o);
  }

  /** The submission of the batch returns what its session reports. */
  lemma BatchReturns(c: State, p: nat, f: nat, o: B.Outcome) returns (steps: seq<Step>)
    requires Inv(c) && p < |c.procs| && f < |c.procs[p].flights| && c.procs[p].flights[f].pc == B.InBatch
    requires Reporting(c, p, f, o)
    ensures PlainRun(c, steps) && Inv(Exec(c, steps)) && Settled(c.procs[p].flights[f], Exec(c, steps), p, f, o)
    ensures Exec(c, steps).locks.accepted == c.locks.accepted
  {
    LeavesWith(c, p, f, o);
    steps := PlainStep(c, Leave(p, B.SubmitBatch(f, o)));
  }

  /** The flush waits for its wallet, which is free, and the entries leave room for this way. */
  ghost predicate MayGo(c: State, p: nat, f: nat, fate: F.Fate) {
    && p < |c.procs| && f < |c.procs[p].flights| && c.procs[p].flights[f].pc == B.WantBatch
    && c.procs[p].flights[f].wallet < |c.pool| && c.procs[p].flights[f].wallet !in c.procs[p].walletLocks
    && F.Room(c.locks, ClusterRetry.KeyOf(c, p, f), fate)
  }

  /** The ledger after that: one transaction more, with the operations of the batch, if the node accepted it. */
  ghost predicate Booked(c: State, accepted: map<L.Wallet, seq<L.Tx>>, p: nat, f: nat, fate: F.Fate)
    requires p < |c.procs| && f < |c.procs[p].flights| && c.procs[p].flights[f].wallet < |c.pool|
  {
    var w, batch := c.pool[c.procs[p].flights[f].wallet], c.procs[p].flights[f].batch;
    var tx := L.Tx(|c.locks.sessions|, c.locks.Pending(w), fate.Hash(), Tag(p, batch));
    accepted == if fate.Accepted() then c.locks.accepted[w := c.locks.Accepted(w) + [tx]] else c.locks.accepted
  }

  lemma BegunMayGo(c: State, d: State, p: nat, f: nat, fate: F.Fate)
    requires MayGo(c, p, f, fate) && Begun(c, d, p, f)
    ensures F.Possible(d.locks, |c.locks.sessions|, fate)
    ensures Booked(c, F.LedgerAfter(d.locks, |c.locks.sessions|, fate), p, f, fate)
  {
  }

  /**
   * Whatever can become of a submission does. From every state that a run can reach, a flush that finds its wallet
   * free may see each outcome for which the entries leave room: the lock server refuses or fails, fn returns
   * before it sends, the node refuses, accepts, or accepts and reports an error, and the wait for mining succeeds
   * or fails. It is left with exactly the stated outcome, and the chain with the transaction if it was accepted.
   */
  lemma EveryOutcomeHappens(g: Setup, past: seq<Step>, p: nat, f: nat, fate: F.Fate, delivered: bool, err: string)
    returns (steps: seq<Step>)
    requires ProperPool(g.pool) && Valid(Init(g), past) && MayGo(Exec(Init(g), past), p, f, fate)
    ensures var c := Exec(Init(g), past);
      && PlainRun(c, steps)
      && Settled(c.procs[p].flights[f], Exec(c, steps), p, f, Reported(fate, err))
      && Booked(c, Exec(c, steps).locks.accepted, p, f, fate)
  {
    Reachable(g, past);
    steps := GoesThisWay(Exec(Init(g), past), p, f, fate, delivered, err);
  }

  lemma GoesThisWay(c: State, p: nat, f: nat, fate: F.Fate, delivered: bool, err: string) returns (steps: seq<Step>)
    requires Inv(c) && MayGo(c, p, f, fate)
    ensures PlainRun(c, steps) && Inv(Exec(c, steps))
    ensures Settled(c.procs[p].flights[f], Exec(c, steps), p, f, Reported(fate, err))
    ensures Booked(c, Exec(c, steps).locks.accepted, p, f, fate)
  {
    var i := |c.locks.sessions|;
    steps := BatchBegins(c, p, f);
    BegunMayGo(c, Exec(c, steps), p, f, fate);
    var mine, l := BatchRuns(Exec(c, steps), i, fate, delivered);
    steps := PlainJoin(c, steps, mine);
    var back := BatchReturns(Exec(c, steps), p, f, Reported(fate, err));
    steps := PlainJoin(c, steps, back);
  }

  // ---------- Clients can be told success ----------

  lemma TellsOne(s: B.State, f: nat, k: nat)
    requires BatcherSafety.Inv(s) && f < |s.flights| && s.flights[f].pc == B.Spread(k)
    ensures B.Enabled(s, B.Tell(f)) && k < |s.flights[f].batch|
    ensures var g := B.Apply(s, B.Tell(f)).flights;
      && f < |g|
      && g[f] == s.flights[f].(pc := if k + 1 < |s.flights[f].batch| then B.Spread(k + 1) else B.Leaving)
  {
    assert BatcherSafety.FlightShape(s.flights[f]);
    BatcherSafety.MailboxFree(s, f);
  }

  lemma TellNext(c: State, p: nat, f: nat, k: nat) returns (steps: seq<Step>)
    requires Inv(c) && p < |c.procs| && f < |c.procs[p].flights| && c.procs[p].flights[f].pc == B.Spread(k)
    ensures k < |c.procs[p].flights[f].batch|
    ensures PlainRun(c, steps) && Inv(Exec(c, steps)) && p < |Exec(c, steps).procs|
    ensures var g, flight := Exec(c, steps).procs[p].flights, c.procs[p].flights[f];
      && f < |g|
      && g[f] == flight.(pc := if k + 1 < |flight.batch| then B.Spread(k + 1) else B.Leaving)
  {
    TellsOne(c.procs[p], f, k);
    steps := PlainStep(c, Inner(p, B.Tell(f)));
  }

  /** The flush has the k-th operation of its batch left to answer, and all the rest, with the same success. */
  lemma {:induction false} TellRest(c: State, p: nat, f: nat, k: nat) returns (steps: seq<Step>)
    requires Inv(c) && p < |c.procs| && f < |c.procs[p].flights| && c.procs[p].flights[f].pc == B.Spread(k)
    ensures PlainRun(c, steps) && Inv(Exec(c, steps)) && p < |Exec(c, steps).procs|
    ensures var g := Exec(c, steps).procs[p].flights;
      f < |g| && g[f] == c.procs[p].flights[f].(pc := B.Leaving)
    decreases |c.procs[p].flights[f].batch| - k
  {
    steps := TellNext(c, p, f, k);
    if k + 1 < |c.procs[p].flights[f].batch| {
      var rest := TellRest(Exec(c, steps), p, f, k + 1);
      steps := PlainJoin(c, steps, rest);
    }
  }

  /** Every operation of the batch has been answered with success, under this hash. */
  ghost predicate AllSucceeded(s: B.State, batch: seq<nat>, hash: string) {
    forall k :: 0 <= k < |batch| ==>
      batch[k] < |s.clients| && s.clients[batch[k]].answers == [B.Outcome(hash, None)]
  }

  lemma ToldAll(s: B.State, f: nat, hash: string)
    requires BatcherSafety.Inv(s) && f < |s.flights| && s.flights[f].pc == B.Leaving
    requires s.flights[f].attempts != [] && s.flights[f].attempts[0].outcome == B.Outcome(hash, None)
    ensures AllSucceeded(s, s.flights[f].batch, hash)
  {
    forall k | 0 <= k < |s.flights[f].batch|
      ensures var q := s.flights[f].batch[k]; q < |s.clients| && s.clients[q].answers == [B.Outcome(hash, None)]
    {
      assert BatcherSafety.ToldAt(s, f, k);
    }
  }

  /**
   * Whatever has happened before and whatever the rest of the deployment is doing: when a flush finds its wallet
   * free, and no entry in its way, a continuation exists in which its transaction is mined and every operation
   * of its batch is answered with success, under the hash of that transaction; without cancellation or expiry.
   */
  lemma CanSucceed(g: Setup, past: seq<Step>, p: nat, f: nat, hash: string) returns (steps: seq<Step>)
    requires ProperPool(g.pool) && Valid(Init(g), past)
    requires MayGo(Exec(Init(g), past), p, f, F.Sends(true, false, hash, true))
    ensures var c := Exec(Init(g), past);
      && PlainRun(c, steps) && p < |Exec(c, steps).procs|
      && AllSucceeded(Exec(c, steps).procs[p], c.procs[p].flights[f].batch, hash)
  {
    Reachable(g, past);
    var c := Exec(Init(g), past);
    steps := GoesThisWay(c, p, f, F.Sends(true, false, hash, true), true, "");
    var rest := TellRest(Exec(c, steps), p, f, 0);
    steps := PlainJoin(c, steps, rest);
    ToldAll(Exec(c, steps).procs[p], f, hash);
  }

  /** A run in which clients are told success: one process and one wallet, with Redis or without. */
  lemma ClientsAreToldSuccess(g: Setup, hash: string) returns (steps: seq<Step>)
    requires g.processes == 1 && |g.pool| == 1 && ProperPool(g.pool)
    ensures PlainRun(Init(g), steps)
    ensures var c := Exec(Init(g), steps); c.procs != [] && AllSucceeded(c.procs[0], [0, 1], hash)
  {
    var c := Init(g);
    assert c.procs == [B.Init(1)];
    var bs := ClusterWitness.Gather();
    steps := ClusterWitness.Lift(c, bs);
    var d := Exec(c, steps);
    assert d.procs == [ClusterWitness.Gathered()] && d.locks == c.locks && d.pool == c.pool;
    var rest := CanSucceed(g, steps, 0, 0, hash);
    steps := PlainJoin(c, steps, rest);
  }
}
