/** Deadlock freedom and termination of the batcher, if `submit` always returns. */
module BatcherProgress {
  import opened Common
  import opened Batcher
  import opened BatcherSafety
  import opened BatcherTheorems
  import RoundRobin
  import Runs

  /** Nothing is left to do: no client waits, no operation is under way, every lock and slot is free. */
  ghost predicate Quiescent(s: State) {
    && (forall c :: 0 <= c < |s.clients| ==> s.clients[c].pc.Returned?)
    && s.channel == [] && s.dispatcher.Idle?
    && (forall i :: 0 <= i < |s.flights| ==> s.flights[i].pc.Gone?)
    && (forall j :: 0 <= j < |s.senders| ==> s.senders[j].pc.Done?)
  }

  /** A step of the system itself: neither new work nor a client giving up. */
  ghost predicate Internal(step: Step) { !step.IsArrival() && !step.Cancel? }

  // ---------- Something can always move ----------

  lemma FlightMoves(s: State, i: nat) returns (step: Step)
    requires Inv(s) && i < |s.flights| && !s.flights[i].pc.Gone?
    ensures Enabled(s, step) && Internal(step) && (step.OfFlight() || step.OfSender())
    ensures step.Tell? ==> step.f == i
  {
    var f := s.flights[i];
    assert FlightShape(f);
    match f.pc
    case WantBatch => step := WalletMoves(s, f.wallet, TakeBatch(i));
    case InBatch => step := SubmitBatch(i, Outcome("", None));
    case Spread(_) => MailboxFree(s, i); step := Tell(i);
    case WantOne(_) => step := WalletMoves(s, f.wallet, TakeOne(i));
    case InOne(_) => step := SubmitOne(i, Outcome("", None));
    case Reply(_) => MailboxFree(s, i); step := Tell(i);
    case ReplyErr => MailboxFree(s, i); step := Tell(i);
    case Leaving => SlotTaken(s, i); step := Leave(i);
  }

  lemma SlotTaken(s: State, i: nat)
    requires SlotInv(s) && i < |s.flights| && !s.flights[i].pc.Gone?
    ensures s.slots > 0
  {
    SumZero(s.flights, InFlight);
    assert InFlight(s.flights[i]) == 1;
  }

  /** Whoever waits for a wallet can take it, or its holder can return. */
  lemma WalletMoves(s: State, w: nat, take: Step) returns (step: Step)
    requires Inv(s) && take.Takes()
    requires w !in s.walletLocks ==> Enabled(s, take)
    ensures Enabled(s, step) && Internal(step) && (step.Takes() || step.Returns())
  {
    if w !in s.walletLocks {
      step := take;
    } else {
      assert HolderInside(s, w, s.walletLocks[w]);
      match s.walletLocks[w]
      case BySender(j) => step := Finish(j);
      case ByFlight(i) =>
        assert FlightShape(s.flights[i]);
        step := if s.flights[i].pc.InBatch? then SubmitBatch(i, Outcome("", None)) else SubmitOne(i, Outcome("", None));
    }
  }

  lemma DispatcherMoves(s: State) returns (step: Step)
    requires Inv(s) && s.wallets > 0 && (s.channel != [] || !s.dispatcher.Idle?)
    requires forall i :: 0 <= i < |s.flights| ==> s.flights[i].pc.Gone?
    ensures Enabled(s, step) && Internal(step) && step.OfDispatcher()
  {
    match s.dispatcher
    case Idle => step := Receive;
    case Draining(b) => step := if |b| < MAX_BATCH && s.channel != [] then Drain else EndDrain;
    case Choosing(_, _) => step := Choose(None);
    case WantSlot(_, _, _) =>
      SumZero(s.flights, InFlight);
      step := Launch;
  }

  lemma ClientMoves(s: State, c: nat) returns (step: Step)
    requires Inv(s) && c < |s.clients| && !s.clients[c].pc.Returned?
    requires forall i :: 0 <= i < |s.flights| ==> s.flights[i].pc.Gone?
    requires s.channel == [] && s.dispatcher.Idle?
    ensures Enabled(s, step) && Internal(step)
  {
    var me := s.clients[c];
    if me.pc.WantAccount? && me.account.value in s.accountLocks {
      step := HolderMoves(s, s.accountLocks[me.account.value]);
    } else if me.pc.WantAccount? {
      step := TakeAccount(c);
    } else {
      step := HolderMoves(s, c);
    }
  }

  lemma HolderMoves(s: State, c: nat) returns (step: Step)
    requires Inv(s) && c < |s.clients| && s.clients[c].pc.HoldsAccount()
    requires forall i :: 0 <= i < |s.flights| ==> s.flights[i].pc.Gone?
    requires s.channel == [] && s.dispatcher.Idle?
    ensures Enabled(s, step) && Internal(step)
  {
    match s.clients[c].pc
    case Preparing => step := Prepare(c, true);
    case Offering => step := Offer(c);
    case Awaiting =>
      var i, k := DispatchedFind(s.flights, c);
      assert ToldAt(s, i, k);
      step := Collect(c);
  }

  /** As long as an operation is on its way, a flush, the dispatcher or a sender in their way can move. */
  lemma QueueMoves(s: State) returns (step: Step)
    requires Inv(s) && s.wallets > 0 && s.channel != []
    ensures Enabled(s, step) && (step.OfDispatcher() || step.OfFlight() || step.OfSender())
  {
    if i :| 0 <= i < |s.flights| && !s.flights[i].pc.Gone? {
      step := FlightMoves(s, i);
    } else {
      step := DispatcherMoves(s);
    }
  }

  /**
   * Deadlock freedom: as long as anything is unfinished, including a client that holds an account
   * lock while its operation is in the batcher, some step of the system is enabled.
   */
  lemma SomethingMoves(s: State) returns (step: Step)
    requires Inv(s) && s.wallets > 0 && !Quiescent(s)
    ensures Enabled(s, step) && Internal(step)
  {
    if i :| 0 <= i < |s.flights| && !s.flights[i].pc.Gone? {
      step := FlightMoves(s, i);
    } else if s.channel != [] || !s.dispatcher.Idle? {
      step := DispatcherMoves(s);
    } else if c :| 0 <= c < |s.clients| && !s.clients[c].pc.Returned? {
      step := ClientMoves(s, c);
    } else {
      var j :| 0 <= j < |s.senders| && !s.senders[j].pc.Done?;
      step := SenderMoves(s, j);
    }
  }

  lemma SenderMoves(s: State, j: nat) returns (step: Step)
    requires Inv(s) && j < |s.senders| && !s.senders[j].pc.Done?
    ensures Enabled(s, step) && Internal(step)
  {
    if s.senders[j].pc.In? {
      step := Finish(j);
    } else {
      step := WalletMoves(s, s.senders[j].wallet, TakeWallet(j));
    }
  }

  // ---------- Nothing moves forever ----------

  ghost function ClientWork(c: Client): nat {
    match c.pc
    case WantAccount => 15
    case Preparing => 14
    case Offering => 13
    case Awaiting => 1
    case Returned(_) => 0
  }

  ghost function DispatcherWork(d: Dispatcher): nat {
    match d
    case Idle => 0
    case Draining(b) => 3 * |b| + 7
    case Choosing(b, _) => 3 * |b| + 6
    case WantSlot(b, _, _) => 3 * |b| + 5
  }

  ghost function FlightWork(f: Flight): nat {
    var k := |f.batch|;
    match f.pc
    case WantBatch => 3 * k + 4
    case InBatch => 3 * k + 3
    case Spread(n) => if n <= k then k - n + 1 else 0
    case WantOne(n) => if n <= k then 3 * (k - n) + 2 else 0
    case InOne(n) => if n <= k then 3 * (k - n) + 1 else 0
    case Reply(n) => if n <= k then 3 * (k - n) else 0
    case ReplyErr => 2
    case Leaving => 1
    case Gone => 0
  }

  ghost function SenderWork(j: Sender): nat {
    match j.pc
    case Want => 2
    case In => 1
    case Done => 0
  }

  /** An upper bound on the steps the system can still make by itself. */
  ghost function Work(s: State): nat {
    Sum(s.clients, ClientWork) + 11 * |s.channel| + DispatcherWork(s.dispatcher)
      + Sum(s.flights, FlightWork) + Sum(s.senders, SenderWork)
  }

  lemma ClientsWork(s: State, step: Step)
    requires Enabled(s, step)
    ensures var d := Sum(Apply(s, step).clients, ClientWork) - Sum(s.clients, ClientWork);
      && (step.Arrive? ==> d <= 15)
      && (step.OfClient() ==> d <= -1)
      && (step.Offer? ==> d == -12)
      && (!step.OfClient() && !step.Arrive? ==> d == 0)
  {
    if step.Arrive? {
      SumAppend(s.clients, Apply(s, step).clients[|s.clients|], ClientWork);
    } else if step.OfClient() {
      MoveClientWork(s, step);
      SumUpdate(s.clients, step.c, MoveClient(step, s.clients[step.c]), ClientWork);
    } else if step.Tell? {
      TellWork(s, step);
    }
  }

  lemma MoveClientWork(s: State, step: Step)
    requires Enabled(s, step) && step.OfClient()
    ensures var d := ClientWork(MoveClient(step, s.clients[step.c])) - ClientWork(s.clients[step.c]);
      if step.Offer? then d == -12 else d <= -1
  {
  }

  lemma TellWork(s: State, step: Step)
    requires Enabled(s, step) && step.Tell?
    ensures Sum(Apply(s, step).clients, ClientWork) == Sum(s.clients, ClientWork)
  {
    var q := s.flights[step.f].batch[s.flights[step.f].Told()];
    SumUpdate(s.clients, q, Apply(s, step).clients[q], ClientWork);
  }

  lemma LaunchWork(s: State)
    requires Enabled(s, Launch)
    ensures Sum(Apply(s, Launch).flights, FlightWork) == Sum(s.flights, FlightWork) + 3 * |s.dispatcher.batch| + 4
  {
    SumAppend(s.flights, Apply(s, Launch).flights[|s.flights|], FlightWork);
  }

  lemma FlightsWork(s: State, step: Step)
    requires FlightsInv(s) && Enabled(s, step) && !step.Launch?
    ensures var d := Sum(Apply(s, step).flights, FlightWork) - Sum(s.flights, FlightWork);
      if step.OfFlight() then d <= -1 else d == 0
  {
    if step.OfFlight() {
      FlightWorkShrinks(s, step);
      SumUpdate(s.flights, step.f, MoveFlight(step, s.flights[step.f]), FlightWork);
    }
  }

  lemma FlightWorkShrinks(s: State, step: Step)
    requires FlightsInv(s) && Enabled(s, step) && step.OfFlight()
    ensures FlightWork(MoveFlight(step, s.flights[step.f])) < FlightWork(s.flights[step.f])
  {
    assert FlightShape(s.flights[step.f]);
  }

  lemma SendersWork(s: State, step: Step)
    requires Enabled(s, step)
    ensures var d := Sum(Apply(s, step).senders, SenderWork) - Sum(s.senders, SenderWork);
      && (step.ArriveSender? ==> d == 2)
      && (step.OfSender() ==> d == -1)
      && (!step.OfSender() && !step.ArriveSender? ==> d == 0)
  {
    if step.ArriveSender? {
      SumAppend(s.senders, Sender(step.wallet, Want), SenderWork);
    } else if step.OfSender() {
      SumUpdate(s.senders, step.j, Apply(s, step).senders[step.j], SenderWork);
    }
  }

  lemma QueueWork(s: State, step: Step)
    requires Enabled(s, step)
    ensures var d := 11 * |Apply(s, step).channel| + DispatcherWork(Apply(s, step).dispatcher)
                     - 11 * |s.channel| - DispatcherWork(s.dispatcher);
      && (step.Offer? ==> d == 11)
      && (step.Launch? ==> d == -(3 * |s.dispatcher.batch| + 5))
      && (step.OfDispatcher() && !step.Launch? ==> d <= -1)
      && (!step.Offer? && !step.OfDispatcher() ==> d == 0)
  {
  }

  /** Every step but an arrival uses up work; an arrival adds at most 15. */
  lemma WorkShrinks(s: State, step: Step)
    requires FlightsInv(s) && Enabled(s, step)
    ensures !step.IsArrival() ==> Work(Apply(s, step)) < Work(s)
    ensures step.IsArrival() ==> Work(Apply(s, step)) <= Work(s) + 15
  {
    ClientsWork(s, step);
    QueueWork(s, step);
    SendersWork(s, step);
    if step.Launch? {
      LaunchWork(s);
    } else {
      FlightsWork(s, step);
    }
  }

  ghost function Arrivals(steps: seq<Step>): nat {
    if steps == [] then 0 else One(steps[0].IsArrival()) + Arrivals(steps[1..])
  }

  lemma {:induction false} RunLength(s: State, steps: seq<Step>)
    requires Inv(s) && Valid(s, steps)
    ensures |steps| + Work(Exec(s, steps)) <= Work(s) + 16 * Arrivals(steps)
    decreases |steps|
  {
    if steps == [] {
    } else {
      InvStep(s, steps[0]);
      WorkShrinks(s, steps[0]);
      RunLength(Apply(s, steps[0]), steps[1..]);
    }
  }

  /** A run with finitely many arrivals is finite: at most 16 steps per arrival, whatever the interleaving. */
  lemma RunsEnd(wallets: nat, steps: seq<Step>)
    requires Valid(Init(wallets), steps)
    ensures |steps| <= 16 * Arrivals(steps)
  {
    InitInv(wallets);
    RunLength(Init(wallets), steps);
  }

  /** One result was sent, and the client returned with it or had given up. */
  ghost predicate AnsweredOnce(c: Client) {
    |c.answers| == 1 && (c.pc == Returned(Some(c.answers[0])) || c.pc == Returned(None))
  }

  /**
   * When a run can go no further by itself, everything is finished: every operation the channel
   * accepted has exactly one answer, every client has returned, with its answer unless it gave up,
   * and no lock or semaphore slot is held. Needs a pool with at least one wallet.
   */
  lemma EndsAnswered(wallets: nat, steps: seq<Step>)
    requires Valid(Init(wallets), steps) && wallets > 0
    requires forall step :: Internal(step) ==> !Enabled(Exec(Init(wallets), steps), step)
    ensures var s := Exec(Init(wallets), steps);
      && Quiescent(s)
      && (forall c :: 0 <= c < |s.clients| && c in s.accepted ==> AnsweredOnce(s.clients[c]))
      && s.walletLocks == map[] && s.accountLocks == map[] && s.slots == 0
  {
    Reachable(wallets, steps);
    var s := Exec(Init(wallets), steps);
    if !Quiescent(s) {
      var step := SomethingMoves(s);
      assert false;
    }
    QuiescentIsAnswered(s);
  }

  lemma QuiescentIsAnswered(s: State)
    requires Inv(s) && Quiescent(s)
    ensures forall c :: 0 <= c < |s.clients| && c in s.accepted ==> AnsweredOnce(s.clients[c])
    ensures s.walletLocks == map[] && s.accountLocks == map[] && s.slots == 0
  {
    forall c | 0 <= c < |s.clients| && c in s.accepted
      ensures AnsweredOnce(s.clients[c])
    {
      var i, k := DispatchedFind(s.flights, c);
      assert ToldAt(s, i, k);
      assert s.clients[c].pc.result.Some? ==> s.clients[c].answers == [s.clients[c].pc.result.value];
    }
    SumZero(s.flights, InFlight);
    assert forall w :: w !in s.walletLocks;
    assert forall a :: a !in s.accountLocks;
  }

  /** From every reachable state the system can finish by itself. */
  lemma {:induction false} CanSettle(s: State) returns (steps: seq<Step>)
    requires Inv(s) && s.wallets > 0
    ensures Valid(s, steps) && Quiescent(Exec(s, steps))
    ensures forall k :: 0 <= k < |steps| ==> Internal(steps[k])
    decreases Work(s)
  {
    if Quiescent(s) {
      steps := [];
    } else {
      var step := SomethingMoves(s);
      InvStep(s, step);
      WorkShrinks(s, step);
      var rest := CanSettle(Apply(s, step));
      steps := Runs.Cons(Apply, s, step, rest);
    }
  }

  // ---------- Wallets work in parallel ----------

  /** n flushes are submitting at once, flush i with wallet i, and the dispatcher is idle. */
  ghost predicate Busy(s: State, n: nat) {
    && s.dispatcher.Idle? && s.channel == [] && s.slots == n && |s.flights| == n
    && (forall i :: 0 <= i < n ==> s.flights[i].pc == InBatch && s.flights[i].wallet == i)
    && (forall w :: w in s.walletLocks ==> w < n)
  }

  /** The pool is used to the full: for every pool size some run has all its wallets submitting at once. */
  lemma {:induction false} AllWalletsInParallel(wallets: nat, n: nat) returns (steps: seq<Step>)
    requires n <= wallets
    ensures Valid(Init(wallets), steps) && Busy(Exec(Init(wallets), steps), n)
  {
    if n == 0 {
      steps := [];
    } else {
      steps := AllWalletsInParallel(wallets, n - 1);
      WalletsKept(Init(wallets), steps);
      steps := OneMore(wallets, steps, n - 1);
    }
  }

  lemma OneMore(wallets: nat, steps: seq<Step>, n: nat) returns (more: seq<Step>)
    requires Valid(Init(wallets), steps) && n < Exec(Init(wallets), steps).wallets
    requires Busy(Exec(Init(wallets), steps), n)
    ensures Valid(Init(wallets), more) && Busy(Exec(Init(wallets), more), n + 1)
  {
    more := GatherOne(wallets, steps);
    var s := Exec(Init(wallets), more);
    CursorReaches(n, s.wallets);
    LaunchOne(s, n);
    more := Then(Init(wallets), more, Choose(Some(n)));
    more := Then(Init(wallets), more, Launch);
    more := Then(Init(wallets), more, TakeBatch(n));
  }

  /** A gathered batch goes to the next wallet, which is free. */
  lemma LaunchOne(s: State, n: nat)
    requires s.dispatcher.Choosing? && n < s.wallets && RoundRobin.WalletIndex(Some(n), s.wallets) == n
    requires Busy(s.(dispatcher := Idle), n)
    ensures Enabled(s, Choose(Some(n)))
    ensures var t := Apply(s, Choose(Some(n)));
      Enabled(t, Launch) &&
      var u := Apply(t, Launch);
      Enabled(u, TakeBatch(n)) && Busy(Apply(u, TakeBatch(n)), n + 1)
  {
    var t := Apply(s, Choose(Some(n)));
    assert t == s.(dispatcher := WantSlot(s.dispatcher.batch, s.dispatcher.sawEmpty, n));
    var u := Apply(t, Launch);
    assert u.flights == s.flights + [Flight(n, s.dispatcher.batch, s.dispatcher.sawEmpty, [], WantBatch)];
  }

  lemma CursorReaches(i: nat, n: nat)
    requires i < n
    ensures RoundRobin.WalletIndex(Some(i), n) == i
  {
    RoundRobin.CorrectedIsEuclidean(i, n);
    RoundRobin.DivModUnique(i, n, 0, i);
  }

  /** One operation arrives at an idle batcher and becomes a batch. */
  lemma GatherOne(wallets: nat, steps: seq<Step>) returns (more: seq<Step>)
    requires Valid(Init(wallets), steps)
    requires Exec(Init(wallets), steps).dispatcher.Idle? && Exec(Init(wallets), steps).channel == []
    ensures Valid(Init(wallets), more)
    ensures var s, t := Exec(Init(wallets), steps), Exec(Init(wallets), more);
      t == s.(clients := t.clients, accepted := t.accepted, dispatcher := Choosing([|s.clients|], true))
  {
    more := OfferOne(wallets, steps);
    more := Then(Init(wallets), more, Receive);
    more := Then(Init(wallets), more, EndDrain);
  }

  lemma OfferOne(wallets: nat, steps: seq<Step>) returns (more: seq<Step>)
    requires Valid(Init(wallets), steps) && Exec(Init(wallets), steps).channel == []
    ensures Valid(Init(wallets), more)
    ensures var s, t := Exec(Init(wallets), steps), Exec(Init(wallets), more);
      t == s.(clients := t.clients, accepted := t.accepted, channel := [|s.clients|])
  {
    more := Then(Init(wallets), steps, Arrive(None));
    more := Then(Init(wallets), more, Offer(|Exec(Init(wallets), steps).clients|));
  }
}
