/** The exact condition under which an account of one process keeps at most one unresolved operation. */
module BatcherSerial {
  import opened Common
  import opened Batcher
  import opened BatcherSafety
  import opened BatcherTheorems
  import BatcherProgress
  import Runs

  /** Every continuation without cancellation keeps the account at one unresolved operation. */
  ghost predicate StaysSerial(s: State, a: string) {
    forall steps :: Valid(s, steps) && NoCancel(steps) ==> Serial(Exec(s, steps), a)
  }

  /** The dispatcher has a complete batch and takes nothing from the channel before it has launched it. */
  ghost predicate HandFull(d: Dispatcher) { !d.Idle? && (d.Draining? ==> |d.batch| >= MAX_BATCH) }

  /**
   * The channel is full and stays so until the operation is answered: the only wallet's slot is taken by the
   * flush that has the operation, and the dispatcher waits for that slot. (Without any wallet it waits forever.)
   */
  ghost predicate Blocked(s: State, c: nat) {
    && |s.channel| >= CHANNEL_CAP && HandFull(s.dispatcher)
    && (s.wallets == 0 || (s.wallets == 1 && InFlush(s, c)))
  }

  /** Nothing is abandoned, or only an operation that has to be answered before the channel takes another one. */
  ghost predicate Harmless(s: State, a: string) {
    Serial(s, a) && forall c :: AbandonedOp(s, a, c) ==> Blocked(s, c)
  }

  // ---------- What keeps an account serial ----------

  /** While the channel is blocked nothing gets in or out of it. */
  lemma BlockedStep(s: State, step: Step, c: nat)
    requires SlotInv(s) && QueueInv(s) && Blocked(s, c) && Enabled(s, step)
    ensures var t := Apply(s, step);
      && t.accepted == s.accepted && t.channel == s.channel && t.wallets == s.wallets
      && HandFull(t.dispatcher) && !step.Launch?
  {
    if InFlush(s, c) {
      var i: nat, k: nat :| HasAt(s, i, k, c) && s.flights[i].Told() <= k;
      BatcherProgress.SlotTaken(s, i);
    }
  }

  lemma OpenWasOpen(s: State, step: Step, a: string, c: nat)
    requires Enabled(s, step) && Apply(s, step).accepted == s.accepted && OpenOp(Apply(s, step), a, c)
    requires ClientInv(s)
    ensures OpenOp(s, a, c)
  {
    ClientsFrame(s, step);
  }

  lemma StaysBlocked(s: State, step: Step, a: string, c: nat)
    requires Inv(s) && Enabled(s, step) && Blocked(s, c) && OpenOp(Apply(s, step), a, c)
    ensures Blocked(Apply(s, step), c)
  {
    BlockedStep(s, step, c);
    InvStep(s, step);
    InFlushOrTold(s, c);
    FlightsStep(s, step);
    DispatchedSame(s.flights, Apply(s, step).flights);
    InFlushOrTold(Apply(s, step), c);
  }

  lemma AbandonedWasAbandoned(s: State, step: Step, a: string, c: nat)
    requires Inv(s) && Enabled(s, step) && !step.Cancel? && AbandonedOp(Apply(s, step), a, c)
    ensures AbandonedOp(s, a, c)
  {
    if !AbandonedOp(s, a, c) {
      OnlyGivingUpAbandons(s, step, a, c);
    }
  }

  lemma SerialStep(s: State, step: Step, a: string, c: nat, d: nat)
    requires Inv(s) && Harmless(s, a) && Enabled(s, step) && !step.Cancel?
    requires OpenOp(Apply(s, step), a, c) && OpenOp(Apply(s, step), a, d) && AbandonedOp(Apply(s, step), a, c)
    ensures c == d
  {
    AbandonedWasAbandoned(s, step, a, c);
    BlockedStep(s, step, c);
    OpenWasOpen(s, step, a, d);
  }

  lemma HarmlessStep(s: State, step: Step, a: string)
    requires Inv(s) && Harmless(s, a) && Enabled(s, step) && !step.Cancel?
    ensures Inv(Apply(s, step)) && Harmless(Apply(s, step), a)
  {
    var t := Apply(s, step);
    InvStep(s, step);
    forall c, d | OpenOp(t, a, c) && OpenOp(t, a, d)
      ensures c == d
    {
      if c != d {
        OneLiveOp(t, a, c, d);
        if AbandonedOp(t, a, c) {
          SerialStep(s, step, a, c, d);
        } else {
          SerialStep(s, step, a, d, c);
        }
      }
    }
    forall c | AbandonedOp(t, a, c)
      ensures Blocked(t, c)
    {
      AbandonedWasAbandoned(s, step, a, c);
      StaysBlocked(s, step, a, c);
    }
  }

  lemma {:induction false} HarmlessRun(s: State, steps: seq<Step>, a: string)
    requires Inv(s) && Harmless(s, a) && Valid(s, steps) && NoCancel(steps)
    ensures Serial(Exec(s, steps), a)
    decreases |steps|
  {
    if steps == [] {
    } else {
      HarmlessStep(s, steps[0], a);
      HarmlessRun(Apply(s, steps[0]), steps[1..], a);
    }
  }

  // ---------- What breaks it ----------

  /** The channel gets room without an answer for this operation. */
  ghost predicate Unblocked(s: State, c: nat) {
    s.wallets > 1 || !HandFull(s.dispatcher) || (s.wallets == 1 && c !in Dispatched(s.flights))
  }

  lemma NotBlocked(s: State, a: string, c: nat)
    requires Inv(s) && AbandonedOp(s, a, c) && |s.channel| >= CHANNEL_CAP && !Blocked(s, c)
    ensures Unblocked(s, c)
  {
    InFlushOrTold(s, c);
  }

  /** A flush in flight that does not have the operation. */
  lemma {:induction false} OtherFlight(s: State, a: string, c: nat) returns (i: nat)
    requires Inv(s) && AbandonedOp(s, a, c) && Unblocked(s, c) && HandFull(s.dispatcher)
    requires s.slots >= s.wallets
    ensures i < |s.flights| && !s.flights[i].pc.Gone? && c !in s.flights[i].batch
  {
    if c !in Dispatched(s.flights) {
      SumZero(s.flights, InFlight);
      i :| 0 <= i < |s.flights| && InFlight(s.flights[i]) != 0;
      NotIn(s.flights, i, c);
    } else {
      var f, k := DispatchedFind(s.flights, c);
      i := SecondFlight(s.flights, f);
      DispatchedDistinct(s);
      if c in s.flights[i].batch {
        var l :| 0 <= l < |s.flights[i].batch| && s.flights[i].batch[l] == c;
        OnePlace(s.flights, f, k, i, l);
      }
    }
  }

  lemma NotIn(flights: seq<Flight>, i: nat, c: nat)
    requires i < |flights| && c !in Dispatched(flights)
    ensures c !in flights[i].batch
  {
    if c in flights[i].batch {
      var k :| 0 <= k < |flights[i].batch| && flights[i].batch[k] == c;
      DispatchedHas(flights, i, k);
    }
  }

  lemma {:induction false} SecondFlight(flights: seq<Flight>, f: nat) returns (i: nat)
    requires f < |flights| && Sum(flights, InFlight) > 1
    ensures i < |flights| && i != f && !flights[i].pc.Gone?
  {
    SumUpdate(flights, f, flights[f].(pc := Gone), InFlight);
    var rest := flights[f := flights[f].(pc := Gone)];
    SumZero(rest, InFlight);
    i :| 0 <= i < |rest| && InFlight(rest[i]) != 0;
  }

  /** The step neither answers the operation nor moves its client. */
  lemma AbandonedStays(s: State, step: Step, a: string, c: nat)
    requires AbandonedOp(s, a, c) && Enabled(s, step) && !step.OfClient()
    requires step.Tell? ==> s.flights[step.f].batch[s.flights[step.f].Told()] != c
    ensures AbandonedOp(Apply(s, step), a, c)
  {
    ClientsFrame(s, step);
  }

  lemma RoomStep(s: State, a: string, c: nat) returns (step: Step)
    requires Inv(s) && AbandonedOp(s, a, c) && |s.channel| >= CHANNEL_CAP && Unblocked(s, c)
    ensures Enabled(s, step) && (step.OfDispatcher() || step.OfFlight() || step.OfSender())
    ensures step.Tell? ==> s.flights[step.f].batch[s.flights[step.f].Told()] != c
    ensures !step.OfDispatcher() ==> HandFull(s.dispatcher)
  {
    match s.dispatcher
    case Idle => step := Receive;
    case Draining(b) => step := if |b| < MAX_BATCH then Drain else EndDrain;
    case Choosing(_, _) => step := Choose(None);
    case WantSlot(_, _, _) =>
      if s.slots < s.wallets {
        step := Launch;
      } else {
        var i := OtherFlight(s, a, c);
        step := BatcherProgress.FlightMoves(s, i);
      }
  }

  lemma StaysUnblocked(s: State, step: Step, c: nat)
    requires Inv(s) && Enabled(s, step) && Unblocked(s, c) && |s.channel| >= CHANNEL_CAP
    requires step.OfDispatcher() || step.OfFlight() || step.OfSender()
    requires !step.OfDispatcher() ==> HandFull(s.dispatcher)
    ensures |Apply(s, step).channel| < CHANNEL_CAP || Unblocked(Apply(s, step), c)
  {
    if !step.Launch? {
      FlightsStep(s, step);
      DispatchedSame(s.flights, Apply(s, step).flights);
    }
  }

  /** The run gives the channel room while the operation stays abandoned. */
  ghost predicate MakesRoom(s: State, a: string, c: nat, steps: seq<Step>) {
    && Valid(s, steps) && NoCancel(steps) && Inv(Exec(s, steps))
    && AbandonedOp(Exec(s, steps), a, c) && |Exec(s, steps).channel| < CHANNEL_CAP
  }

  lemma MakesRoomCons(s: State, a: string, c: nat, step: Step, rest: seq<Step>)
    requires Enabled(s, step) && !step.Cancel? && MakesRoom(Apply(s, step), a, c, rest)
    ensures MakesRoom(s, a, c, [step] + rest)
  {
    var steps := Runs.Cons(Apply, s, step, rest);
  }

  lemma {:induction false} MakeRoom(s: State, a: string, c: nat) returns (steps: seq<Step>)
    requires Inv(s) && AbandonedOp(s, a, c) && (|s.channel| < CHANNEL_CAP || Unblocked(s, c))
    ensures MakesRoom(s, a, c, steps)
    decreases BatcherProgress.Work(s)
  {
    if |s.channel| < CHANNEL_CAP {
      steps := [];
    } else {
      var step := RoomStep(s, a, c);
      RoomNearer(s, a, c, step);
      var rest := MakeRoom(Apply(s, step), a, c);
      MakesRoomCons(s, a, c, step, rest);
      steps := [step] + rest;
    }
  }

  lemma RoomNearer(s: State, a: string, c: nat, step: Step)
    requires Inv(s) && AbandonedOp(s, a, c) && |s.channel| >= CHANNEL_CAP && Unblocked(s, c) && Enabled(s, step)
    requires step.OfDispatcher() || step.OfFlight() || step.OfSender()
    requires step.Tell? ==> s.flights[step.f].batch[s.flights[step.f].Told()] != c
    requires !step.OfDispatcher() ==> HandFull(s.dispatcher)
    ensures var t := Apply(s, step);
      && Inv(t) && AbandonedOp(t, a, c) && t.wallets == s.wallets
      && (|t.channel| < CHANNEL_CAP || Unblocked(t, c))
      && BatcherProgress.Work(t) < BatcherProgress.Work(s)
  {
    InvStep(s, step);
    AbandonedStays(s, step, a, c);
    StaysUnblocked(s, step, c);
    BatcherProgress.WorkShrinks(s, step);
  }

  lemma BreakHarmful(s: State, a: string) returns (steps: seq<Step>)
    requires Inv(s) && !Harmless(s, a)
    ensures Valid(s, steps) && NoCancel(steps) && !Serial(Exec(s, steps), a)
  {
    if !Serial(s, a) {
      steps := [];
    } else {
      var c :| AbandonedOp(s, a, c) && !Blocked(s, c);
      if |s.channel| >= CHANNEL_CAP {
        NotBlocked(s, a, c);
      }
      steps := MakeRoom(s, a, c);
      var rest := BreakSerial(Exec(s, steps), a, c);
      Runs.Compose(Apply, s, steps, rest);
      steps := steps + rest;
    }
  }

  /**
   * The exact condition. From any state that a run over any pool can reach, an account keeps at
   * most one unresolved operation on every continuation without cancellation if and only if none of its
   * operations is abandoned, or the one that is must be answered before the channel takes anything again.
   */
  lemma SerialIffHarmless(wallets: nat, past: seq<Step>, a: string)
    requires Valid(Init(wallets), past)
    ensures Harmless(Exec(Init(wallets), past), a) <==> StaysSerial(Exec(Init(wallets), past), a)
  {
    Reachable(wallets, past);
    var s := Exec(Init(wallets), past);
    if Harmless(s, a) {
      forall steps | Valid(s, steps) && NoCancel(steps)
        ensures Serial(Exec(s, steps), a)
      {
        HarmlessRun(s, steps, a);
      }
    } else {
      var steps := BreakHarmful(s, a);
      assert !Serial(Exec(s, steps), a);
    }
  }
}
