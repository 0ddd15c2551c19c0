/** What every run of the batcher keeps. */
module BatcherSafety {
  import opened Common
  import opened Batcher

  // ---------- The invariant ----------

  /** The attempts flush has made so far are the ones its program counter implies. */
  ghost predicate FlightShape(f: Flight) {
    && 1 <= |f.batch| <= MAX_BATCH
    && (|f.batch| < MAX_BATCH ==> f.sawEmpty)
    && match f.pc
       case WantBatch => f.attempts == []
       case InBatch => f.attempts == []
       case Spread(n) => n < |f.batch| && Succeeded(f)
       case WantOne(n) => n < |f.batch| && Fallback(f) && |f.attempts| == n + 1
       case InOne(n) => n < |f.batch| && Fallback(f) && |f.attempts| == n + 1
       case Reply(n) => n < |f.batch| && Fallback(f) && |f.attempts| == n + 2
       case ReplyErr => SingleFailed(f)
       case Leaving => Complete(f)
       case Gone => Complete(f)
  }

  /** One submission of the whole batch, and it succeeded. */
  ghost predicate Succeeded(f: Flight) {
    |f.attempts| == 1 && f.attempts[0].ops == f.batch && f.attempts[0].outcome.Ok()
  }

  ghost predicate SingleFailed(f: Flight) {
    |f.batch| == 1 && |f.attempts| == 1 && f.attempts[0].ops == f.batch && !f.attempts[0].outcome.Ok()
  }

  /** A failed submission of a real batch, followed by submissions of its operations one by one. */
  ghost predicate Fallback(f: Flight) {
    && |f.batch| > 1 && 1 <= |f.attempts| <= |f.batch| + 1
    && f.attempts[0].ops == f.batch && !f.attempts[0].outcome.Ok()
    && forall k :: 1 <= k < |f.attempts| ==> f.attempts[k].ops == [f.batch[k - 1]]
  }

  ghost predicate Complete(f: Flight) {
    Succeeded(f) || SingleFailed(f) || (Fallback(f) && |f.attempts| == |f.batch| + 1)
  }

  /**
   * What the k-th operation of a batch must be told, from the submissions alone: the hash of the
   * batch if that succeeded, otherwise the outcome of its own submission; a lone operation that
   * failed is told the error only.
   */
  ghost function Answer(f: Flight, k: nat): Outcome
    requires FlightShape(f) && k < f.Told()
  {
    if f.attempts[0].outcome.Ok() then Outcome(f.attempts[0].outcome.hash, None)
    else if |f.batch| > 1 then f.attempts[k + 1].outcome
    else Outcome("", f.attempts[0].outcome.err)
  }

  ghost predicate FlightsInv(s: State) {
    forall i :: 0 <= i < |s.flights| ==> FlightShape(s.flights[i]) && s.flights[i].wallet < s.wallets
  }

  ghost predicate DispatcherInv(s: State) {
    !s.dispatcher.Idle? ==>
      && 1 <= |s.dispatcher.batch| <= MAX_BATCH
      && (!s.dispatcher.Draining? && |s.dispatcher.batch| < MAX_BATCH ==> s.dispatcher.sawEmpty)
      && (s.dispatcher.WantSlot? ==> s.dispatcher.wallet < s.wallets)
  }

  /** Nothing accepted is lost, repeated or reordered. */
  ghost predicate QueueInv(s: State) {
    && s.accepted == Dispatched(s.flights) + s.dispatcher.Held() + s.channel
    && Distinct(s.accepted)
    && |s.channel| <= CHANNEL_CAP
  }

  ghost predicate ClientInv(s: State) {
    && (forall k :: 0 <= k < |s.accepted| ==> s.accepted[k] < |s.clients|)
    && (forall c :: 0 <= c < |s.clients| ==>
          && (s.clients[c].pc.WantAccount? ==> s.clients[c].account.Some?)
          && (s.clients[c].pc.WantAccount? || s.clients[c].pc.Preparing? || s.clients[c].pc.Offering? ==>
                c !in s.accepted)
          && (s.clients[c].pc.Awaiting? ==> c in s.accepted))
  }

  ghost predicate ToldInv(s: State) {
    forall i, k :: 0 <= i < |s.flights| && 0 <= k < |s.flights[i].batch| ==> ToldAt(s, i, k)
  }

  ghost predicate ToldAt(s: State, i: nat, k: nat)
    requires i < |s.flights| && k < |s.flights[i].batch|
  {
    var f := s.flights[i];
    && FlightShape(f)
    && f.batch[k] < |s.clients|
    && s.clients[f.batch[k]].answers == if k < f.Told() then [Answer(f, k)] else []
  }

  ghost predicate UntoldInv(s: State) {
    forall c :: 0 <= c < |s.clients| && c !in Dispatched(s.flights) ==> s.clients[c].answers == []
  }

  ghost predicate MailInv(s: State) {
    forall c :: 0 <= c < |s.clients| ==>
      && (s.clients[c].answers == [] ==> s.clients[c].mailbox == [])
      && (s.clients[c].pc.Awaiting? ==> s.clients[c].mailbox == s.clients[c].answers)
      && (s.clients[c].pc.Returned? && s.clients[c].pc.result.Some? ==>
            s.clients[c].answers == [s.clients[c].pc.result.value])
  }

  ghost predicate SlotInv(s: State) {
    s.slots == Sum(s.flights, InFlight) && s.slots <= s.wallets
  }

  ghost function InFlight(f: Flight): nat { if f.pc.Gone? then 0 else 1 }

  ghost predicate SendersInv(s: State) {
    forall j :: 0 <= j < |s.senders| ==> s.senders[j].wallet < s.wallets
  }

  ghost predicate HolderInside(s: State, w: nat, h: Holder) {
    match h
    case ByFlight(i) => i < |s.flights| && s.flights[i].wallet == w && s.flights[i].pc.HoldsWallet()
    case BySender(j) => j < |s.senders| && s.senders[j].wallet == w && s.senders[j].pc.In?
  }

  /** The lock table says who is submitting with a wallet, no more and no less. */
  ghost predicate WalletInv(s: State) {
    && (forall w :: w in s.walletLocks ==> HolderInside(s, w, s.walletLocks[w]))
    && (forall w, h :: HolderInside(s, w, h) ==> w in s.walletLocks && s.walletLocks[w] == h)
  }

  ghost predicate AccountHeld(s: State, a: string, c: nat) {
    c < |s.clients| && s.clients[c].account == Some(a) && s.clients[c].pc.HoldsAccount()
  }

  ghost predicate AccountInv(s: State) {
    && (forall a :: a in s.accountLocks ==> AccountHeld(s, a, s.accountLocks[a]))
    && (forall a, c :: AccountHeld(s, a, c) ==> a in s.accountLocks && s.accountLocks[a] == c)
  }

  ghost predicate Inv(s: State) {
    && FlightsInv(s) && DispatcherInv(s) && QueueInv(s) && ClientInv(s)
    && ToldInv(s) && UntoldInv(s) && MailInv(s)
    && SlotInv(s) && SendersInv(s) && WalletInv(s) && AccountInv(s)
  }

  // ---------- Dispatched ----------

  lemma {:induction false} DispatchedSame(a: seq<Flight>, b: seq<Flight>)
    requires |a| == |b| && forall i :: 0 <= i < |a| ==> a[i].batch == b[i].batch
    ensures Dispatched(a) == Dispatched(b)
  {
    if a == [] {
    } else {
      DispatchedSame(a[..|a| - 1], b[..|b| - 1]);
    }
  }

  lemma DispatchedAppend(a: seq<Flight>, f: Flight)
    ensures Dispatched(a + [f]) == Dispatched(a) + f.batch
  {
    assert (a + [f])[..|a|] == a;
  }

  lemma {:induction false} DispatchedHas(a: seq<Flight>, i: nat, k: nat)
    requires i < |a| && k < |a[i].batch|
    ensures a[i].batch[k] in Dispatched(a)
  {
    var last := |a| - 1;
    if i == last {
    } else {
      DispatchedHas(a[..last], i, k);
    }
  }

  lemma {:induction false} DispatchedFind(a: seq<Flight>, q: nat) returns (i: nat, k: nat)
    requires q in Dispatched(a)
    ensures i < |a| && k < |a[i].batch| && a[i].batch[k] == q
  {
    var last := |a| - 1;
    if q in a[last].batch {
      i := last;
      k :| 0 <= k < |a[last].batch| && a[last].batch[k] == q;
    } else {
      i, k := DispatchedFind(a[..last], q);
    }
  }

  lemma DistinctParts(a: seq<nat>, b: seq<nat>)
    requires Distinct(a + b)
    ensures Distinct(a) && Distinct(b)
    ensures forall i, j :: 0 <= i < |a| && 0 <= j < |b| ==> a[i] != b[j]
  {
    var c := a + b;
    assert forall i :: 0 <= i < |a| ==> c[i] == a[i];
    assert forall j :: 0 <= j < |b| ==> c[|a| + j] == b[j];
  }

  /** An operation sits at one place of one batch. */
  lemma {:induction false} OnePlace(a: seq<Flight>, i: nat, k: nat, j: nat, l: nat)
    requires Distinct(Dispatched(a)) && i < |a| && j < |a| && k < |a[i].batch| && l < |a[j].batch|
    requires a[i].batch[k] == a[j].batch[l]
    ensures i == j && k == l
    decreases |a|
  {
    var last := |a| - 1;
    DistinctParts(Dispatched(a[..last]), a[last].batch);
    if i == last && j == last {
    } else if i == last {
      DispatchedHas(a[..last], j, l);
    } else if j == last {
      DispatchedHas(a[..last], i, k);
    } else {
      OnePlace(a[..last], i, k, j, l);
    }
  }

  // ---------- Every step keeps the invariant ----------

  lemma FlightsStep(s: State, step: Step)
    requires FlightsInv(s) && DispatcherInv(s) && Enabled(s, step)
    ensures FlightsInv(Apply(s, step))
    ensures |s.flights| <= |Apply(s, step).flights|
    ensures forall i :: 0 <= i < |s.flights| ==>
      Apply(s, step).flights[i].batch == s.flights[i].batch && Apply(s, step).flights[i].wallet == s.flights[i].wallet
  {
    FlightsFrame(s, step);
    if step.OfFlight() {
      FlightReady(s, step);
      MoveFlightShape(step, s.flights[step.f]);
    } else if step.Launch? {
      LaunchShape(s);
    }
  }

  lemma FlightsFrame(s: State, step: Step)
    requires Enabled(s, step)
    ensures Apply(s, step).wallets == s.wallets
    ensures step.OfFlight() ==> Apply(s, step).flights == s.flights[step.f := MoveFlight(step, s.flights[step.f])]
    ensures !step.OfFlight() && !step.Launch? ==> Apply(s, step).flights == s.flights
  {
  }

  lemma LaunchShape(s: State)
    requires DispatcherInv(s) && Enabled(s, Launch)
    ensures var t := Apply(s, Launch);
      && |t.flights| == |s.flights| + 1 && t.flights[..|s.flights|] == s.flights
      && FlightShape(t.flights[|s.flights|]) && t.flights[|s.flights|].wallet < s.wallets
  {
  }

  /** A step of a flush is enabled only where its program counter allows it. */
  ghost predicate Ready(step: Step, f: Flight)
    requires step.OfFlight()
  {
    match step
    case TakeBatch(_) => f.pc == WantBatch
    case SubmitBatch(_, _) => f.pc == InBatch
    case TakeOne(_) => f.pc.WantOne?
    case SubmitOne(_, _) => f.pc.InOne?
    case Tell(_) => f.Telling()
    case Leave(_) => f.pc == Leaving
  }

  lemma FlightReady(s: State, step: Step)
    requires Enabled(s, step) && step.OfFlight()
    ensures Ready(step, s.flights[step.f])
  {
  }

  lemma MoveFlightShape(step: Step, f: Flight)
    requires step.OfFlight() && FlightShape(f)
    requires Ready(step, f)
    ensures var g := MoveFlight(step, f);
      && FlightShape(g) && g.batch == f.batch && g.wallet == f.wallet && g.sawEmpty == f.sawEmpty
      && g.Told() == f.Told() + (if step.Tell? then 1 else 0)
      && (forall k :: 0 <= k < f.Told() ==> Answer(g, k) == Answer(f, k))
      && (step.Tell? ==> Answer(g, f.Told()) == f.Message())
  {
  }

  lemma DispatcherStep(s: State, step: Step)
    requires DispatcherInv(s) && Enabled(s, step)
    ensures DispatcherInv(Apply(s, step))
  {
  }

  lemma QueueStep(s: State, step: Step)
    requires FlightsInv(s) && DispatcherInv(s) && QueueInv(s) && ClientInv(s) && Enabled(s, step)
    ensures QueueInv(Apply(s, step))
  {
    var t := Apply(s, step);
    if step.Launch? {
      LaunchInOrder(s);
    } else {
      FlightsStep(s, step);
      DispatchedSame(s.flights, t.flights);
      QueueMoves(s, step);
    }
  }

  lemma LaunchInOrder(s: State)
    requires QueueInv(s) && Enabled(s, Launch)
    ensures QueueInv(Apply(s, Launch))
  {
    var t := Apply(s, Launch);
    DispatchedAppend(s.flights, t.flights[|s.flights|]);
    assert t.accepted == Dispatched(t.flights) + [] + t.channel;
  }

  /** Outside Launch, operations move between the channel and the dispatcher only. */
  lemma QueueMoves(s: State, step: Step)
    requires QueueInv(s) && ClientInv(s) && Enabled(s, step) && !step.Launch?
    ensures var t := Apply(s, step);
      && t.accepted == Dispatched(s.flights) + t.dispatcher.Held() + t.channel
      && Distinct(t.accepted) && |t.channel| <= CHANNEL_CAP
  {
    var t := Apply(s, step);
    var dispatched := Dispatched(s.flights);
    if step.Offer? {
      AcceptInOrder(dispatched, s.dispatcher.Held(), s.channel, step.c);
    } else if step.Receive? || step.Drain? {
      ReceiveInOrder(dispatched, s.dispatcher.Held(), s.channel);
    } else {
      assert t.accepted == s.accepted && t.channel == s.channel && t.dispatcher.Held() == s.dispatcher.Held();
    }
  }

  lemma AcceptInOrder(dispatched: seq<nat>, held: seq<nat>, channel: seq<nat>, c: nat)
    ensures dispatched + held + channel + [c] == dispatched + held + (channel + [c])
    ensures Distinct(dispatched + held + channel) && c !in dispatched + held + channel ==>
      Distinct(dispatched + held + channel + [c])
  {
  }

  lemma ReceiveInOrder(dispatched: seq<nat>, held: seq<nat>, channel: seq<nat>)
    requires channel != []
    ensures dispatched + held + channel == dispatched + (held + [channel[0]]) + channel[1..]
    ensures [] + [channel[0]] == [channel[0]]
  {
  }

  /** A step touches one client at most; answers grow only in Tell. */
  lemma ClientsFrame(s: State, step: Step)
    requires Enabled(s, step)
    ensures var t := Apply(s, step);
      && |t.clients| == |s.clients| + (if step.Arrive? then 1 else 0)
      && (forall c :: 0 <= c < |s.clients| ==> t.clients[c].account == s.clients[c].account)
      && (!step.Tell? ==> forall c :: 0 <= c < |s.clients| ==> t.clients[c].answers == s.clients[c].answers)
      && (step.Arrive? ==> t.clients[|s.clients|].answers == [])
      && (forall c :: 0 <= c < |s.clients| && !(step.OfClient() && step.c == c) ==> t.clients[c].pc == s.clients[c].pc)
      && (!step.OfClient() && !step.Arrive? && !step.Tell? ==> t.clients == s.clients)
  {
  }

  lemma ClientStep(s: State, step: Step)
    requires ClientInv(s) && Enabled(s, step)
    ensures ClientInv(Apply(s, step))
  {
    ClientsFrame(s, step);
    var t := Apply(s, step);
    if step.Arrive? {
      assert |s.clients| !in s.accepted;
    } else if step.Offer? {
      assert t.accepted[|s.accepted|] == step.c;
    }
  }

  lemma ToldStep(s: State, step: Step)
    requires Inv(s) && Enabled(s, step)
    ensures ToldInv(Apply(s, step))
  {
    FlightsStep(s, step);
    ClientsFrame(s, step);
    DispatchedDistinct(s);
    var t := Apply(s, step);
    forall i, k | 0 <= i < |t.flights| && 0 <= k < |t.flights[i].batch|
      ensures ToldAt(t, i, k)
    {
      if i < |s.flights| {
        ToldStays(s, step, i, k);
      } else {
        LaunchUntold(s, k);
      }
    }
  }

  lemma ToldStays(s: State, step: Step, i: nat, k: nat)
    requires ToldInv(s) && FlightsInv(s) && Distinct(Dispatched(s.flights)) && Enabled(s, step)
    requires i < |s.flights| && k < |s.flights[i].batch|
    ensures var t := Apply(s, step);
      i < |t.flights| && k < |t.flights[i].batch| && ToldAt(t, i, k)
  {
    assert ToldAt(s, i, k);
    if step.Tell? {
      TellKeeps(s, step, i, k);
    } else {
      ClientsFrame(s, step);
      UntoldFrame(s, step, i);
    }
  }

  /** Only Tell moves on the number of operations that a flush has answered. */
  lemma UntoldFrame(s: State, step: Step, i: nat)
    requires FlightsInv(s) && Enabled(s, step) && !step.Tell? && i < |s.flights|
    ensures var f, g := s.flights[i], Apply(s, step).flights[i];
      && FlightShape(g) && g.batch == f.batch && g.Told() == f.Told()
      && (forall k :: 0 <= k < f.Told() ==> Answer(g, k) == Answer(f, k))
  {
    FlightsFrame(s, step);
    if step.OfFlight() {
      MoveFlightShape(step, s.flights[step.f]);
    }
  }

  lemma LaunchUntold(s: State, k: nat)
    requires QueueInv(s) && ClientInv(s) && UntoldInv(s) && s.dispatcher.WantSlot? && k < |s.dispatcher.batch|
    ensures s.dispatcher.batch[k] < |s.clients| && s.clients[s.dispatcher.batch[k]].answers == []
  {
    var d := |Dispatched(s.flights)|;
    assert s.accepted[d + k] == s.dispatcher.batch[k];
    DistinctParts(Dispatched(s.flights) + s.dispatcher.Held(), s.channel);
    DistinctParts(Dispatched(s.flights), s.dispatcher.Held());
  }

  lemma DispatchedDistinct(s: State)
    requires QueueInv(s)
    ensures Distinct(Dispatched(s.flights))
  {
    DistinctParts(Dispatched(s.flights) + s.dispatcher.Held(), s.channel);
    DistinctParts(Dispatched(s.flights), s.dispatcher.Held());
  }

  lemma TellKeeps(s: State, step: Step, i: nat, k: nat)
    requires FlightsInv(s) && Distinct(Dispatched(s.flights)) && Enabled(s, step) && step.Tell?
    requires i < |s.flights| && k < |s.flights[i].batch| && ToldAt(s, i, k)
    ensures var t := Apply(s, step);
      i < |t.flights| && k < |t.flights[i].batch| && ToldAt(t, i, k)
  {
    var f := s.flights[step.f];
    MoveFlightShape(step, f);
    if s.flights[i].batch[k] == f.batch[f.Told()] {
      OnePlace(s.flights, i, k, step.f, f.Told());
    } else if i == step.f {
      assert k != f.Told();
    }
  }

  lemma UntoldStep(s: State, step: Step)
    requires Inv(s) && Enabled(s, step)
    ensures UntoldInv(Apply(s, step))
  {
    if step.Launch? {
      UntoldLaunch(s);
    } else {
      FlightsStep(s, step);
      DispatchedSame(s.flights, Apply(s, step).flights);
      UntoldMoves(s, step);
    }
  }

  lemma UntoldLaunch(s: State)
    requires UntoldInv(s) && Enabled(s, Launch)
    ensures UntoldInv(Apply(s, Launch))
  {
    DispatchedAppend(s.flights, Apply(s, Launch).flights[|s.flights|]);
  }

  lemma UntoldMoves(s: State, step: Step)
    requires UntoldInv(s) && Enabled(s, step)
    ensures var t := Apply(s, step);
      forall c :: 0 <= c < |t.clients| && c !in Dispatched(s.flights) ==> t.clients[c].answers == []
  {
    ClientsFrame(s, step);
    if step.Tell? {
      DispatchedHas(s.flights, step.f, s.flights[step.f].Told());
    }
  }

  /** The result channel is empty when flush is about to send on it: the send cannot block. */
  lemma MailboxFree(s: State, i: nat)
    requires FlightsInv(s) && ToldInv(s) && MailInv(s) && i < |s.flights| && s.flights[i].Telling()
    ensures var q := s.flights[i].batch[s.flights[i].Told()];
      q < |s.clients| && s.clients[q].answers == [] && s.clients[q].mailbox == []
  {
    assert ToldAt(s, i, s.flights[i].Told());
  }

  lemma MailStep(s: State, step: Step)
    requires Inv(s) && Enabled(s, step)
    ensures MailInv(Apply(s, step))
  {
    if step.Tell? {
      MailboxFree(s, step.f);
    } else if step.Collect? {
      AtMostOne(s, step.c);
    } else if step.Offer? {
      NotDispatched(s, step.c);
    }
    MailMoves(s, step);
  }

  lemma MailMoves(s: State, step: Step)
    requires MailInv(s) && Enabled(s, step)
    requires step.Tell? ==> s.clients[s.flights[step.f].batch[s.flights[step.f].Told()]].answers == []
    requires step.Collect? ==> |s.clients[step.c].answers| <= 1
    requires step.Offer? ==> s.clients[step.c].answers == []
    ensures MailInv(Apply(s, step))
  {
    ClientsFrame(s, step);
  }

  /** Nobody is answered twice. */
  lemma AtMostOne(s: State, c: nat)
    requires ToldInv(s) && UntoldInv(s) && c < |s.clients|
    ensures |s.clients[c].answers| <= 1
  {
    if c in Dispatched(s.flights) {
      var i, k := DispatchedFind(s.flights, c);
      assert ToldAt(s, i, k);
    }
  }

  lemma NotDispatched(s: State, c: nat)
    requires QueueInv(s) && UntoldInv(s) && c < |s.clients| && c !in s.accepted
    ensures s.clients[c].answers == []
  {
  }

  lemma SlotStep(s: State, step: Step)
    requires SlotInv(s) && Enabled(s, step)
    ensures SlotInv(Apply(s, step))
  {
    if step.Launch? {
      SlotLaunch(s);
    } else if step.OfFlight() {
      SlotMove(s, step);
    } else {
      assert Apply(s, step).flights == s.flights && Apply(s, step).slots == s.slots;
    }
  }

  lemma SlotLaunch(s: State)
    requires SlotInv(s) && Enabled(s, Launch)
    ensures SlotInv(Apply(s, Launch))
  {
    SumAppend(s.flights, Apply(s, Launch).flights[|s.flights|], InFlight);
  }

  lemma SlotMove(s: State, step: Step)
    requires SlotInv(s) && Enabled(s, step) && step.OfFlight()
    ensures SlotInv(Apply(s, step))
  {
    OnlyLeaveGoes(s, step);
    SumUpdate(s.flights, step.f, MoveFlight(step, s.flights[step.f]), InFlight);
  }

  lemma OnlyLeaveGoes(s: State, step: Step)
    requires Enabled(s, step) && step.OfFlight()
    ensures InFlight(s.flights[step.f]) == 1
    ensures InFlight(MoveFlight(step, s.flights[step.f])) == if step.Leave? then 0 else 1
  {
  }

  lemma WalletStep(s: State, step: Step)
    requires WalletInv(s) && Enabled(s, step)
    ensures WalletInv(Apply(s, step))
  {
    var t := Apply(s, step);
    forall w, h
      ensures HolderInside(t, w, h) <==>
        if step.Takes() && h == step.Holder() then w == WalletOf(s, step)
        else HolderInside(s, w, h) && !(step.Returns() && h == step.Holder())
    {
      HoldersFrame(s, step, w, h);
    }
    if step.Takes() || step.Returns() {
      HolderMoves(s, step);
      assert step.Returns() ==> HolderInside(s, WalletOf(s, step), step.Holder());
    }
  }

  /** Only a step that takes or returns a wallet changes who is inside. */
  lemma HoldersFrame(s: State, step: Step, w: nat, h: Holder)
    requires Enabled(s, step)
    ensures HolderInside(Apply(s, step), w, h) <==>
      if step.Takes() && h == step.Holder() then w == WalletOf(s, step)
      else HolderInside(s, w, h) && !(step.Returns() && h == step.Holder())
  {
  }

  lemma HolderMoves(s: State, step: Step)
    requires Enabled(s, step) && (step.Takes() || step.Returns())
    ensures step.Takes() ==> WalletOf(s, step) !in s.walletLocks
    ensures forall w :: HolderInside(s, w, step.Holder()) <==> step.Returns() && w == WalletOf(s, step)
  {
  }

  lemma AccountStep(s: State, step: Step)
    requires AccountInv(s) && Enabled(s, step)
    ensures AccountInv(Apply(s, step))
  {
    var t := Apply(s, step);
    forall a, c: nat
      ensures AccountHeld(t, a, c) <==>
        if step == TakeAccount(c) then s.clients[c].account == Some(a)
        else AccountHeld(s, a, c) && !(Closes(s, step) && step.c == c)
    {
      AccountFrame(s, step, a, c);
    }
    if step.OfClient() && s.clients[step.c].account.Some? {
      assert !step.TakeAccount? ==> AccountHeld(s, s.clients[step.c].account.value, step.c);
    }
  }

  /** Only taking the lock and returning change who holds an account. */
  lemma AccountFrame(s: State, step: Step, a: string, c: nat)
    requires Enabled(s, step)
    ensures AccountHeld(Apply(s, step), a, c) <==>
      if step == TakeAccount(c) then s.clients[c].account == Some(a)
      else AccountHeld(s, a, c) && !(Closes(s, step) && step.c == c)
  {
  }

  lemma InvStep(s: State, step: Step)
    requires Inv(s) && Enabled(s, step)
    ensures Inv(Apply(s, step))
  {
    FlightsStep(s, step);
    DispatcherStep(s, step);
    QueueStep(s, step);
    ClientStep(s, step);
    ToldStep(s, step);
    UntoldStep(s, step);
    MailStep(s, step);
    SlotStep(s, step);
    WalletStep(s, step);
    AccountStep(s, step);
  }

  lemma InitInv(wallets: nat)
    ensures Inv(Init(wallets))
    ensures forall w, h :: !HolderInside(Init(wallets), w, h)
  {
    var s := Init(wallets);
    assert forall w, h :: !HolderInside(s, w, h);
    assert forall a, c :: !AccountHeld(s, a, c);
    assert WalletInv(s) && AccountInv(s);
  }

  lemma {:induction false} InvRun(s: State, steps: seq<Step>)
    requires Inv(s) && Valid(s, steps)
    ensures Inv(Exec(s, steps))
    decreases |steps|
  {
    if steps == [] {
    } else {
      InvStep(s, steps[0]);
      InvRun(Apply(s, steps[0]), steps[1..]);
    }
  }
}
