/**
 * The exact condition under which an account of the deployment keeps at most one unresolved operation
 * (internal/transfer/send.go), for any number of processes, any pool and full channels.
 */
module ClusterSerial {
  import opened Common
  import opened Cluster
  import opened ClusterSafety
  import opened ClusterAccounts
  import B = Batcher
  import BatcherSafety
  import BatcherTheorems
  import BatcherProgress
  import BatcherSerial
  import ClusterProgress
  import L = NonceLock
  import Runs

  /** Every continuation that cancels no client and takes no owner's entry of the account keeps it serial. */
  ghost predicate StaysSerial(c: State, account: string) {
    forall steps :: Valid(c, steps) && NoCancel(steps) && SparingRun(c, steps, Key(c, account)) ==>
      Serial(Exec(c, steps), account)
  }

  ghost predicate WaitsAt(c: State, account: string, p: nat, k: nat) {
    Holds(c, account, p, k) && c.procs[p].clients[k].pc.Offering?
  }

  /** A client of process p has the account and waits for room in the channel. */
  ghost predicate Waits(c: State, account: string, p: nat) { exists k :: WaitsAt(c, account, p, k) }

  /**
   * The abandoned operation must be answered before the channel of its process takes another one, and no
   * other process gets the account before that: a client of this process has it and waits for the channel.
   */
  ghost predicate Sealed(c: State, account: string, p: nat, q: nat)
    requires p < |c.procs|
  {
    BatcherSerial.Blocked(c.procs[p], q) && (|c.procs| > 1 ==> Waits(c, account, p))
  }

  /**
   * Nothing of the account is abandoned unless it is sealed off, and no client with the account waits
   * unanswered behind an expired entry. With a single process the mutex makes up for the entry.
   */
  ghost predicate Harmless(c: State, account: string) {
    && Serial(c, account)
    && (forall p, q :: Abandoned(c, account, p, q) ==> Sealed(c, account, p, q))
    && (|c.procs| > 1 ==> NoneExposed(c, account))
  }

  // ---------- What keeps an account serial ----------

  lemma ConfigStep(c: State, step: Step)
    requires Enabled(c, step)
    ensures var d := Apply(c, step);
      |d.procs| == |c.procs| && d.locks.distributed == c.locks.distributed && d.pool == c.pool && d.chain == c.chain
  {
  }

  lemma WasAbandoned(c: State, step: Step, account: string, p: nat, q: nat)
    requires ProcsInv(c) && Enabled(c, step) && (!step.Lock? ==> !step.b.Cancel?)
    requires Abandoned(Apply(c, step), account, p, q)
    ensures Abandoned(c, account, p, q)
  {
    if !Abandoned(c, account, p, q) {
      NoneAbandonedStep(c, step, account, p, q);
    }
  }

  /** While the channel is full, whoever waits for it goes on waiting. */
  lemma StaysWaiting(c: State, step: Step, account: string, p: nat)
    requires Enabled(c, step) && (!step.Lock? ==> !step.b.Cancel?)
    requires Waits(c, account, p) && p < |c.procs| && |c.procs[p].channel| >= B.CHANNEL_CAP
    ensures Waits(Apply(c, step), account, p)
  {
    var k :| WaitsAt(c, account, p, k);
    if !step.Lock? && step.p == p {
      BatcherSafety.ClientsFrame(c.procs[p], step.b);
    }
    assert WaitsAt(Apply(c, step), account, p, k);
  }

  lemma StaysSealed(c: State, step: Step, account: string, p: nat, q: nat)
    requires ProcsInv(c) && Enabled(c, step) && (!step.Lock? ==> !step.b.Cancel?)
    requires p < |c.procs| && Sealed(c, account, p, q) && Abandoned(Apply(c, step), account, p, q)
    ensures Sealed(Apply(c, step), account, p, q)
  {
    if |c.procs| > 1 {
      StaysWaiting(c, step, account, p);
    }
    if !step.Lock? && step.p == p {
      BatcherSerial.StaysBlocked(c.procs[p], step.b, account, q);
    }
  }

  lemma SealedStep(c: State, step: Step, account: string, p: nat, q: nat)
    requires ProcsInv(c) && Harmless(c, account) && Enabled(c, step) && (!step.Lock? ==> !step.b.Cancel?)
    requires Abandoned(Apply(c, step), account, p, q)
    ensures Sealed(Apply(c, step), account, p, q)
  {
    WasAbandoned(c, step, account, p, q);
    StaysSealed(c, step, account, p, q);
  }

  /** Only an offer makes an operation unresolved. */
  lemma OnlyOfferOpens(c: State, step: Step, account: string, r: nat, t: nat)
    requires ProcsInv(c) && Enabled(c, step) && Open(Apply(c, step), account, r, t) && !Open(c, account, r, t)
    ensures step == Inner(r, B.Offer(t)) && WaitsAt(c, account, r, t)
  {
    OnlyOffer(c.procs[r], step.b, account, t);
  }

  lemma OnlyOffer(s: B.State, b: B.Step, account: string, t: nat)
    requires BatcherSafety.ClientInv(s) && B.Enabled(s, b)
    requires BatcherTheorems.OpenOp(B.Apply(s, b), account, t) && !BatcherTheorems.OpenOp(s, account, t)
    ensures b == B.Offer(t) && BatcherSafety.AccountHeld(s, account, t) && s.clients[t].pc.Offering?
  {
    BatcherSafety.ClientsFrame(s, b);
  }

  /** Two clients with the account in different processes, both past their preparations: one is exposed. */
  lemma TwoWait(c: State, account: string, p: nat, k: nat, r: nat, t: nat)
    requires Inv(c) && c.locks.distributed && WaitsAt(c, account, p, k) && WaitsAt(c, account, r, t) && p != r
    ensures Exposed(c, account, p, k) || Exposed(c, account, r, t)
  {
    PreparedIsInside(c, account, p, k);
    PreparedIsInside(c, account, r, t);
    TwoHolders(c, account, p, k, r, t);
    Unanswered(c, account, p, k);
    Unanswered(c, account, r, t);
  }

  lemma Unanswered(c: State, account: string, p: nat, k: nat)
    requires ProcsInv(c) && WaitsAt(c, account, p, k)
    ensures c.procs[p].clients[k].answers == []
  {
    assert BatcherSafety.Inv(c.procs[p]);
  }

  /** Next to an abandoned operation no other one appears. */
  lemma NoSecond(c: State, step: Step, account: string, p: nat, q: nat, r: nat, t: nat)
    requires Inv(c) && c.locks.distributed && Harmless(c, account) && Enabled(c, step)
    requires !step.Lock? ==> !step.b.Cancel?
    requires Abandoned(Apply(c, step), account, p, q) && Open(Apply(c, step), account, r, t)
    ensures (p, q) == (r, t)
  {
    WasAbandoned(c, step, account, p, q);
    if !Open(c, account, r, t) {
      OnlyOfferOpens(c, step, account, r, t);
      NoOffer(c, account, p, q, r, t);
    }
  }

  lemma NoOffer(c: State, account: string, p: nat, q: nat, r: nat, t: nat)
    requires Inv(c) && c.locks.distributed && Harmless(c, account) && Abandoned(c, account, p, q)
    requires WaitsAt(c, account, r, t)
    ensures |c.procs[r].channel| >= B.CHANNEL_CAP
  {
    if r != p {
      var k :| WaitsAt(c, account, p, k);
      TwoWait(c, account, p, k, r, t);
    }
  }

  /** An abandoned operation is the only unresolved one. */
  ghost predicate Alone(c: State, account: string) {
    forall p, q, r, t :: Abandoned(c, account, p, q) && Open(c, account, r, t) ==> (p, q) == (r, t)
  }

  lemma AloneIsSerial(c: State, account: string)
    requires Inv(c) && c.locks.distributed && Alone(c, account) && (|c.procs| > 1 ==> NoneExposed(c, account))
    ensures Serial(c, account)
  {
    forall p, q, r, t | Open(c, account, p, q) && Open(c, account, r, t)
      ensures (p, q) == (r, t)
    {
      if !Abandoned(c, account, p, q) && !Abandoned(c, account, r, t) && (p, q) != (r, t) {
        BothLive(c, account, p, q, r, t);
      }
    }
  }

  lemma BothLive(c: State, account: string, p: nat, q: nat, r: nat, t: nat)
    requires Inv(c) && c.locks.distributed && Open(c, account, p, q) && Open(c, account, r, t) && (p, q) != (r, t)
    requires !Abandoned(c, account, p, q) && !Abandoned(c, account, r, t)
    ensures |c.procs| > 1 && (Exposed(c, account, p, q) || Exposed(c, account, r, t))
  {
    TwoOpen(c, account, p, q, r, t);
    OpenIsExposed(c, account, p, q);
    OpenIsExposed(c, account, r, t);
  }

  lemma StaysUnexposed(c: State, step: Step, account: string)
    requires AccountInv(c) && L.Inv(c.locks) && c.locks.distributed && Enabled(c, step)
    requires Spares(c, step, Key(c, account)) && NoneExposed(c, account)
    ensures NoneExposed(Apply(c, step), account)
  {
    forall p, q
      ensures !Exposed(Apply(c, step), account, p, q)
    {
      NoneExposedStep(c, step, account, p, q);
    }
  }

  lemma HarmlessStep(c: State, step: Step, account: string)
    requires Inv(c) && c.locks.distributed && Harmless(c, account) && Enabled(c, step)
    requires Spares(c, step, Key(c, account)) && (!step.Lock? ==> !step.b.Cancel?)
    ensures Inv(Apply(c, step)) && Harmless(Apply(c, step), account)
  {
    var d := Apply(c, step);
    InvStep(c, step);
    ConfigStep(c, step);
    if |c.procs| > 1 {
      StaysUnexposed(c, step, account);
    }
    forall p, q | Abandoned(d, account, p, q)
      ensures Sealed(d, account, p, q)
    {
      SealedStep(c, step, account, p, q);
    }
    forall p, q, r, t | Abandoned(d, account, p, q) && Open(d, account, r, t)
      ensures (p, q) == (r, t)
    {
      NoSecond(c, step, account, p, q, r, t);
    }
    AloneIsSerial(d, account);
  }

  lemma {:induction false} HarmlessRun(c: State, steps: seq<Step>, account: string)
    requires Inv(c) && c.locks.distributed && Harmless(c, account) && Valid(c, steps)
    requires NoCancel(steps) && SparingRun(c, steps, Key(c, account))
    ensures Serial(Exec(c, steps), account)
    decreases |steps|
  {
    if steps == [] {
    } else {
      HarmlessStep(c, steps[0], account);
      ConfigStep(c, steps[0]);
      HarmlessRun(Apply(c, steps[0]), steps[1..], account);
    }
  }

  /**
   * Without cancellation, and as long as no client with the account loses its entry, an account has at most
   * one unresolved operation in the whole deployment, whatever else expires.
   */
  lemma SerialAnywhere(g: Setup, steps: seq<Step>, account: string)
    requires ProperPool(g.pool) && g.distributed && Valid(Init(g), steps)
    requires NoCancel(steps) && SparingRun(Init(g), steps, Key(Init(g), account))
    ensures Serial(Exec(Init(g), steps), account)
  {
    InitInv(g);
    HarmlessRun(Init(g), steps, account);
  }

  // ---------- What breaks it: the first operation is left alone ----------

  /** An unresolved operation of the account that no lease protects any more. */
  ghost predicate Loose(c: State, account: string, p: nat, q: nat) {
    Open(c, account, p, q) && (Holds(c, account, p, q) ==> Lapsed(c, p, q))
  }

  /** Nobody comes, nobody gives up, and no client takes an account. */
  ghost predicate Calm(b: B.Step) { !b.IsArrival() && !b.Cancel? && !b.TakeAccount? }

  /** The batcher step neither moves client q nor answers it. */
  ghost predicate Beside(s: B.State, b: B.Step, q: nat)
    requires B.Enabled(s, b)
  {
    (b.OfClient() ==> b.c != q) && (b.Tell? ==> s.flights[b.f].batch[s.flights[b.f].Told()] != q)
  }

  /** No new client or sender, no cancellation; client q of process p and its session are left alone. */
  ghost predicate Aside(c: State, account: string, p: nat, q: nat, step: Step) {
    && Enabled(c, step)
    && match step
       case Lock(a) =>
         !a.Start? && (!a.Expire? && Holds(c, account, p, q) ==>
           (p, ByClient(q)) in c.current && a.i != c.current[(p, ByClient(q))])
       case _ =>
         Calm(step.b) && (step.p == p ==> Beside(c.procs[p], step.b, q))
  }

  lemma AsideFrame(c: State, account: string, p: nat, q: nat, step: Step)
    requires Aside(c, account, p, q, step) && Open(c, account, p, q)
    ensures Open(Apply(c, step), account, p, q)
    ensures Holds(Apply(c, step), account, p, q) <==> Holds(c, account, p, q)
  {
    if !step.Lock? && step.p == p {
      BatcherSafety.ClientsFrame(c.procs[p], step.b);
      BatcherSafety.AccountFrame(c.procs[p], step.b, account, q);
      AnswersAside(c.procs[p], step.b, q);
    }
  }

  lemma AnswersAside(s: B.State, b: B.Step, q: nat)
    requires B.Enabled(s, b) && Beside(s, b, q) && q < |s.clients|
    ensures B.Apply(s, b).clients[q].answers == s.clients[q].answers
  {
  }

  /** Nobody but the session itself gets it an entry. */
  lemma StaysLapsed(l: L.State, a: L.Step, i: nat)
    requires L.TokenInv(l) && L.Enabled(l, a) && l.Is(i) && l.Lapsed(i) && L.Actor(l, a) != i
    ensures L.Apply(l, a).Is(i) && L.Apply(l, a).Lapsed(i)
  {
    L.OnlyActorMoves(l, a);
  }

  /** Beginning a session gets nobody an entry. */
  lemma BeginLapsed(l: L.State, start: L.Step, i: nat)
    requires start.Start? && L.Enabled(L.Apply(l, start), L.LockLocal(|l.sessions|)) && l.Is(i) && l.Lapsed(i)
    ensures var m := L.Apply(L.Apply(l, start), L.LockLocal(|l.sessions|));
      m.Is(i) && m.Lapsed(i)
  {
    BeginSession(l, start);
  }

  lemma AsideLapsed(c: State, account: string, p: nat, q: nat, step: Step)
    requires L.Inv(c.locks) && CurrentInv(c) && Aside(c, account, p, q, step)
    requires Holds(c, account, p, q) && Lapsed(c, p, q)
    ensures Lapsed(Apply(c, step), p, q)
  {
    var i := c.current[(p, ByClient(q))];
    match step
    case Lock(a) => StaysLapsed(c.locks, a, i);
    case Inner(_, _) =>
    case Enter(s, b, kind) => EnterLapsed(c, p, q, step);
    case Leave(s, b) => StaysLapsed(c.locks, L.Unlock(c.current[(s, OwnerOf(b))]), i);
    case Client(s, b) => ClientLapsed(c, p, q, step);
  }

  lemma EnterLapsed(c: State, p: nat, q: nat, step: Step)
    requires Enabled(c, step) && step.Enter? && !step.b.TakeAccount? && Lapsed(c, p, q)
    ensures Lapsed(Apply(c, step), p, q)
  {
    BeginLapsed(c.locks, SessionStart(c, step.p, step.b, step.kind), c.current[(p, ByClient(q))]);
  }

  lemma ClientLapsed(c: State, p: nat, q: nat, step: Step)
    requires L.TokenInv(c.locks) && CurrentInv(c) && Enabled(c, step) && step.Client? && (step.p, step.b.c) != (p, q)
    requires Lapsed(c, p, q)
    ensures Lapsed(Apply(c, step), p, q)
  {
    assert (step.p, OwnerOf(step.b)) != (p, ByClient(q));
    if NextLocks(c, step) != c.locks {
      StaysLapsed(c.locks, L.Return(c.current[(step.p, OwnerOf(step.b))]), c.current[(p, ByClient(q))]);
    }
  }

  lemma StaysLoose(c: State, account: string, p: nat, q: nat, step: Step)
    requires L.Inv(c.locks) && CurrentInv(c) && Aside(c, account, p, q, step) && Loose(c, account, p, q)
    ensures Loose(Apply(c, step), account, p, q)
  {
    AsideFrame(c, account, p, q, step);
    if Holds(c, account, p, q) {
      AsideLapsed(c, account, p, q, step);
    }
  }

  // ---------- A way to a second operation ----------

  /** The channel of process p has room, or gets it without an answer for operation q. */
  ghost predicate Spacious(c: State, account: string, p: nat, q: nat) {
    && p < |c.procs| && !Holds(c, account, p, q)
    && (|c.procs[p].channel| < B.CHANNEL_CAP || BatcherSerial.Unblocked(c.procs[p], q))
  }

  /** A second operation can get in at process r without an answer for the first. */
  ghost predicate Viable(c: State, account: string, p: nat, q: nat, r: nat) {
    (r != p && !Waits(c, account, p)) || Spacious(c, account, p, q)
  }

  /** One unresolved operation of the account that nothing protects, and a way to a second one. */
  ghost predicate Contended(c: State, account: string, p: nat, q: nat, r: nat) {
    Serial(c, account) && Loose(c, account, p, q) && r < |c.procs| && Viable(c, account, p, q, r)
  }

  /** A step towards the second operation that leaves the first one alone. */
  ghost predicate Clearing(c: State, account: string, p: nat, q: nat, r: nat, step: Step) {
    && Aside(c, account, p, q, step) && Spares(c, step, Key(c, account))
    && (!Serial(Apply(c, step), account) || Viable(Apply(c, step), account, p, q, r))
  }

  lemma LockClears(c: State, account: string, p: nat, q: nat, r: nat, a: L.Step)
    requires Aside(c, account, p, q, Lock(a)) && Spares(c, Lock(a), Key(c, account)) && Viable(c, account, p, q, r)
    ensures Clearing(c, account, p, q, r, Lock(a))
  {
    var d := Apply(c, Lock(a));
    if Waits(d, account, p) {
      var k :| WaitsAt(d, account, p, k);
      assert WaitsAt(c, account, p, k);
    }
  }

  /** Whatever happens in other processes leaves the way open. */
  lemma ElsewhereClears(c: State, account: string, p: nat, q: nat, r: nat, step: Step)
    requires Enabled(c, step) && !step.Lock? && step.p != p && Viable(c, account, p, q, r)
    requires Calm(step.b)
    ensures Clearing(c, account, p, q, r, step)
  {
    var d := Apply(c, step);
    if Waits(d, account, p) {
      var k :| WaitsAt(d, account, p, k);
      assert WaitsAt(c, account, p, k);
    }
  }

  ghost predicate OfSystem(b: B.Step) { b.OfDispatcher() || b.OfFlight() || b.OfSender() }

  /** A batcher step outside its clients, taken together with the lock session underneath. */
  ghost predicate Lifts(c: State, s: nat, b: B.Step, step: Step) {
    && Enabled(c, step)
    && if step.Lock? then
         !step.a.Start? && !step.a.Expire? &&
         exists h :: (s, Of(h)) in c.current && c.current[(s, Of(h))] == step.a.i
       else
         step.p == s && OfSystem(step.b) && Calm(step.b) && (step.b == b || (b.Returns() && step.b.Returns()))
  }

  lemma SystemIsCalm(b: B.Step)
    requires OfSystem(b)
    ensures Calm(b) && !b.OfClient()
  {
  }

  lemma Lift(c: State, s: nat, b: B.Step) returns (step: Step)
    requires Inv(c) && s < |c.procs| && B.Enabled(c.procs[s], b)
    requires OfSystem(b)
    ensures Lifts(c, s, b, step)
  {
    SystemIsCalm(b);
    if b.Takes() {
      ClusterProgress.CanEnter(c, s, b);
      step := Enter(s, b, ClusterProgress.KindOf(b));
    } else if b.Returns() {
      step := ClusterProgress.HolderReturns(c, s, b);
    } else {
      step := Inner(s, b);
    }
  }

  lemma LiftedAside(c: State, account: string, p: nat, q: nat, s: nat, b: B.Step, step: Step)
    requires AccountInv(c) && CurrentInv(c) && Lifts(c, s, b, step) && step.Lock?
    ensures Aside(c, account, p, q, step)
  {
    var h :| (s, Of(h)) in c.current && c.current[(s, Of(h))] == step.a.i;
    if Holds(c, account, p, q) {
      assert HasAccount(c, p, account, q);
      assert (s, Of(h)) != (p, ByClient(q));
    }
  }

  /** A full channel moves. */
  lemma RoomMoves(c: State, account: string, p: nat, q: nat, r: nat, s: nat) returns (step: Step)
    requires Inv(c) && c.pool != [] && Contended(c, account, p, q, r) && s < |c.procs|
    requires |c.procs[s].channel| >= B.CHANNEL_CAP && (s == p ==> Spacious(c, account, p, q))
    ensures Clearing(c, account, p, q, r, step)
  {
    if s == p {
      step := RoomHere(c, account, p, q, r);
    } else {
      step := RoomElsewhere(c, account, p, q, r, s);
    }
  }

  lemma LiftedLock(c: State, account: string, p: nat, q: nat, r: nat, s: nat, b: B.Step, step: Step)
    requires AccountInv(c) && CurrentInv(c) && Viable(c, account, p, q, r) && Lifts(c, s, b, step) && step.Lock?
    ensures Clearing(c, account, p, q, r, step)
  {
    LiftedAside(c, account, p, q, s, b, step);
    LockClears(c, account, p, q, r, step.a);
  }

  lemma LiftedElsewhere(c: State, account: string, p: nat, q: nat, r: nat, s: nat, b: B.Step, step: Step)
    requires Viable(c, account, p, q, r) && Lifts(c, s, b, step) && !step.Lock? && s != p
    ensures Clearing(c, account, p, q, r, step)
  {
    ElsewhereClears(c, account, p, q, r, step);
  }

  /** A full channel moves, or what is in its way. */
  lemma QueueLifts(c: State, s: nat) returns (b: B.Step, step: Step)
    requires Inv(c) && c.pool != [] && s < |c.procs| && |c.procs[s].channel| >= B.CHANNEL_CAP
    ensures Lifts(c, s, b, step)
  {
    b := BatcherProgress.QueueMoves(c.procs[s]);
    step := Lift(c, s, b);
  }

  lemma RoomElsewhere(c: State, account: string, p: nat, q: nat, r: nat, s: nat) returns (step: Step)
    requires Inv(c) && c.pool != [] && Viable(c, account, p, q, r) && s < |c.procs| && s != p
    requires |c.procs[s].channel| >= B.CHANNEL_CAP
    ensures Clearing(c, account, p, q, r, step)
  {
    var b;
    b, step := QueueLifts(c, s);
    if step.Lock? {
      LiftedLock(c, account, p, q, r, s, b, step);
    } else {
      LiftedElsewhere(c, account, p, q, r, s, b, step);
    }
  }

  /** An operation whose client does not hold the account any more is abandoned. */
  lemma UnheldIsAbandoned(c: State, account: string, p: nat, q: nat)
    requires ProcsInv(c) && Open(c, account, p, q) && !Holds(c, account, p, q)
    ensures Abandoned(c, account, p, q)
  {
    if !Abandoned(c, account, p, q) {
      BatcherTheorems.LiveOp(c.procs[p], account, q);
    }
  }

  /** The channel of process p moves without an answer for operation q. */
  lemma RoomLifts(c: State, account: string, p: nat, q: nat) returns (b: B.Step, step: Step)
    requires Inv(c) && Open(c, account, p, q)
    requires Spacious(c, account, p, q) && |c.procs[p].channel| >= B.CHANNEL_CAP
    ensures Lifts(c, p, b, step) && Relieves(c.procs[p], b, q)
  {
    UnheldIsAbandoned(c, account, p, q);
    b := BatcherSerial.RoomStep(c.procs[p], account, q);
    SystemIsCalm(b);
    step := Lift(c, p, b);
  }

  lemma SameRelieves(s: B.State, b: B.Step, d: B.Step, q: nat)
    requires Relieves(s, b, q) && OfSystem(d) && B.Enabled(s, d) && (d == b || (b.Returns() && d.Returns()))
    ensures Relieves(s, d, q)
  {
    SystemIsCalm(d);
  }

  /** The step helps the channel and leaves operation q unanswered. */
  ghost predicate Relieves(s: B.State, b: B.Step, q: nat) {
    && OfSystem(b) && B.Enabled(s, b) && Beside(s, b, q)
    && (!b.OfDispatcher() ==> BatcherSerial.HandFull(s.dispatcher))
  }

  lemma RoomHere(c: State, account: string, p: nat, q: nat, r: nat) returns (step: Step)
    requires Inv(c) && Open(c, account, p, q)
    requires Spacious(c, account, p, q) && |c.procs[p].channel| >= B.CHANNEL_CAP
    ensures Clearing(c, account, p, q, r, step)
  {
    var b;
    b, step := RoomLifts(c, account, p, q);
    if step.Lock? {
      LiftedLock(c, account, p, q, r, p, b, step);
    } else {
      SameRelieves(c.procs[p], b, step.b, q);
      HereClears(c, account, p, q, r, step);
    }
  }

  lemma HereClears(c: State, account: string, p: nat, q: nat, r: nat, step: Step)
    requires ProcsInv(c) && Enabled(c, step) && !step.Lock? && step.p == p && p < |c.procs|
    requires Spacious(c, account, p, q) && |c.procs[p].channel| >= B.CHANNEL_CAP
    requires Relieves(c.procs[p], step.b, q)
    ensures Clearing(c, account, p, q, r, step)
  {
    SystemIsCalm(step.b);
    StaysSpacious(c, account, p, q, step);
  }

  lemma StaysSpacious(c: State, account: string, p: nat, q: nat, step: Step)
    requires ProcsInv(c) && Enabled(c, step) && !step.Lock? && step.p == p && p < |c.procs|
    requires Spacious(c, account, p, q) && |c.procs[p].channel| >= B.CHANNEL_CAP
    requires Relieves(c.procs[p], step.b, q)
    ensures Spacious(Apply(c, step), account, p, q)
  {
    BatcherSerial.StaysUnblocked(c.procs[p], step.b, q);
    BatcherSafety.AccountFrame(c.procs[p], step.b, account, q);
  }

  // ---------- Whoever is in the way moves on ----------

  /** A client that goes on under its account lock without an offer leaves the way open. */
  lemma ClientClears(c: State, account: string, p: nat, q: nat, r: nat, step: Step)
    requires Enabled(c, step) && step.Client? && (step.b.Prepare? || step.b.Collect?)
    requires (step.p, step.b.c) != (p, q) && Open(c, account, p, q) && Viable(c, account, p, q, r)
    requires step.p == p && step.b.Prepare? && step.b.ok ==> Spacious(c, account, p, q)
    ensures Clearing(c, account, p, q, r, step)
  {
    if step.p != p {
      ElsewhereClears(c, account, p, q, r, step);
    } else {
      ClientHere(c, account, p, q, r, step);
    }
  }

  lemma ClientHere(c: State, account: string, p: nat, q: nat, r: nat, step: Step)
    requires Enabled(c, step) && step.Client? && (step.b.Prepare? || step.b.Collect?)
    requires step.p == p && step.b.c != q && Open(c, account, p, q) && Viable(c, account, p, q, r)
    requires step.b.Prepare? && step.b.ok ==> Spacious(c, account, p, q)
    ensures Clearing(c, account, p, q, r, step)
  {
    AsideFrame(c, account, p, q, step);
    if !Spacious(c, account, p, q) {
      NobodyWaits(c, account, p, step);
    }
  }

  lemma NobodyWaits(c: State, account: string, p: nat, step: Step)
    requires Enabled(c, step) && step.Client? && step.p == p && !Waits(c, account, p)
    requires step.b.Collect? || (step.b.Prepare? && !step.b.ok)
    ensures !Waits(Apply(c, step), account, p)
  {
    var d := Apply(c, step);
    if Waits(d, account, p) {
      var k :| WaitsAt(d, account, p, k);
      assert WaitsAt(c, account, p, k);
    }
  }

  lemma InsideGoesOn(c: State, account: string, s: nat, b: B.Step)
    requires (b.Prepare? || b.Collect?) && Holds(c, account, s, b.c) && IsInside(c, s, b.c)
    requires B.Enabled(c.procs[s], b)
    ensures Enabled(c, Client(s, b))
  {
  }

  lemma SecondIsAnswered(c: State, account: string, p: nat, q: nat, s: nat, j: nat)
    requires ProcsInv(c) && Serial(c, account) && Open(c, account, p, q)
    requires Holds(c, account, s, j) && (s, j) != (p, q) && c.procs[s].clients[j].pc.Awaiting?
    ensures c.procs[s].clients[j].mailbox != []
  {
    assert !Open(c, account, s, j);
    assert BatcherSafety.Inv(c.procs[s]);
  }

  /** The client of another session that is inside the account lock goes on. */
  lemma ClientMoves(c: State, account: string, p: nat, q: nat, r: nat, s: nat, j: nat) returns (step: Step)
    requires Inv(c) && c.pool != [] && Contended(c, account, p, q, r)
    requires Holds(c, account, s, j) && (s, j) != (p, q) && IsInside(c, s, j)
    ensures Clearing(c, account, p, q, r, step)
  {
    if c.procs[s].clients[j].pc.Offering? {
      step := OfferMoves(c, account, p, q, r, s, j);
    } else {
      var b := if c.procs[s].clients[j].pc.Preparing? then B.Prepare(j, s != p || Spacious(c, account, p, q))
               else B.Collect(j);
      if b.Collect? {
        SecondIsAnswered(c, account, p, q, s, j);
      }
      InsideGoesOn(c, account, s, b);
      step := Client(s, b);
      ClientClears(c, account, p, q, r, step);
    }
  }

  lemma OfferMoves(c: State, account: string, p: nat, q: nat, r: nat, s: nat, j: nat) returns (step: Step)
    requires Inv(c) && c.pool != [] && Contended(c, account, p, q, r)
    requires WaitsAt(c, account, s, j) && (s, j) != (p, q)
    ensures Clearing(c, account, p, q, r, step)
  {
    if |c.procs[s].channel| < B.CHANNEL_CAP {
      step := Inner(s, B.Offer(j));
      SecondOffer(c, account, p, q, s, j);
    } else {
      step := RoomMoves(c, account, p, q, r, s);
    }
  }

  lemma SecondOffer(c: State, account: string, p: nat, q: nat, s: nat, j: nat)
    requires ProcsInv(c) && Open(c, account, p, q) && WaitsAt(c, account, s, j) && (s, j) != (p, q)
    requires |c.procs[s].channel| < B.CHANNEL_CAP
    ensures var step := Inner(s, B.Offer(j));
      Aside(c, account, p, q, step) && !Serial(Apply(c, step), account)
  {
    OfferOpens(c, account, s, j);
    AsideFrame(c, account, p, q, Inner(s, B.Offer(j)));
    BothOpen(Apply(c, Inner(s, B.Offer(j))), account, p, q, s, j);
  }

  lemma OfferOpens(c: State, account: string, s: nat, j: nat)
    requires ProcsInv(c) && WaitsAt(c, account, s, j) && |c.procs[s].channel| < B.CHANNEL_CAP
    ensures var step := Inner(s, B.Offer(j));
      && Enabled(c, step)
      && Open(Apply(c, step), account, s, j) && Holds(Apply(c, step), account, s, j)
  {
    BatcherTheorems.OfferOpens(c.procs[s], account, j);
    BatcherSafety.AccountFrame(c.procs[s], B.Offer(j), account, j);
  }

  lemma BothOpen(c: State, account: string, p: nat, q: nat, r: nat, t: nat)
    requires Open(c, account, p, q) && Open(c, account, r, t) && (p, q) != (r, t)
    ensures !Serial(c, account)
  {
  }

  /** The client behind a session that is inside the account lock. */
  lemma InsideClient(c: State, account: string, i: nat) returns (j: nat)
    requires AccountInv(c) && KeptInv(c) && c.locks.Is(i) && AccountSession(c, i)
    requires c.locks.sessions[i].wallet == AccountLock(c.chain, account)
    ensures var s := c.locks.sessions[i].process;
      Holds(c, account, s, j) && (s, ByClient(j)) in c.current && c.current[(s, ByClient(j))] == i
  {
    var a;
    a, j :| Kept(c, i, a, j);
    assert HasAccount(c, c.locks.sessions[i].process, a, j);
    assert ("account:" + a)[8..] == ("account:" + account)[8..];
    assert a == account;
  }

  /** Any other session of the account goes on. */
  lemma OtherMoves(c: State, account: string, p: nat, q: nat, r: nat, i: nat) returns (step: Step)
    requires Inv(c) && c.pool != [] && Contended(c, account, p, q, r)
    requires c.locks.Is(i) && c.locks.sessions[i].pc.HoldsLocal()
    requires c.locks.sessions[i].wallet == AccountLock(c.chain, account)
    requires Holds(c, account, p, q) ==> (p, ByClient(q)) in c.current && c.current[(p, ByClient(q))] != i
    ensures Clearing(c, account, p, q, r, step)
  {
    if c.locks.sessions[i].kind == L.Account && c.locks.sessions[i].pc.Inside? {
      var j := InsideClient(c, account, i);
      step := ClientMoves(c, account, p, q, r, c.locks.sessions[i].process, j);
    } else {
      AccountNotInPool(c.pool, c.chain, account);
      step := ClusterProgress.OutsiderMoves(c, i);
      LockClears(c, account, p, q, r, step.a);
    }
  }

  /** Whoever has the entry of the account gives it up some time, or it was left behind and may expire. */
  lemma EntryMoves(c: State, account: string, p: nat, q: nat, r: nat) returns (step: Step)
    requires Inv(c) && c.locks.distributed && c.pool != [] && Contended(c, account, p, q, r)
    requires Key(c, account) in c.locks.entries
    ensures Clearing(c, account, p, q, r, step)
  {
    var e := L.Writer(c.locks, Key(c, account));
    ClusterProgress.SameMutexSameWallet(c.locks, e, AccountLock(c.chain, account));
    if c.locks.sessions[e].pc.Owns() {
      NotTheWriter(c, account, p, q, e);
      step := OtherMoves(c, account, p, q, r, e);
    } else {
      step := Lock(L.Expire(Key(c, account)));
      OrphanExpires(c, account, p, q, r, e);
    }
  }

  lemma OrphanExpires(c: State, account: string, p: nat, q: nat, r: nat, e: nat)
    requires L.TokenDistinct(c.locks) && Key(c, account) in c.locks.entries && Viable(c, account, p, q, r)
    requires L.WroteEntry(c.locks, e, Key(c, account)) && !c.locks.sessions[e].pc.Owns()
    ensures Clearing(c, account, p, q, r, Lock(L.Expire(Key(c, account))))
  {
    L.OrphanUnowned(c.locks, e);
    LockClears(c, account, p, q, r, L.Expire(Key(c, account)));
  }

  lemma NotTheWriter(c: State, account: string, p: nat, q: nat, e: nat)
    requires AccountInv(c) && Loose(c, account, p, q) && c.locks.Is(e) && c.locks.Leased(e)
    ensures Holds(c, account, p, q) ==> (p, ByClient(q)) in c.current && c.current[(p, ByClient(q))] != e
  {
    if Holds(c, account, p, q) {
      assert HasAccount(c, p, account, q);
    }
  }

  /** Whoever has the mutex of the account in process r goes on. */
  lemma MutexMoves(c: State, account: string, p: nat, q: nat, r: nat) returns (step: Step)
    requires Inv(c) && c.pool != [] && Contended(c, account, p, q, r) && (r, Key(c, account)) in c.locks.mutexes
    ensures Clearing(c, account, p, q, r, step)
  {
    var h := c.locks.mutexes[(r, Key(c, account))];
    ClusterProgress.SameMutexSameWallet(c.locks, h, AccountLock(c.chain, account));
    if Holds(c, account, p, q) {
      assert HasAccount(c, p, account, q);
    }
    step := OtherMoves(c, account, p, q, r, h);
  }

  /** A client of process r that did not get the account returns. */
  lemma LoserReturns(c: State, account: string, p: nat, q: nat, r: nat) returns (step: Step)
    requires ProcsInv(c) && AccountInv(c) && L.MutexInv(c.locks) && L.KeyInv(c.locks)
    requires Contended(c, account, p, q, r)
    requires (r, Key(c, account)) !in c.locks.mutexes && account in c.procs[r].accountLocks
    ensures Clearing(c, account, p, q, r, step)
  {
    var j := c.procs[r].accountLocks[account];
    MayReturn(c, account, r, j);
    step := Client(r, B.Prepare(j, false));
    ClientClears(c, account, p, q, r, step);
  }

  lemma MayReturn(c: State, account: string, r: nat, j: nat)
    requires AccountInv(c) && L.MutexInv(c.locks) && L.KeyInv(c.locks) && Holds(c, account, r, j)
    requires (r, Key(c, account)) !in c.locks.mutexes
    ensures Enabled(c, Client(r, B.Prepare(j, false)))
  {
    assert HasAccount(c, r, account, j);
    assert c.locks.sessions[c.current[(r, ByClient(j))]].Mutex() == (r, Key(c, account));
  }

  lemma ClearingStep(c: State, account: string, p: nat, q: nat, r: nat) returns (step: Step)
    requires Inv(c) && c.locks.distributed && c.pool != [] && Contended(c, account, p, q, r)
    requires !Clear(c, account, r) || |c.procs[r].channel| >= B.CHANNEL_CAP
    ensures Clearing(c, account, p, q, r, step)
  {
    if Key(c, account) in c.locks.entries {
      step := EntryMoves(c, account, p, q, r);
    } else if (r, Key(c, account)) in c.locks.mutexes {
      step := MutexMoves(c, account, p, q, r);
    } else if account in c.procs[r].accountLocks {
      step := LoserReturns(c, account, p, q, r);
    } else {
      step := RoomMoves(c, account, p, q, r, r);
    }
  }

  // ---------- The second operation ----------

  /** The run neither cancels a client nor takes an owner's entry of the account, and ends with two operations. */
  ghost predicate Breaks(c: State, account: string, steps: seq<Step>) {
    && Valid(c, steps) && NoCancel(steps) && SparingRun(c, steps, Key(c, account))
    && !Serial(Exec(c, steps), account)
  }

  lemma BreaksCons(c: State, account: string, step: Step, rest: seq<Step>)
    requires Enabled(c, step) && Spares(c, step, Key(c, account)) && (!step.Lock? ==> !step.b.Cancel?)
    requires Breaks(Apply(c, step), account, rest)
    ensures Breaks(c, account, [step] + rest)
  {
    var steps := Runs.Cons(Apply, c, step, rest);
  }

  lemma AsideShrinks(c: State, account: string, p: nat, q: nat, step: Step)
    requires ProcsInv(c) && Aside(c, account, p, q, step)
    ensures ClusterProgress.Work(Apply(c, step)) < ClusterProgress.Work(c)
  {
    ClusterProgress.WorkShrinks(c, step);
  }

  /** Whatever the holders of the account are doing, a second operation can join one that no lease protects. */
  lemma {:induction false} Break(c: State, account: string, p: nat, q: nat, r: nat) returns (steps: seq<Step>)
    requires Inv(c) && c.locks.distributed && c.pool != []
    requires Contended(c, account, p, q, r) || !Serial(c, account)
    ensures Breaks(c, account, steps)
    decreases ClusterProgress.Work(c)
  {
    if !Serial(c, account) {
      steps := [];
    } else if Clear(c, account, r) && |c.procs[r].channel| < B.CHANNEL_CAP {
      steps := BreakClear(c, account, p, q, r);
    } else {
      var step := ClearingStep(c, account, p, q, r);
      StillContended(c, account, p, q, r, step);
      var rest := Break(Apply(c, step), account, p, q, r);
      BreaksCons(c, account, step, rest);
      steps := [step] + rest;
    }
  }

  lemma BreakClear(c: State, account: string, p: nat, q: nat, r: nat) returns (steps: seq<Step>)
    requires c.locks.distributed && r < |c.procs| && Clear(c, account, r) && |c.procs[r].channel| < B.CHANNEL_CAP
    requires Open(c, account, p, q)
    ensures Breaks(c, account, steps)
  {
    steps := OpenAt(c, account, r);
    PlainSpares(c, steps, Key(c, account));
    OpenStays(c, Exec(c, steps), r, account, p, q);
    BothOpen(Exec(c, steps), account, p, q, r, |c.procs[r].clients|);
  }

  lemma StillContended(c: State, account: string, p: nat, q: nat, r: nat, step: Step)
    requires Inv(c) && Contended(c, account, p, q, r) && Clearing(c, account, p, q, r, step)
    ensures var d := Apply(c, step);
      && Inv(d) && d.locks.distributed == c.locks.distributed && d.pool == c.pool
      && (Contended(d, account, p, q, r) || !Serial(d, account))
      && ClusterProgress.Work(d) < ClusterProgress.Work(c)
  {
    ConfigStep(c, step);
    AsideShrinks(c, account, p, q, step);
    InvStep(c, step);
    StaysLoose(c, account, p, q, step);
  }

  // ---------- A client behind an expired entry ----------

  /** A client that waits for room in the channel behind an expired entry. */
  ghost predicate Stranded(c: State, account: string, p: nat, k: nat) {
    WaitsAt(c, account, p, k) && Lapsed(c, p, k)
  }

  lemma StaysStranded(c: State, account: string, p: nat, k: nat, step: Step)
    requires L.Inv(c.locks) && CurrentInv(c) && Aside(c, account, p, k, step) && Stranded(c, account, p, k)
    ensures Stranded(Apply(c, step), account, p, k)
  {
    AsideLapsed(c, account, p, k, step);
    AsideWaits(c, account, p, k, step);
  }

  lemma AsideWaits(c: State, account: string, p: nat, k: nat, step: Step)
    requires Aside(c, account, p, k, step) && WaitsAt(c, account, p, k)
    ensures WaitsAt(Apply(c, step), account, p, k)
  {
    if !step.Lock? && step.p == p {
      BatcherSafety.ClientsFrame(c.procs[p], step.b);
    }
  }

  lemma StillStranded(c: State, account: string, p: nat, k: nat, step: Step)
    requires Inv(c) && Aside(c, account, p, k, step) && Stranded(c, account, p, k)
    ensures var d := Apply(c, step);
      && Inv(d) && Stranded(d, account, p, k) && |d.procs| == |c.procs|
      && d.locks.distributed == c.locks.distributed && d.pool == c.pool
      && ClusterProgress.Work(d) < ClusterProgress.Work(c)
  {
    ConfigStep(c, step);
    AsideShrinks(c, account, p, k, step);
    StaysStranded(c, account, p, k, step);
    InvStep(c, step);
  }

  /** The channel in front of it moves. */
  lemma StrandedMoves(c: State, account: string, p: nat, k: nat) returns (step: Step)
    requires Inv(c) && c.pool != [] && Stranded(c, account, p, k) && |c.procs[p].channel| >= B.CHANNEL_CAP
    ensures Aside(c, account, p, k, step) && (step.Lock? ==> !step.a.Expire?)
  {
    var b;
    b, step := QueueLifts(c, p);
    if step.Lock? {
      LiftedAside(c, account, p, k, p, b, step);
    } else {
      LiftedBeside(c, account, p, k, step);
    }
  }

  lemma LiftedBeside(c: State, account: string, p: nat, k: nat, step: Step)
    requires ProcsInv(c) && Enabled(c, step) && !step.Lock? && step.p == p && WaitsAt(c, account, p, k)
    requires OfSystem(step.b)
    ensures Aside(c, account, p, k, step)
  {
    SystemIsCalm(step.b);
    NotTold(c.procs[p], step.b, k);
  }

  lemma NotTold(s: B.State, b: B.Step, k: nat)
    requires BatcherSafety.Inv(s) && B.Enabled(s, b) && !b.OfClient() && k < |s.clients| && s.clients[k].pc.Offering?
    ensures Beside(s, b, k)
  {
    if b.Tell? {
      BatcherSafety.NotDispatched(s, k);
      BatcherSerial.NotIn(s.flights, b.f, k);
    }
  }

  /** A client that waits for the channel behind an expired entry gets in, and another process follows. */
  lemma {:induction false} BreakStranded(c: State, account: string, p: nat, k: nat) returns (steps: seq<Step>)
    requires Inv(c) && c.locks.distributed && c.pool != [] && |c.procs| > 1 && Stranded(c, account, p, k)
    ensures Breaks(c, account, steps)
    decreases ClusterProgress.Work(c)
  {
    var step, rest;
    if |c.procs[p].channel| < B.CHANNEL_CAP {
      step := Inner(p, B.Offer(k));
      rest := BreakOffered(c, account, p, k);
    } else {
      step := StrandedMoves(c, account, p, k);
      StillStranded(c, account, p, k, step);
      rest := BreakStranded(Apply(c, step), account, p, k);
    }
    BreaksCons(c, account, step, rest);
    steps := [step] + rest;
  }

  lemma BreakOffered(c: State, account: string, p: nat, k: nat) returns (rest: seq<Step>)
    requires Inv(c) && c.locks.distributed && c.pool != [] && |c.procs| > 1 && Stranded(c, account, p, k)
    requires |c.procs[p].channel| < B.CHANNEL_CAP
    ensures Enabled(c, Inner(p, B.Offer(k))) && Breaks(Apply(c, Inner(p, B.Offer(k))), account, rest)
  {
    var step := Inner(p, B.Offer(k));
    OfferLoosens(c, account, p, k);
    InvStep(c, step);
    ConfigStep(c, step);
    rest := BreakAwaiting(Apply(c, step), account, p, k);
  }

  lemma OfferLoosens(c: State, account: string, p: nat, k: nat)
    requires ProcsInv(c) && Stranded(c, account, p, k) && |c.procs[p].channel| < B.CHANNEL_CAP
    ensures var step := Inner(p, B.Offer(k));
      && Enabled(c, step)
      && Loose(Apply(c, step), account, p, k) && Holds(Apply(c, step), account, p, k)
  {
    OfferOpens(c, account, p, k);
  }

  lemma BreakAwaiting(c: State, account: string, p: nat, k: nat) returns (steps: seq<Step>)
    requires Inv(c) && c.locks.distributed && c.pool != [] && |c.procs| > 1
    requires Loose(c, account, p, k) && Holds(c, account, p, k)
    ensures Breaks(c, account, steps)
  {
    NobodyElseWaits(c, account, p, k);
    steps := Break(c, account, p, k, if p == 0 then 1 else 0);
  }

  lemma NobodyElseWaits(c: State, account: string, p: nat, k: nat)
    requires ProcsInv(c) && Open(c, account, p, k) && Holds(c, account, p, k)
    ensures !Waits(c, account, p)
  {
    assert BatcherSafety.Inv(c.procs[p]);
  }

  /** Whoever is exposed is inside its lock as far as it knows. */
  lemma ExposedClient(c: State, account: string, p: nat, q: nat)
    requires ProcsInv(c) && AccountInv(c) && Exposed(c, account, p, q)
    ensures IsInside(c, p, q)
    ensures c.procs[p].clients[q].pc.Awaiting? ==> Open(c, account, p, q)
  {
    assert HasAccount(c, p, account, q);
    assert BatcherSafety.Inv(c.procs[p]);
  }

  lemma BreakExposed(c: State, account: string, p: nat, q: nat) returns (steps: seq<Step>)
    requires Inv(c) && c.locks.distributed && c.pool != [] && |c.procs| > 1 && Exposed(c, account, p, q)
    ensures Breaks(c, account, steps)
  {
    ExposedClient(c, account, p, q);
    match c.procs[p].clients[q].pc
    case Preparing => steps := BreakPreparing(c, account, p, q);
    case Offering => steps := BreakStranded(c, account, p, q);
    case Awaiting => steps := BreakAwaiting(c, account, p, q);
  }

  lemma PrepareStrands(c: State, account: string, p: nat, q: nat)
    requires Holds(c, account, p, q) && Lapsed(c, p, q) && IsInside(c, p, q)
    requires c.procs[p].clients[q].pc.Preparing?
    ensures var step := Client(p, B.Prepare(q, true));
      Enabled(c, step) && Stranded(Apply(c, step), account, p, q)
  {
    InsideGoesOn(c, account, p, B.Prepare(q, true));
  }

  lemma BreakPreparing(c: State, account: string, p: nat, q: nat) returns (steps: seq<Step>)
    requires Inv(c) && c.locks.distributed && c.pool != [] && |c.procs| > 1 && Exposed(c, account, p, q)
    requires c.procs[p].clients[q].pc.Preparing? && IsInside(c, p, q)
    ensures Breaks(c, account, steps)
  {
    var step := Client(p, B.Prepare(q, true));
    PrepareStrands(c, account, p, q);
    InvStep(c, step);
    ConfigStep(c, step);
    var rest := BreakStranded(Apply(c, step), account, p, q);
    BreaksCons(c, account, step, rest);
    steps := [step] + rest;
  }

  // ---------- The exact condition ----------

  lemma BreakAbandoned(c: State, account: string, p: nat, q: nat) returns (steps: seq<Step>)
    requires Inv(c) && c.locks.distributed && c.pool != [] && Serial(c, account)
    requires Abandoned(c, account, p, q) && !Sealed(c, account, p, q)
    ensures Breaks(c, account, steps)
  {
    if BatcherSerial.Blocked(c.procs[p], q) {
      steps := Break(c, account, p, q, if p == 0 then 1 else 0);
    } else {
      if |c.procs[p].channel| >= B.CHANNEL_CAP {
        BatcherSerial.NotBlocked(c.procs[p], account, q);
      }
      steps := Break(c, account, p, q, p);
    }
  }

  lemma BreakHarmful(c: State, account: string) returns (steps: seq<Step>)
    requires Inv(c) && c.locks.distributed && c.pool != [] && !Harmless(c, account)
    ensures Breaks(c, account, steps)
  {
    if !Serial(c, account) {
      steps := [];
    } else if p, q :| Abandoned(c, account, p, q) && !Sealed(c, account, p, q) {
      steps := BreakAbandoned(c, account, p, q);
    } else {
      var p, q :| Exposed(c, account, p, q);
      steps := BreakExposed(c, account, p, q);
    }
  }

  /**
   * The exact condition, for any number of processes and however full the channels. From any state a run with
   * Redis can reach, every continuation that cancels no client and lets no owner of the account lose its entry
   * keeps the account at one unresolved operation if and only if none of its operations is abandoned (but for
   * one that is sealed off until it is answered) and, unless there is only one process, no client with the
   * account is unanswered behind an expired entry.
   */
  lemma SerialIffHarmless(g: Setup, past: seq<Step>, account: string)
    requires ProperPool(g.pool) && g.pool != [] && g.distributed && Valid(Init(g), past)
    ensures Harmless(Exec(Init(g), past), account) <==> StaysSerial(Exec(Init(g), past), account)
  {
    Reachable(g, past);
    ConfigKept(Init(g), past);
    var c := Exec(Init(g), past);
    if Harmless(c, account) {
      forall steps | Valid(c, steps) && NoCancel(steps) && SparingRun(c, steps, Key(c, account))
        ensures Serial(Exec(c, steps), account)
      {
        HarmlessRun(c, steps, account);
      }
    } else {
      var steps := BreakHarmful(c, account);
      assert !Serial(Exec(c, steps), account);
    }
  }
}
