/**
 * The batcher of one process and one chain (internal/userop/batcher.go) with everything in that
 * process that can hold up an operation: clients, some of which hold an account lock while they wait
 * (internal/transfer/send.go), and other senders that take the same wallet locks
 * (internal/core/tx.go). Every blocking point is a step; `submit` may return anything.
 *
 * An operation is named by the index of the client that produced it.
 */
module Batcher {
  import opened Common
  import RoundRobin
  import Runs

  const MAX_BATCH := 50
  const CHANNEL_CAP := 2 * MAX_BATCH

  /** The pair (txHash, err) of sendUnderLock, and the opResult sent to a client. */
  datatype Outcome = Outcome(hash: string, err: Option<string>) {
    predicate Ok() { err.None? }
  }

  datatype ClientPc =
    | WantAccount                          // blocked on the account lock
    | Preparing                            // reads the account nonce and fees, signs
    | Offering                             // blocked on the channel send
    | Awaiting                             // blocked on the result channel
    | Returned(result: Option<Outcome>)    // None: failed before the channel, or cancelled
  {
    predicate HoldsAccount() { Preparing? || Offering? || Awaiting? }
  }

  /** mailbox is the result channel; answers records everything ever sent to it. */
  datatype Client = Client(account: Option<string>, pc: ClientPc, mailbox: seq<Outcome>, answers: seq<Outcome>)

  datatype Attempt = Attempt(ops: seq<nat>, outcome: Outcome)

  datatype FlightPc =
    | WantBatch              // blocked on the wallet lock, for the whole batch
    | InBatch                // submitting the whole batch
    | Spread(next: nat)      // batch succeeded, sending its hash to batch[next..]
    | WantOne(next: nat)     // batch failed, blocked on the wallet lock for batch[next]
    | InOne(next: nat)       // submitting batch[next] alone
    | Reply(next: nat)       // sending the outcome of that submission
    | ReplyErr               // the batch was a single operation and failed
    | Leaving                // about to give the semaphore slot back
    | Gone
  {
    predicate HoldsWallet() { InBatch? || InOne? }
  }

  datatype Flight = Flight(wallet: nat, batch: seq<nat>, sawEmpty: bool, attempts: seq<Attempt>, pc: FlightPc) {
    /** How many operations of the batch have been answered. */
    function Told(): nat {
      match pc
      case WantBatch => 0
      case InBatch => 0
      case Spread(n) => n
      case WantOne(n) => n
      case InOne(n) => n
      case Reply(n) => n
      case ReplyErr => 0
      case Leaving => |batch|
      case Gone => |batch|
    }

    predicate Telling() { (pc.Spread? || pc.Reply? || pc.ReplyErr?) && Told() < |batch| && attempts != [] }

    /** What flush sends next. */
    function Message(): Outcome
      requires Telling()
    {
      var last := attempts[|attempts| - 1].outcome;
      match pc
      case Spread(_) => Outcome(last.hash, None)
      case Reply(_) => last
      case _ => Outcome("", last.err)
    }

    function AfterMessage(): FlightPc
      requires Telling()
    {
      if pc.ReplyErr? || pc.next + 1 >= |batch| then Leaving
      else if pc.Spread? then Spread(pc.next + 1)
      else WantOne(pc.next + 1)
    }
  }

  datatype SenderPc = Want | In | Done

  datatype Sender = Sender(wallet: nat, pc: SenderPc)

  datatype Holder = ByFlight(f: nat) | BySender(j: nat)

  datatype Dispatcher =
    | Idle                                                        // blocked on the channel
    | Draining(batch: seq<nat>)
    | Choosing(batch: seq<nat>, sawEmpty: bool)
    | WantSlot(batch: seq<nat>, sawEmpty: bool, wallet: nat)      // blocked on the semaphore
  {
    function Held(): seq<nat> { if Idle? then [] else batch }
  }

  datatype State = State(
    wallets: nat,                       // pool size, also the capacity of the semaphore
    clients: seq<Client>,
    channel: seq<nat>,
    accepted: seq<nat>,                 // everything the channel ever accepted, in order
    dispatcher: Dispatcher,
    slots: nat,                         // semaphore slots in use
    flights: seq<Flight>,               // in dispatch order
    senders: seq<Sender>,
    walletLocks: map<nat, Holder>,
    accountLocks: map<string, nat>
  )

  datatype Step =
    | Arrive(account: Option<string>)
    | ArriveSender(wallet: nat)
    // clients
    | TakeAccount(c: nat)
    | Prepare(c: nat, ok: bool)
    | Offer(c: nat)
    | Collect(c: nat)
    | Cancel(c: nat)
    // the dispatcher
    | Receive
    | Drain
    | EndDrain
    | Choose(counter: Option<int>)     // what the round-robin cursor yields, if it answers
    | Launch
    // flushes
    | TakeBatch(f: nat)
    | SubmitBatch(f: nat, outcome: Outcome)
    | TakeOne(f: nat)
    | SubmitOne(f: nat, outcome: Outcome)
    | Tell(f: nat)
    | Leave(f: nat)
    // other senders
    | TakeWallet(j: nat)
    | Finish(j: nat)
  {
    predicate IsArrival() { Arrive? || ArriveSender? }

    predicate OfClient() { TakeAccount? || Prepare? || Offer? || Collect? || Cancel? }

    predicate OfDispatcher() { Receive? || Drain? || EndDrain? || Choose? || Launch? }

    predicate OfFlight() { TakeBatch? || SubmitBatch? || TakeOne? || SubmitOne? || Tell? || Leave? }

    predicate OfSender() { TakeWallet? || Finish? }

    /** A flush or sender takes its wallet's lock. */
    predicate Takes() { TakeBatch? || TakeOne? || TakeWallet? }

    /** Its submission returns. */
    predicate Returns() { SubmitBatch? || SubmitOne? || Finish? }

    function Holder(): Holder
      requires Takes() || Returns()
    {
      if OfSender() then BySender(j) else ByFlight(f)
    }
  }

  // ---------- When a step is enabled ----------

  predicate ClientCan(s: State, step: Step, me: Client)
    requires step.OfClient()
  {
    match step
    case TakeAccount(_) => me.pc == WantAccount && me.account.Some? && me.account.value !in s.accountLocks
    case Prepare(_, _) => me.pc == Preparing
    case Offer(_) => me.pc == Offering && |s.channel| < CHANNEL_CAP
    case Collect(_) => me.pc == Awaiting && me.mailbox != []
    case Cancel(_) => me.pc == Offering || me.pc == Awaiting
  }

  predicate DispatcherCan(s: State, step: Step)
    requires step.OfDispatcher()
  {
    match step
    case Receive => s.dispatcher.Idle? && s.channel != []
    case Drain => s.dispatcher.Draining? && |s.dispatcher.batch| < MAX_BATCH && s.channel != []
    case EndDrain => s.dispatcher.Draining? && (|s.dispatcher.batch| >= MAX_BATCH || s.channel == [])
    case Choose(_) => s.dispatcher.Choosing? && s.wallets > 0
    case Launch => s.dispatcher.WantSlot? && s.slots < s.wallets
  }

  predicate FlightCan(s: State, step: Step, me: Flight)
    requires step.OfFlight()
  {
    match step
    case TakeBatch(_) => me.pc == WantBatch && me.wallet !in s.walletLocks
    case SubmitBatch(_, _) => me.pc == InBatch
    case TakeOne(_) => me.pc.WantOne? && me.wallet !in s.walletLocks
    case SubmitOne(_, _) => me.pc.InOne? && me.pc.next < |me.batch|
    case Tell(_) => me.Telling() && me.batch[me.Told()] < |s.clients| && s.clients[me.batch[me.Told()]].mailbox == []
    case Leave(_) => me.pc == Leaving && s.slots > 0
  }

  predicate SenderCan(s: State, step: Step, me: Sender)
    requires step.OfSender()
  {
    match step
    case TakeWallet(_) => me.pc == Want && me.wallet !in s.walletLocks
    case Finish(_) => me.pc == In
  }

  predicate Enabled(s: State, step: Step) {
    if step.OfClient() then step.c < |s.clients| && ClientCan(s, step, s.clients[step.c])
    else if step.OfDispatcher() then DispatcherCan(s, step)
    else if step.OfFlight() then step.f < |s.flights| && FlightCan(s, step, s.flights[step.f])
    else if step.OfSender() then step.j < |s.senders| && SenderCan(s, step, s.senders[step.j])
    else step.ArriveSender? ==> step.wallet < s.wallets
  }

  // ---------- What a step does, component by component ----------

  function MoveClient(step: Step, me: Client): Client
    requires step.OfClient()
  {
    match step
    case TakeAccount(_) => me.(pc := Preparing)
    case Prepare(_, ok) => me.(pc := if ok then Offering else Returned(None))
    case Offer(_) => me.(pc := Awaiting)
    case Collect(_) =>
      if me.mailbox == [] then me else me.(pc := Returned(Some(me.mailbox[0])), mailbox := me.mailbox[1..])
    case Cancel(_) => me.(pc := Returned(None))
  }

  function NextClients(s: State, step: Step): seq<Client>
    requires Enabled(s, step)
  {
    if step.Arrive? then
      s.clients + [Client(step.account, if step.account.Some? then WantAccount else Offering, [], [])]
    else if step.OfClient() then s.clients[step.c := MoveClient(step, s.clients[step.c])]
    else if step.Tell? then
      var me := s.flights[step.f];
      var q := me.batch[me.Told()];
      var c := s.clients[q];
      s.clients[q := c.(mailbox := c.mailbox + [me.Message()], answers := c.answers + [me.Message()])]
    else s.clients
  }

  function NextChannel(s: State, step: Step): seq<nat>
    requires Enabled(s, step)
  {
    match step
    case Offer(c) => s.channel + [c]
    case Receive => s.channel[1..]
    case Drain => s.channel[1..]
    case _ => s.channel
  }

  function NextAccepted(s: State, step: Step): seq<nat> {
    if step.Offer? then s.accepted + [step.c] else s.accepted
  }

  function NextDispatcher(s: State, step: Step): Dispatcher
    requires Enabled(s, step)
  {
    match step
    case Receive => Draining([s.channel[0]])
    case Drain => Draining(s.dispatcher.batch + [s.channel[0]])
    case EndDrain => Choosing(s.dispatcher.batch, s.channel == [])
    case Choose(counter) =>
      WantSlot(s.dispatcher.batch, s.dispatcher.sawEmpty, RoundRobin.WalletIndex(counter, s.wallets))
    case Launch => Idle
    case _ => s.dispatcher
  }

  function NextSlots(s: State, step: Step): nat
    requires Enabled(s, step)
  {
    if step.Launch? then s.slots + 1 else if step.Leave? then s.slots - 1 else s.slots
  }

  function MoveFlight(step: Step, me: Flight): Flight
    requires step.OfFlight()
  {
    match step
    case TakeBatch(_) => me.(pc := InBatch)
    case SubmitBatch(_, o) =>
      me.(attempts := me.attempts + [Attempt(me.batch, o)],
          pc := if o.Ok() then Spread(0) else if |me.batch| > 1 then WantOne(0) else ReplyErr)
    case TakeOne(_) => if me.pc.WantOne? then me.(pc := InOne(me.pc.next)) else me
    case SubmitOne(_, o) =>
      if me.pc.InOne? && me.pc.next < |me.batch| then
        me.(attempts := me.attempts + [Attempt([me.batch[me.pc.next]], o)], pc := Reply(me.pc.next))
      else me
    case Tell(_) => if me.Telling() then me.(pc := me.AfterMessage()) else me
    case Leave(_) => me.(pc := Gone)
  }

  function NextFlights(s: State, step: Step): seq<Flight>
    requires Enabled(s, step)
  {
    if step.Launch? then
      s.flights + [Flight(s.dispatcher.wallet, s.dispatcher.batch, s.dispatcher.sawEmpty, [], WantBatch)]
    else if step.OfFlight() then s.flights[step.f := MoveFlight(step, s.flights[step.f])]
    else s.flights
  }

  function NextSenders(s: State, step: Step): seq<Sender>
    requires Enabled(s, step)
  {
    match step
    case ArriveSender(w) => s.senders + [Sender(w, Want)]
    case TakeWallet(j) => s.senders[j := s.senders[j].(pc := In)]
    case Finish(j) => s.senders[j := s.senders[j].(pc := Done)]
    case _ => s.senders
  }

  /** The wallet whose lock the step takes or gives back. */
  function WalletOf(s: State, step: Step): nat
    requires (step.Takes() || step.Returns()) && Enabled(s, step)
  {
    if step.OfSender() then s.senders[step.j].wallet else s.flights[step.f].wallet
  }

  function NextWalletLocks(s: State, step: Step): map<nat, Holder>
    requires Enabled(s, step)
  {
    if step.Takes() then s.walletLocks[WalletOf(s, step) := step.Holder()]
    else if step.Returns() then s.walletLocks - {WalletOf(s, step)}
    else s.walletLocks
  }

  /** The client returns, for whatever reason. */
  predicate Closes(s: State, step: Step)
    requires Enabled(s, step)
  {
    step.OfClient() && MoveClient(step, s.clients[step.c]).pc.Returned?
  }

  /** The account lock is given up when the client returns. */
  function NextAccountLocks(s: State, step: Step): map<string, nat>
    requires Enabled(s, step)
  {
    if step.TakeAccount? then s.accountLocks[s.clients[step.c].account.value := step.c]
    else if Closes(s, step) && s.clients[step.c].account.Some? then
      s.accountLocks - {s.clients[step.c].account.value}
    else s.accountLocks
  }

  function Apply(s: State, step: Step): State
    requires Enabled(s, step)
  {
    State(s.wallets, NextClients(s, step), NextChannel(s, step), NextAccepted(s, step),
          NextDispatcher(s, step), NextSlots(s, step), NextFlights(s, step), NextSenders(s, step),
          NextWalletLocks(s, step), NextAccountLocks(s, step))
  }

  /** A batcher over a pool of the given size. */
  function Init(wallets: nat): State {
    State(wallets, [], [], [], Idle, 0, [], [], map[], map[])
  }

  ghost predicate Valid(s: State, steps: seq<Step>) { Runs.Valid(Apply, s, steps) }

  ghost function Exec(s: State, steps: seq<Step>): State
    requires Valid(s, steps)
  {
    Runs.Exec(Apply, s, steps)
  }

  /** The operations of all flights, in dispatch order. */
  ghost function Dispatched(flights: seq<Flight>): seq<nat> {
    if flights == [] then [] else Dispatched(flights[..|flights| - 1]) + flights[|flights| - 1].batch
  }
}
