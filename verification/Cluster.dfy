/**
 * The whole deployment: one batcher per process over the same pool of hot wallets, and the nonce lock
 * with the node underneath. Where a flush, another sender or a client of a process takes the lock of a
 * wallet or account, a lock session of that process begins; what the session reaches decides what its
 * owner may do next.
 */
module Cluster {
  import opened Common
  import B = Batcher
  import L = NonceLock
  import LockKeys
  import Runs

  /** Who runs a lock session: a flush or sender with a wallet, or a client with its account. */
  datatype Owner = Of(holder: B.Holder) | ByClient(c: nat)

  datatype State = State(
    chain: LockKeys.ChainId,
    procs: seq<B.State>,
    locks: L.State,
    pool: seq<L.Wallet>,                       // the same in every process
    current: map<(nat, Owner), nat>,           // the latest lock session of an owner
    backing: map<(nat, nat, nat), nat>         // the session behind submission a of flush f of process p
  )

  datatype Step =
    | Inner(p: nat, b: B.Step)                 // a batcher step that has nothing to do with a lock
    | Enter(p: nat, b: B.Step, kind: L.Kind)   // the in-process mutex of a wallet or account is taken
    | Leave(p: nat, b: B.Step)                 // a submission returns
    | Client(p: nat, b: B.Step)                // a client goes on under its account lock, or returns
    | Lock(a: L.Step)                          // anything inside locks and node, and senders of other wallets

  /** What sendViaAccount locks. */
  function AccountLock(chain: LockKeys.ChainId, account: string): L.Wallet {
    L.Wallet(chain, "account:" + account)
  }

  /** A client with an account does this inside WithNonceLock. */
  predicate UnderAccount(s: B.State, b: B.Step) {
    (b.Prepare? || b.Collect? || b.Cancel?) && b.c < |s.clients| && s.clients[b.c].account.Some?
  }

  predicate Opens(b: B.Step) { b.Takes() || b.TakeAccount? }

  function OwnerOf(b: B.Step): Owner
    requires b.Takes() || b.Returns() || b.OfClient()
  {
    if b.OfClient() then ByClient(b.c) else Of(b.Holder())
  }

  function LockOf(c: State, p: nat, b: B.Step): L.Wallet
    requires p < |c.procs| && Opens(b) && B.Enabled(c.procs[p], b)
    requires b.Takes() ==> B.WalletOf(c.procs[p], b) < |c.pool|
  {
    if b.TakeAccount? then AccountLock(c.chain, c.procs[p].clients[b.c].account.value)
    else c.pool[B.WalletOf(c.procs[p], b)]
  }

  /** The operations a flush submits now, or will submit once it has its wallet. */
  function Submitting(f: B.Flight): seq<nat> {
    match f.pc
    case WantBatch => f.batch
    case InBatch => f.batch
    case WantOne(n) => if n < |f.batch| then [f.batch[n]] else []
    case InOne(n) => if n < |f.batch| then [f.batch[n]] else []
    case _ => []
  }

  function SubmittingBy(s: B.State, h: B.Holder): seq<nat> {
    if h.ByFlight? && h.f < |s.flights| then Submitting(s.flights[h.f]) else []
  }

  /** Operations of process p, as the chain tells them apart. */
  function Tag(p: nat, ops: seq<nat>): seq<L.Op> {
    seq(|ops|, i requires 0 <= i < |ops| => L.Op(p, ops[i]))
  }

  predicate KindFits(b: B.Step, kind: L.Kind)
    requires Opens(b)
  {
    if b.TakeAccount? then kind == L.Account
    else if b.OfSender() then kind == L.Managed || kind == L.Direct
    else kind == L.Batch
  }

  function SessionStart(c: State, p: nat, b: B.Step, kind: L.Kind): L.Step
    requires p < |c.procs| && Opens(b) && B.Enabled(c.procs[p], b)
    requires b.Takes() ==> B.WalletOf(c.procs[p], b) < |c.pool|
  {
    L.Start(p, LockOf(c, p, b), kind, if b.Takes() then Tag(p, SubmittingBy(c.procs[p], b.Holder())) else [])
  }

  /** Sessions of pool wallets and accounts are started, and ended or left, by their owners only. */
  predicate LockStep(c: State, a: L.Step) {
    && L.Enabled(c.locks, a)
    && (a.Start? ==> a.wallet !in c.pool && a.kind != L.Account && a.ops == [])
    && (a.LockLocal? || a.Unlock? ==> c.locks.sessions[a.i].wallet !in c.pool)
    && (a.Return? ==> c.locks.sessions[a.i].kind != L.Account)
  }

  /** A client proceeds and returns inside its account lock; it may fail because it did not get the lock. */
  predicate MayGoOn(b: B.Step, pc: L.Pc) {
    pc.Inside? || (b.Prepare? && !b.ok && (pc.Unlocking? || pc.Finished?))
  }

  predicate EnterEnabled(c: State, p: nat, b: B.Step, kind: L.Kind)
    requires p < |c.procs|
  {
    && Opens(b) && B.Enabled(c.procs[p], b) && KindFits(b, kind)
    && (b.Takes() ==> B.WalletOf(c.procs[p], b) < |c.pool|)
    && L.Enabled(L.Apply(c.locks, SessionStart(c, p, b, kind)), L.LockLocal(|c.locks.sessions|))
  }

  /** A submission reports what its session reports. */
  predicate LeaveEnabled(c: State, p: nat, b: B.Step)
    requires p < |c.procs|
  {
    && b.Returns() && B.Enabled(c.procs[p], b) && (p, OwnerOf(b)) in c.current
    && L.Enabled(c.locks, L.Unlock(c.current[(p, OwnerOf(b))]))
    && (b.OfFlight() ==>
          var me := c.locks.sessions[c.current[(p, OwnerOf(b))]];
          b.outcome.Ok() == me.ok && b.outcome.hash == me.hash)
  }

  predicate ClientEnabled(c: State, p: nat, b: B.Step)
    requires p < |c.procs|
  {
    && UnderAccount(c.procs[p], b) && B.Enabled(c.procs[p], b) && (p, OwnerOf(b)) in c.current
    && c.locks.Is(c.current[(p, OwnerOf(b))])
    && MayGoOn(b, c.locks.sessions[c.current[(p, OwnerOf(b))]].pc)
  }

  predicate Enabled(c: State, step: Step) {
    match step
    case Inner(p, b) =>
      p < |c.procs| && B.Enabled(c.procs[p], b) && !Opens(b) && !b.Returns() && !UnderAccount(c.procs[p], b)
    case Enter(p, b, kind) => p < |c.procs| && EnterEnabled(c, p, b, kind)
    case Leave(p, b) => p < |c.procs| && LeaveEnabled(c, p, b)
    case Client(p, b) => p < |c.procs| && ClientEnabled(c, p, b)
    case Lock(a) => LockStep(c, a)
  }

  /** When its client returns, fn returns. */
  function AfterClient(c: State, p: nat, b: B.Step): L.State
    requires p < |c.procs| && ClientEnabled(c, p, b)
  {
    var i := c.current[(p, OwnerOf(b))];
    if B.Closes(c.procs[p], b) && c.locks.sessions[i].pc.Inside? then L.Apply(c.locks, L.Return(i)) else c.locks
  }

  function NextLocks(c: State, step: Step): L.State
    requires Enabled(c, step)
  {
    match step
    case Inner(_, _) => c.locks
    case Enter(p, b, kind) => L.Apply(L.Apply(c.locks, SessionStart(c, p, b, kind)), L.LockLocal(|c.locks.sessions|))
    case Leave(p, b) => L.Apply(c.locks, L.Unlock(c.current[(p, OwnerOf(b))]))
    case Client(p, b) => AfterClient(c, p, b)
    case Lock(a) => L.Apply(c.locks, a)
  }

  function NextProcs(c: State, step: Step): seq<B.State>
    requires Enabled(c, step)
  {
    if step.Lock? then c.procs else c.procs[step.p := B.Apply(c.procs[step.p], step.b)]
  }

  function NextCurrent(c: State, step: Step): map<(nat, Owner), nat>
    requires Enabled(c, step)
  {
    if step.Enter? then c.current[(step.p, OwnerOf(step.b)) := |c.locks.sessions|] else c.current
  }

  function NextBacking(c: State, step: Step): map<(nat, nat, nat), nat>
    requires Enabled(c, step)
  {
    if step.Leave? && step.b.OfFlight() then
      c.backing[(step.p, step.b.f, |c.procs[step.p].flights[step.b.f].attempts|) :=
                c.current[(step.p, OwnerOf(step.b))]]
    else c.backing
  }

  function Apply(c: State, step: Step): State
    requires Enabled(c, step)
  {
    State(c.chain, NextProcs(c, step), NextLocks(c, step), c.pool, NextCurrent(c, step), NextBacking(c, step))
  }

  /** What is there before a run: the configuration. */
  datatype Setup = Setup(
    chain: LockKeys.ChainId, processes: nat, pool: seq<L.Wallet>, distributed: bool, base: map<L.Wallet, nat>)

  /** The pool has no repeated wallet and names wallets by their addresses. */
  ghost predicate ProperPool(pool: seq<L.Wallet>) {
    Distinct(pool) && forall w :: w in pool ==> LockKeys.IsAddress(w.address)
  }

  function Init(g: Setup): State {
    State(g.chain, seq(g.processes, _ => B.Init(|g.pool|)), L.Init(g.distributed, g.base), g.pool, map[], map[])
  }

  ghost predicate Trusted(c: State, step: Step) {
    match step
    case Lock(a) => L.Trusted(c.locks, a)
    case Enter(p, _, _) => c.locks.distributed || p == 0
    case _ => true
  }

  ghost predicate Valid(c: State, steps: seq<Step>) { Runs.Valid(Apply, c, steps) }

  ghost function Exec(c: State, steps: seq<Step>): State
    requires Valid(c, steps)
  {
    Runs.Exec(Apply, c, steps)
  }

  ghost predicate TrustedRun(c: State, steps: seq<Step>)
    requires Valid(c, steps)
    decreases |steps|
  {
    steps == [] || (Trusted(c, steps[0]) && TrustedRun(Apply(c, steps[0]), steps[1..]))
  }

  ghost predicate NoCancel(steps: seq<Step>) {
    forall k :: 0 <= k < |steps| && !steps[k].Lock? ==> !steps[k].b.Cancel?
  }

  // ---------- Runs without surprises ----------

  /** Neither a cancellation, nor an expiry, nor the arrival of a sender of another wallet. */
  ghost predicate Plain(step: Step) { if step.Lock? then !step.a.Expire? && !step.a.Start? else !step.b.Cancel? }

  ghost predicate PlainRun(c: State, steps: seq<Step>) {
    Valid(c, steps) && forall k :: 0 <= k < |steps| ==> Plain(steps[k])
  }

  lemma PlainOne(c: State, step: Step) returns (steps: seq<Step>)
    requires Enabled(c, step) && Plain(step)
    ensures PlainRun(c, steps) && Exec(c, steps) == Apply(c, step)
  {
    steps := Runs.Cons(Apply, c, step, []);
  }

  lemma PlainTwo(c: State, first: Step, second: Step) returns (steps: seq<Step>)
    requires Enabled(c, first) && Enabled(Apply(c, first), second) && Plain(first) && Plain(second)
    ensures PlainRun(c, steps) && Exec(c, steps) == Apply(Apply(c, first), second)
  {
    steps := PlainOne(Apply(c, first), second);
    steps := Runs.Cons(Apply, c, first, steps);
  }

  lemma PlainJoin(c: State, first: seq<Step>, second: seq<Step>) returns (steps: seq<Step>)
    requires PlainRun(c, first) && PlainRun(Exec(c, first), second)
    ensures PlainRun(c, steps) && Exec(c, steps) == Exec(Exec(c, first), second)
  {
    Runs.Compose(Apply, c, first, second);
    steps := first + second;
  }
}
