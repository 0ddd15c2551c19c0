/**
 * The two-level nonce lock (internal/platform/redis/redis.go) and the three kinds of wallet sender
 * that run under it, as one transition system over any number of processes and sessions.
 *
 * A session is one call of WithNonceLock by one goroutine. Every point where such a call can block,
 * fail or be interleaved with another session is a step of its own. The Redis server may drop an
 * entry at any moment, and the node accepts or refuses each transaction freely, at any nonce.
 */
module NonceLock {
  import opened Common
  import opened LockKeys
  import Runs

  const RETRY_COUNT := 10

  type Token = nat

  /**
   * What a lock protects: a hot wallet, named by its address, or an account, whose lock key is that of
   * the "address" `account:` followed by the account (LockKeys.AccountKeyIsWalletKey).
   */
  datatype Wallet = Wallet(chain: ChainId, address: string)

  function KeyOf(w: Wallet): string { WalletKey(w.chain, w.address) }

  /**
   * Batcher.onchainSubmit, Deps.SendManagedTx, Service.SendNative/SendErc20, and Service.sendViaAccount,
   * which sends nothing itself.
   */
  datatype Kind = Batch | Managed | Direct | Account

  /** A user operation, named by the process and the client it came from. */
  datatype Op = Op(process: nat, client: nat)

  /** A transaction the node accepted: the session that sent it, and what the chain sees of it. */
  datatype Tx = Tx(session: nat, nonce: nat, hash: string, ops: seq<Op>)

  datatype Pc =
    | WantLocal            // blocked on the in-process mutex
    | Local                // holds it, nothing else
    | Trying(tries: nat)   // polling SET NX
    | Inside               // fn runs, pending nonce not read yet
    | Holding(nonce: nat)  // fn runs, pending nonce read
    | Mining               // fn runs, waiting for the transaction to be mined
    | Releasing            // fn returned, release script not run yet
    | Unlocking            // about to unlock the in-process mutex
    | Finished
  {
    predicate HoldsLocal() { !WantLocal? && !Finished? }

    /** Nothing has been sent yet. */
    predicate Unsent() { WantLocal? || Local? || Trying? || Inside? || Holding? }

    /** fn is running. */
    predicate InFn() { Inside? || Holding? || Mining? }

    /** The session believes that it owns the Redis entry. */
    predicate Owns() { InFn() || Releasing? }
  }

  /**
   * ops are the operations its transaction is to carry; sent is the nonce of that transaction if the node
   * accepted it; hash and ok are what fn returns: the transaction hash, empty if there is none, and success.
   */
  datatype Session = Session(process: nat, wallet: Wallet, key: string, kind: Kind, ops: seq<Op>,
                             token: Option<Token>, pc: Pc, sent: Option<nat>, hash: string, ok: bool) {
    function Mutex(): (nat, string) { (process, key) }
  }

  datatype State = State(
    distributed: bool,                  // a Redis client is configured
    sessions: seq<Session>,
    mutexes: map<(nat, string), nat>,   // (process, key) to the session holding that mutex
    entries: map<string, Token>,        // the Redis server; the entry of key k is stored under "lock:" + k
    base: map<Wallet, nat>,             // nonces used before the run
    accepted: map<Wallet, seq<Tx>>      // the transactions the node accepted, in order
  ) {
    predicate Is(i: nat) { i < |sessions| }

    function Accepted(w: Wallet): seq<Tx> { if w in accepted then accepted[w] else [] }

    function Base(w: Wallet): nat { if w in base then base[w] else 0 }

    /** PendingNonceAt: the node counts what it accepted. */
    function Pending(w: Wallet): nat { Base(w) + |Accepted(w)| }

    /** The session's entry is there and is its own. */
    predicate Leased(i: nat)
      requires Is(i)
    {
      var k := sessions[i].key;
      k in entries && sessions[i].token == Some(entries[k])
    }

    /** The session owns the lock in its own eyes, but its entry expired. */
    predicate Lapsed(i: nat)
      requires Is(i)
    {
      sessions[i].pc.Owns() && !Leased(i)
    }
  }

  datatype Step =
    | Start(process: nat, wallet: Wallet, kind: Kind, ops: seq<Op>)
    | LockLocal(i: nat)
    | Draw(i: nat, drawn: Option<Token>)          // randomToken
    | EnterLocal(i: nat)                          // no Redis: fn runs under the mutex alone
    | SetNX(i: nat)
    | GiveUp(i: nat, written: bool)               // SET NX errors (its reply may be lost) or ctx is done
    | ReadNonce(i: nat)
    | Return(i: nat)                              // fn returns without sending
    | Send(i: nat, accepts: bool, error: bool, hash: string)   // a failure may hide an acceptance
    | WaitOver(i: nat, mined: bool)               // mined, or the wait failed
    | Release(i: nat, delivered: bool)
    | Unlock(i: nat)
    | Expire(key: string)

  predicate Enabled(s: State, step: Step) {
    match step
    case Start(_, _, _, _) => true
    case Expire(k) => k in s.entries
    case _ => s.Is(step.i) && CanMove(s, step, s.sessions[step.i])
  }

  predicate CanMove(s: State, step: Step, me: Session)
    requires !step.Start? && !step.Expire?
  {
    match step
    case LockLocal(_) => me.pc == WantLocal && me.Mutex() !in s.mutexes
    case Draw(_, t) => me.pc == Local && s.distributed && (t.Some? ==> Unused(s, t))
    case EnterLocal(_) => me.pc == Local && !s.distributed
    case SetNX(_) => me.pc.Trying? && me.pc.tries < RETRY_COUNT
    case GiveUp(_, _) => me.pc.Trying?
    case ReadNonce(_) => me.pc == Inside && me.kind != Account
    case Return(_) => me.pc.Inside? || me.pc.Holding?
    case Send(_, accepts, error, _) => me.pc.Holding? && (accepts || error)
    case WaitOver(_, _) => me.pc == Mining
    case Release(_, _) => me.pc == Releasing
    case Unlock(_) => me.pc == Unlocking
  }

  /** Tokens are 16 random bytes; the model takes them to be distinct. */
  predicate Unused(s: State, t: Option<Token>) {
    forall j :: 0 <= j < |s.sessions| ==> s.sessions[j].token != t
  }

  /** SET NX finds the key free. */
  predicate Writes(s: State, me: Session) { me.key !in s.entries && me.token.Some? }

  /** fn returns: the release script is deferred only when Redis is in use. */
  function AfterFn(s: State): Pc { if s.distributed then Releasing else Unlocking }

  /** fn returns nil: a direct sender as soon as it has sent, the others when their transaction is mined. */
  predicate Succeeds(step: Step, me: Session) {
    (step.Send? && !step.error && me.kind == Direct) || (step.WaitOver? && step.mined)
  }

  function NextSent(step: Step, me: Session): Option<nat> {
    match step
    case Send(_, accepts, _, _) => if accepts && me.pc.Holding? then Some(me.pc.nonce) else me.sent
    case _ => me.sent
  }

  /** onchainSubmit reports a hash as soon as the node took the transaction without an error. */
  function NextHash(step: Step, me: Session): string {
    if step.Send? && !step.error then step.hash else me.hash
  }

  function NextPc(s: State, step: Step, me: Session): Pc
    requires !step.Start? && !step.Expire? && CanMove(s, step, me)
  {
    match step
    case LockLocal(_) => Local
    case Draw(_, t) => if t.Some? then Trying(0) else Unlocking
    case EnterLocal(_) => Inside
    case SetNX(_) =>
      if Writes(s, me) then Inside
      else if me.pc.tries + 1 < RETRY_COUNT then Trying(me.pc.tries + 1)
      else Unlocking
    case GiveUp(_, _) => Unlocking
    case ReadNonce(_) => Holding(s.Pending(me.wallet))
    case Return(_) => AfterFn(s)
    case Send(_, _, error, _) => if !error && me.kind != Direct then Mining else AfterFn(s)
    case WaitOver(_, _) => AfterFn(s)
    case Release(_, _) => Unlocking
    case Unlock(_) => Finished
  }

  function Sessions(s: State, step: Step): seq<Session>
    requires Enabled(s, step)
  {
    match step
    case Start(p, w, kind, ops) =>
      s.sessions + [Session(p, w, KeyOf(w), kind, ops, None, WantLocal, None, "", false)]
    case Expire(_) => s.sessions
    case _ =>
      var me := s.sessions[step.i];
      s.sessions[step.i := me.(token := if step.Draw? then step.drawn else me.token,
                               pc := NextPc(s, step, me),
                               sent := NextSent(step, me),
                               hash := NextHash(step, me),
                               ok := me.ok || Succeeds(step, me))]
  }

  function Mutexes(s: State, step: Step): map<(nat, string), nat>
    requires Enabled(s, step)
  {
    match step
    case LockLocal(i) => s.mutexes[s.sessions[i].Mutex() := i]
    case Unlock(i) => s.mutexes - {s.sessions[i].Mutex()}
    case _ => s.mutexes
  }

  function Entries(s: State, step: Step): map<string, Token>
    requires Enabled(s, step)
  {
    match step
    case Expire(k) => s.entries - {k}
    case Release(i, delivered) => if delivered && s.Leased(i) then s.entries - {s.sessions[i].key} else s.entries
    case SetNX(i) =>
      var me := s.sessions[i];
      if Writes(s, me) then s.entries[me.key := me.token.value] else s.entries
    case GiveUp(i, written) =>
      var me := s.sessions[i];
      if written && Writes(s, me) then s.entries[me.key := me.token.value] else s.entries
    case _ => s.entries
  }

  function Ledger(s: State, step: Step): map<Wallet, seq<Tx>>
    requires Enabled(s, step)
  {
    match step
    case Send(i, accepts, _, hash) =>
      var me := s.sessions[i];
      if accepts then s.accepted[me.wallet := s.Accepted(me.wallet) + [Tx(i, me.pc.nonce, hash, me.ops)]]
      else s.accepted
    case _ => s.accepted
  }

  function Apply(s: State, step: Step): State
    requires Enabled(s, step)
  {
    State(s.distributed, Sessions(s, step), Mutexes(s, step), Entries(s, step), s.base, Ledger(s, step))
  }

  function Init(distributed: bool, base: map<Wallet, nat>): State {
    State(distributed, [], map[], map[], base, map[])
  }

  ghost predicate Valid(s: State, steps: seq<Step>) { Runs.Valid(Apply, s, steps) }

  ghost function Exec(s: State, steps: seq<Step>): State
    requires Valid(s, steps)
  {
    Runs.Exec(Apply, s, steps)
  }

  /**
   * What a deployment must grant. With Redis: no entry expires while its owner still runs. Without:
   * there is only one process.
   */
  ghost predicate Trusted(s: State, step: Step) {
    if s.distributed then step.Expire? ==> Unowned(s, step.key) else step.Start? ==> step.process == 0
  }

  /** No owner still has its entry under this key. */
  ghost predicate Unowned(s: State, key: string) {
    forall i :: 0 <= i < |s.sessions| && s.sessions[i].pc.Owns() && s.Leased(i) ==> s.sessions[i].key != key
  }

  ghost predicate TrustedRun(s: State, steps: seq<Step>)
    requires Valid(s, steps)
    decreases |steps|
  {
    steps == [] || (Trusted(s, steps[0]) && TrustedRun(Apply(s, steps[0]), steps[1..]))
  }

  // ---------- Invariant of every run, whatever expires ----------

  ghost predicate MutexInv(s: State) {
    && (forall m :: m in s.mutexes ==>
          && s.Is(s.mutexes[m])
          && s.sessions[s.mutexes[m]].Mutex() == m
          && s.sessions[s.mutexes[m]].pc.HoldsLocal())
    && (forall i :: 0 <= i < |s.sessions| && s.sessions[i].pc.HoldsLocal() ==>
          s.sessions[i].Mutex() in s.mutexes && s.mutexes[s.sessions[i].Mutex()] == i)
  }

  ghost predicate TokenDistinct(s: State) {
    forall i, j :: 0 <= i < j < |s.sessions| && s.sessions[i].token.Some? ==>
      s.sessions[i].token != s.sessions[j].token
  }

  /** A token is drawn between the mutex and the first SET NX. */
  ghost predicate TokenDrawn(s: State) {
    forall i :: 0 <= i < |s.sessions| ==>
      && (s.sessions[i].pc.WantLocal? || s.sessions[i].pc.Local? ==> s.sessions[i].token.None?)
      && (if s.distributed then s.sessions[i].pc.Trying? || s.sessions[i].pc.Owns() ==> s.sessions[i].token.Some?
          else s.sessions[i].token.None? && !s.sessions[i].pc.Trying?)
  }

  ghost predicate TokenInv(s: State) { TokenDistinct(s) && TokenDrawn(s) }

  /** Every entry was written by the session that drew its token, under that session's key. */
  ghost predicate EntryInv(s: State) {
    forall k :: k in s.entries ==> exists i :: WroteEntry(s, i, k)
  }

  ghost predicate WroteEntry(s: State, i: nat, k: string)
    requires k in s.entries
  {
    s.Is(i) && s.sessions[i].token == Some(s.entries[k]) && s.sessions[i].key == k
  }

  /** Sessions agree on the key exactly when they agree on the wallet. */
  ghost predicate KeyInv(s: State) {
    forall i :: 0 <= i < |s.sessions| ==> s.sessions[i].key == KeyOf(s.sessions[i].wallet)
  }

  lemma SameKeySameWallet(s: State, i: nat, j: nat)
    requires KeyInv(s) && s.Is(i) && s.Is(j)
    ensures s.sessions[i].key == s.sessions[j].key <==> s.sessions[i].wallet == s.sessions[j].wallet
  {
    var v, w := s.sessions[i].wallet, s.sessions[j].wallet;
    WalletKeyInjective(v.chain, v.address, w.chain, w.address);
  }

  /** What a session has sent and reports agrees with how far it has got. */
  ghost predicate SentInv(s: State) {
    forall i :: 0 <= i < |s.sessions| ==>
      && (s.sessions[i].ok || s.sessions[i].pc.Mining? || s.sessions[i].hash != "" ==> s.sessions[i].sent.Some?)
      && (s.sessions[i].pc.Unsent() ==> s.sessions[i].sent.None? && s.sessions[i].hash == "")
  }

  /** A transaction in the ledger is that of its session, under the hash the session reports, if any. */
  ghost predicate Recorded(s: State, w: Wallet, n: nat)
    requires n < |s.Accepted(w)|
  {
    var tx := s.Accepted(w)[n];
    && s.Is(tx.session)
    && var me := s.sessions[tx.session];
       && me.wallet == w && me.sent == Some(tx.nonce) && me.ops == tx.ops
       && (me.hash == tx.hash || (me.hash == "" && !me.ok && !me.pc.Mining?))
  }

  ghost predicate SentAs(s: State, i: nat, n: nat)
    requires s.Is(i)
  {
    n < |s.Accepted(s.sessions[i].wallet)| && s.Accepted(s.sessions[i].wallet)[n].session == i
  }

  ghost predicate InLedger(s: State, i: nat)
    requires s.Is(i)
  {
    exists n :: SentAs(s, i, n)
  }

  /** The ledger holds exactly one transaction of every session that sent one, and nothing else. */
  ghost predicate LedgerInv(s: State) {
    && (forall w, n :: 0 <= n < |s.Accepted(w)| ==> Recorded(s, w, n))
    && (forall w, m, n :: 0 <= m < n < |s.Accepted(w)| ==> s.Accepted(w)[m].session != s.Accepted(w)[n].session)
    && (forall i {:trigger InLedger(s, i)} :: 0 <= i < |s.sessions| && s.sessions[i].sent.Some? ==> InLedger(s, i))
  }

  /** What every run keeps. */
  ghost predicate Inv(s: State) {
    MutexInv(s) && TokenInv(s) && EntryInv(s) && KeyInv(s) && SentInv(s) && LedgerInv(s)
  }

  /** The session a step belongs to; no session for an expiry. */
  function Actor(s: State, step: Step): int {
    match step
    case Start(_, _, _, _) => |s.sessions|
    case Expire(_) => -1
    case _ => step.i
  }

  /** A step changes no session but its actor, and of that never the process, wallet, key and kind. */
  lemma OnlyActorMoves(s: State, step: Step)
    requires Enabled(s, step)
    ensures var t := Apply(s, step);
      && t.distributed == s.distributed && t.base == s.base
      && |t.sessions| == |s.sessions| + (if step.Start? then 1 else 0)
      && forall j :: 0 <= j < |s.sessions| ==>
           if j == Actor(s, step)
           then var me := t.sessions[j];
                me == s.sessions[j].(token := me.token, pc := me.pc, sent := me.sent, hash := me.hash, ok := me.ok)
           else t.sessions[j] == s.sessions[j]
  {
  }

  lemma MutexStep(s: State, step: Step)
    requires MutexInv(s) && Enabled(s, step)
    ensures MutexInv(Apply(s, step))
  {
    HoldersStep(s, step);
  }

  /** Only the mutex steps change who is past the mutex. */
  lemma HoldersStep(s: State, step: Step)
    requires Enabled(s, step)
    ensures var t := Apply(s, step);
      && |s.sessions| <= |t.sessions|
      && (forall j :: |s.sessions| <= j < |t.sessions| ==> !t.sessions[j].pc.HoldsLocal())
      && (forall j :: 0 <= j < |s.sessions| ==>
            && t.sessions[j].Mutex() == s.sessions[j].Mutex()
            && t.sessions[j].pc.HoldsLocal() ==
                 (if step == LockLocal(j) then true else if step == Unlock(j) then false
                  else s.sessions[j].pc.HoldsLocal()))
  {
    OnlyActorMoves(s, step);
  }

  lemma TokenStep(s: State, step: Step)
    requires TokenInv(s) && Enabled(s, step)
    ensures TokenInv(Apply(s, step))
  {
    OnlyActorMoves(s, step);
    var t := Apply(s, step);
    forall j | 0 <= j < |t.sessions| && t.sessions[j].token.Some?
      ensures j < |s.sessions|
      ensures t.sessions[j].token == s.sessions[j].token || (step.Draw? && step.i == j && Unused(s, step.drawn))
    {
    }
    TokenDrawnStep(s, step);
  }

  lemma TokenDrawnStep(s: State, step: Step)
    requires TokenDrawn(s) && Enabled(s, step)
    ensures TokenDrawn(Apply(s, step))
  {
    var t := Apply(s, step);
    forall j | 0 <= j < |t.sessions| && j != Actor(s, step)
      ensures t.sessions[j] == s.sessions[j]
    {
    }
  }

  lemma EntryStep(s: State, step: Step)
    requires TokenInv(s) && EntryInv(s) && Enabled(s, step)
    ensures EntryInv(Apply(s, step))
  {
    var t := Apply(s, step);
    forall k | k in t.entries
      ensures exists i :: WroteEntry(t, i, k)
    {
      var i := WriterStep(s, step, k);
    }
  }

  lemma WriterStep(s: State, step: Step, k: string) returns (i: nat)
    requires TokenInv(s) && EntryInv(s) && Enabled(s, step) && k in Apply(s, step).entries
    ensures WroteEntry(Apply(s, step), i, k)
  {
    OnlyActorMoves(s, step);
    if k in s.entries {
      assert Apply(s, step).entries[k] == s.entries[k];
      i :| WroteEntry(s, i, k);
    } else {
      i := step.i;
    }
  }

  lemma SentStep(s: State, step: Step)
    requires SentInv(s) && Enabled(s, step)
    ensures SentInv(Apply(s, step))
  {
    OnlyActorMoves(s, step);
  }

  /** An accepted transaction is appended to its wallet's ledger; nothing else ever changes there. */
  lemma LedgerGrows(s: State, step: Step, w: Wallet)
    requires Enabled(s, step)
    ensures var sends := step.Send? && step.accepts && s.sessions[step.i].wallet == w;
      Apply(s, step).Accepted(w) == s.Accepted(w) +
        if sends then [Tx(step.i, s.sessions[step.i].pc.nonce, step.hash, s.sessions[step.i].ops)] else []
  {
  }

  lemma RecordedStep(s: State, step: Step, w: Wallet, n: nat)
    requires SentInv(s) && LedgerInv(s) && Enabled(s, step) && n < |Apply(s, step).Accepted(w)|
    ensures Recorded(Apply(s, step), w, n)
  {
    LedgerGrows(s, step, w);
    OnlyActorMoves(s, step);
    if n < |s.Accepted(w)| {
      assert Recorded(s, w, n);
      KeepsReport(s, step, s.Accepted(w)[n].session);
    }
  }

  /** A session that has sent something sticks to what it reports about it. */
  lemma KeepsReport(s: State, step: Step, i: nat)
    requires SentInv(s) && Enabled(s, step) && s.Is(i) && s.sessions[i].sent.Some?
    ensures var me, now := s.sessions[i], Apply(s, step).sessions[i];
      && now.sent == me.sent && now.hash == me.hash && now.ops == me.ops && now.wallet == me.wallet
      && (now.ok || now.pc.Mining? ==> me.ok || me.pc.Mining?)
  {
    OnlyActorMoves(s, step);
  }

  lemma SentOnceStep(s: State, step: Step, w: Wallet)
    requires SentInv(s) && LedgerInv(s) && Enabled(s, step)
    ensures var txs := Apply(s, step).Accepted(w);
      forall m, n :: 0 <= m < n < |txs| ==> txs[m].session != txs[n].session
  {
    LedgerGrows(s, step, w);
    forall m | 0 <= m < |s.Accepted(w)| && step.Send?
      ensures s.Accepted(w)[m].session != step.i
    {
      assert Recorded(s, w, m);
    }
  }

  lemma SentAsStep(s: State, step: Step, i: nat)
    requires SentInv(s) && LedgerInv(s) && Enabled(s, step) && i < |Apply(s, step).sessions|
    requires Apply(s, step).sessions[i].sent.Some?
    ensures InLedger(Apply(s, step), i)
  {
    OnlyActorMoves(s, step);
    var t := Apply(s, step);
    var w := t.sessions[i].wallet;
    LedgerGrows(s, step, w);
    if s.sessions[i].sent.Some? {
      assert InLedger(s, i);
      var n :| SentAs(s, i, n);
      assert SentAs(t, i, n);
    } else {
      assert SentAs(t, i, |s.Accepted(w)|);
    }
  }

  lemma LedgerStep(s: State, step: Step)
    requires SentInv(s) && LedgerInv(s) && Enabled(s, step)
    ensures LedgerInv(Apply(s, step))
  {
    var t := Apply(s, step);
    forall w, n | 0 <= n < |t.Accepted(w)|
      ensures Recorded(t, w, n)
    {
      RecordedStep(s, step, w, n);
    }
    forall w, m, n | 0 <= m < n < |t.Accepted(w)|
      ensures t.Accepted(w)[m].session != t.Accepted(w)[n].session
    {
      SentOnceStep(s, step, w);
    }
    forall i | 0 <= i < |t.sessions| && t.sessions[i].sent.Some?
      ensures InLedger(t, i)
    {
      SentAsStep(s, step, i);
    }
  }

  lemma InvStep(s: State, step: Step)
    requires Inv(s) && Enabled(s, step)
    ensures Inv(Apply(s, step))
  {
    OnlyActorMoves(s, step);
    MutexStep(s, step);
    TokenStep(s, step);
    EntryStep(s, step);
    SentStep(s, step);
    LedgerStep(s, step);
  }

  lemma {:induction false} InvRun(s: State, steps: seq<Step>)
    requires Inv(s) && Valid(s, steps)
    ensures Inv(Exec(s, steps))
    decreases |steps|
  {
    if steps == [] {
    } else {
      InvStep(s, steps[0]);
      InvRun(Apply(s, steps[0]), steps[1..]);
    }
  }

  /**
   * Lock safety under arbitrary expiry. In every state of every run: at most one session per
   * process and key is past the mutex; of the sessions that own one key in their own eyes, at most
   * one has not lapsed.
   */
  lemma LockSafety(distributed: bool, base: map<Wallet, nat>, steps: seq<Step>, i: nat, j: nat)
    requires Valid(Init(distributed, base), steps)
    requires var s := Exec(Init(distributed, base), steps);
      i < j < |s.sessions| && s.sessions[i].wallet == s.sessions[j].wallet
    ensures var s := Exec(Init(distributed, base), steps);
      && (s.sessions[i].process == s.sessions[j].process ==>
            !(s.sessions[i].pc.HoldsLocal() && s.sessions[j].pc.HoldsLocal()))
      && (distributed && s.sessions[i].pc.Owns() && s.sessions[j].pc.Owns() ==>
            s.Lapsed(i) || s.Lapsed(j))
  {
    InvRun(Init(distributed, base), steps);
    ConfigKept(Init(distributed, base), steps);
  }

  lemma {:induction false} ConfigKept(s: State, steps: seq<Step>)
    requires Valid(s, steps)
    ensures Exec(s, steps).distributed == s.distributed && Exec(s, steps).base == s.base
    decreases |steps|
  {
    if steps == [] {
    } else {
      ConfigKept(Apply(s, steps[0]), steps[1..]);
    }
  }

  /**
   * In every state of every run a release removes the releasing session's own entry, if that is still there and
   * the script arrives, and nothing else.
   */
  lemma ReleaseFreesOwn(base: map<Wallet, nat>, steps: seq<Step>, i: nat, delivered: bool)
    requires Valid(Init(true, base), steps)
    requires Enabled(Exec(Init(true, base), steps), Release(i, delivered))
    ensures var s := Exec(Init(true, base), steps);
      var t := Apply(s, Release(i, delivered));
      && (delivered && s.Leased(i) ==> s.sessions[i].key !in t.entries)
      && (forall k :: k in t.entries ==> k in s.entries && t.entries[k] == s.entries[k])
      && (forall k :: k in s.entries && k !in t.entries ==>
            delivered && k == s.sessions[i].key && s.sessions[i].token == Some(s.entries[k]))
      && (forall j :: 0 <= j < |s.sessions| && j != i && s.Leased(j) ==> t.Leased(j))
  {
    InvRun(Init(true, base), steps);
    ReleaseStep(Exec(Init(true, base), steps), i, delivered);
  }

  lemma ReleaseStep(s: State, i: nat, delivered: bool)
    requires Inv(s) && Enabled(s, Release(i, delivered))
    ensures var t := Apply(s, Release(i, delivered));
      && (delivered && s.Leased(i) ==> s.sessions[i].key !in t.entries)
      && (forall k :: k in t.entries ==> k in s.entries && t.entries[k] == s.entries[k])
      && (forall k :: k in s.entries && k !in t.entries ==>
            delivered && k == s.sessions[i].key && s.sessions[i].token == Some(s.entries[k]))
      && (forall j :: 0 <= j < |s.sessions| && j != i && s.Leased(j) ==> t.Leased(j))
  {
    OnlyActorMoves(s, Release(i, delivered));
  }

  /**
   * Handing over: when a session of another process is polling a key whose owner releases it, its next SET NX
   * gets it inside, with an entry of its own.
   */
  lemma ReleaseLetsNextIn(base: map<Wallet, nat>, steps: seq<Step>, i: nat, j: nat)
    requires Valid(Init(true, base), steps)
    requires var s := Exec(Init(true, base), steps);
      && Enabled(s, Release(i, true)) && s.Leased(i)
      && Enabled(s, SetNX(j)) && s.sessions[j].wallet == s.sessions[i].wallet
    ensures var t := Apply(Exec(Init(true, base), steps), Release(i, true));
      && Enabled(t, SetNX(j))
      && Apply(t, SetNX(j)).sessions[j].pc == Inside && Apply(t, SetNX(j)).Leased(j)
  {
    var s := Exec(Init(true, base), steps);
    InvRun(Init(true, base), steps);
    ConfigKept(Init(true, base), steps);
    ReleaseStep(s, i, true);
    OnlyActorMoves(s, Release(i, true));
    SameKeySameWallet(s, i, j);
  }

  // ---------- Exclusion and nonces when no owner's entry expires ----------

  /** No owner has lapsed; without Redis, everything runs in process 0. */
  ghost predicate Secure(s: State) {
    if s.distributed then forall i :: 0 <= i < |s.sessions| ==> !s.Lapsed(i)
    else forall i :: 0 <= i < |s.sessions| ==> s.sessions[i].process == 0
  }

  ghost predicate Exclusive(s: State) {
    forall i, j :: 0 <= i < j < |s.sessions| && s.sessions[i].wallet == s.sessions[j].wallet ==>
      !(s.sessions[i].pc.Owns() && s.sessions[j].pc.Owns())
  }

  lemma SecureIsExclusive(s: State)
    requires Inv(s) && Secure(s)
    ensures Exclusive(s)
  {
    forall i, j | 0 <= i < j < |s.sessions| && s.sessions[i].wallet == s.sessions[j].wallet
      ensures !(s.sessions[i].pc.Owns() && s.sessions[j].pc.Owns())
    {
      OwnersExclude(s, i, j);
    }
  }

  lemma OwnersExclude(s: State, i: nat, j: nat)
    requires MutexInv(s) && TokenDistinct(s) && KeyInv(s) && Secure(s)
    requires i < j < |s.sessions| && s.sessions[i].wallet == s.sessions[j].wallet
    ensures !(s.sessions[i].pc.Owns() && s.sessions[j].pc.Owns())
  {
    SameKeySameWallet(s, i, j);
    if s.distributed {
      assert !s.Lapsed(i) && !s.Lapsed(j);
    } else {
      assert s.sessions[i].Mutex() == s.sessions[j].Mutex();
    }
  }

  lemma SecureStep(s: State, step: Step)
    requires Inv(s) && Secure(s) && Enabled(s, step) && Trusted(s, step)
    ensures Secure(Apply(s, step))
  {
    OnlyActorMoves(s, step);
    if s.distributed {
      var t := Apply(s, step);
      forall i | 0 <= i < |t.sessions|
        ensures !t.Lapsed(i)
      {
        if i < |s.sessions| && t.sessions[i].pc.Owns() {
          assert !s.Lapsed(i);
          assert step != Expire(s.sessions[i].key);
          KeepsLease(s, step, i);
        }
      }
    }
  }

  /** Only expiry takes an owner's entry, and nobody becomes an owner without one. */
  lemma KeepsLease(s: State, step: Step, i: nat)
    requires TokenInv(s) && Enabled(s, step) && s.distributed && s.Is(i)
    requires Apply(s, step).sessions[i].pc.Owns() && !s.Lapsed(i) && step != Expire(s.sessions[i].key)
    ensures Apply(s, step).Leased(i)
  {
    OnlyActorMoves(s, step);
    if s.sessions[i].pc.Owns() {
      EntryStays(s, step, i);
    } else {
      assert step == SetNX(i) && Writes(s, s.sessions[i]);
    }
  }

  lemma EntryStays(s: State, step: Step, i: nat)
    requires TokenInv(s) && Enabled(s, step) && s.distributed && s.Is(i)
    requires s.sessions[i].pc.Owns() && s.Leased(i) && step != Release(i, true) && step != Expire(s.sessions[i].key)
    ensures var k := s.sessions[i].key; k in Entries(s, step) && Entries(s, step)[k] == s.entries[k]
  {
    if step.Release? && step.i != i && s.Leased(step.i) {
      assert s.sessions[step.i].token != s.sessions[i].token;
    }
  }

  lemma {:induction false} SecureRun(s: State, steps: seq<Step>)
    requires Inv(s) && Secure(s) && Valid(s, steps) && TrustedRun(s, steps)
    ensures Inv(Exec(s, steps)) && Secure(Exec(s, steps)) && Exclusive(Exec(s, steps))
    decreases |steps|
  {
    if steps == [] {
      SecureIsExclusive(s);
    } else {
      InvStep(s, steps[0]);
      SecureStep(s, steps[0]);
      SecureRun(Apply(s, steps[0]), steps[1..]);
    }
  }

  /** The accepted transactions of a wallet fill the slots after its base, and a nonce that was read is free. */
  ghost predicate NonceInv(s: State) {
    && (forall w :: Consecutive(s.Accepted(w), s.Base(w)))
    && (forall i :: 0 <= i < |s.sessions| && s.sessions[i].pc.Holding? ==>
          s.sessions[i].pc.nonce == s.Pending(s.sessions[i].wallet))
  }

  ghost predicate Consecutive(txs: seq<Tx>, first: nat) {
    forall n :: 0 <= n < |txs| ==> txs[n].nonce == first + n
  }

  ghost predicate DistinctNonces(txs: seq<Tx>) {
    forall m, n :: 0 <= m < n < |txs| ==> txs[m].nonce != txs[n].nonce
  }

  lemma NonceStep(s: State, step: Step)
    requires Exclusive(s) && NonceInv(s) && Enabled(s, step)
    ensures NonceInv(Apply(s, step))
  {
    OnlyActorMoves(s, step);
    if step.Send? && step.accepts {
      SendStep(s, step);
    } else {
      var t := Apply(s, step);
      assert t.accepted == s.accepted;
      forall w
        ensures Consecutive(t.Accepted(w), t.Base(w))
      {
        LedgerGrows(s, step, w);
      }
      NonceReadStep(s, step);
    }
  }

  lemma SendStep(s: State, step: Step)
    requires Exclusive(s) && NonceInv(s) && Enabled(s, step) && step.Send? && step.accepts
    ensures NonceInv(Apply(s, step))
  {
    OnlyActorMoves(s, step);
    var t := Apply(s, step);
    var w := s.sessions[step.i].wallet;
    forall v
      ensures Consecutive(t.Accepted(v), t.Base(v))
    {
      LedgerGrows(s, step, v);
    }
    forall j | 0 <= j < |t.sessions| && t.sessions[j].pc.Holding?
      ensures t.sessions[j] == s.sessions[j] && t.sessions[j].wallet != w
    {
      assert j != step.i;
      assert s.sessions[j].pc.Owns() && s.sessions[step.i].pc.Owns();
    }
  }

  lemma NonceReadStep(s: State, step: Step)
    requires NonceInv(s) && Enabled(s, step) && !(step.Send? && step.accepts)
    ensures var t := Apply(s, step);
      forall i :: 0 <= i < |t.sessions| && t.sessions[i].pc.Holding? ==>
        t.sessions[i].pc.nonce == s.Pending(t.sessions[i].wallet)
  {
    OnlyActorMoves(s, step);
  }

  /** Everything a trusted run keeps. */
  ghost predicate Good(s: State) { Inv(s) && Secure(s) && NonceInv(s) }

  lemma GoodStep(s: State, step: Step)
    requires Good(s) && Enabled(s, step) && Trusted(s, step)
    ensures Good(Apply(s, step))
  {
    SecureIsExclusive(s);
    InvStep(s, step);
    SecureStep(s, step);
    NonceStep(s, step);
  }

  lemma {:induction false} GoodRun(s: State, steps: seq<Step>)
    requires Good(s) && Valid(s, steps) && TrustedRun(s, steps)
    ensures Good(Exec(s, steps))
    decreases |steps|
  {
    if steps == [] {
    } else {
      GoodStep(s, steps[0]);
      GoodRun(Apply(s, steps[0]), steps[1..]);
    }
  }

  ghost predicate SlotsDiffer(a: Session, b: Session) {
    a.wallet == b.wallet && a.sent.Some? ==> a.sent != b.sent
  }

  /** No slot is used by two sessions. */
  lemma OwnSlots(s: State, i: nat, j: nat)
    requires LedgerInv(s) && NonceInv(s) && s.Is(i) && s.Is(j) && i != j
    ensures SlotsDiffer(s.sessions[i], s.sessions[j])
  {
    var a, b := s.sessions[i], s.sessions[j];
    if a.wallet == b.wallet && a.sent.Some? && b.sent.Some? {
      assert InLedger(s, i) && InLedger(s, j);
      var m, n :| SentAs(s, i, m) && SentAs(s, j, n);
      assert Recorded(s, a.wallet, m) && Recorded(s, a.wallet, n);
    }
  }

  /**
   * The session's transaction is in its wallet's ledger, in the slot of its nonce, under the hash the session
   * reports and with the operations it was given; no other session used that slot.
   */
  ghost predicate OwnsSlot(s: State, i: nat)
    requires s.Is(i)
  {
    var me := s.sessions[i];
    && me.sent.Some? && s.Base(me.wallet) <= me.sent.value < s.Pending(me.wallet)
    && s.Accepted(me.wallet)[me.sent.value - s.Base(me.wallet)] == Tx(i, me.sent.value, me.hash, me.ops)
    && forall j :: 0 <= j < |s.sessions| && j != i ==> SlotsDiffer(me, s.sessions[j])
  }

  /** The ledger entry of a session that sent something. */
  lemma LedgerEntry(s: State, i: nat) returns (n: nat)
    requires SentInv(s) && LedgerInv(s) && s.Is(i) && s.sessions[i].sent.Some?
    ensures SentAs(s, i, n) && Recorded(s, s.sessions[i].wallet, n)
    ensures s.sessions[i].ok ==>
      s.Accepted(s.sessions[i].wallet)[n] == Tx(i, s.sessions[i].sent.value, s.sessions[i].hash, s.sessions[i].ops)
  {
    assert InLedger(s, i);
    n :| SentAs(s, i, n);
    assert Recorded(s, s.sessions[i].wallet, n);
  }

  lemma GoodOwnsSlot(s: State, i: nat, n: nat)
    requires Good(s) && s.Is(i) && s.sessions[i].ok && SentAs(s, i, n)
    ensures OwnsSlot(s, i) && s.sessions[i].sent.value == s.Base(s.sessions[i].wallet) + n
  {
    var me := s.sessions[i];
    assert Recorded(s, me.wallet, n) && Consecutive(s.Accepted(me.wallet), s.Base(me.wallet));
    forall j | 0 <= j < |s.sessions| && j != i
      ensures SlotsDiffer(me, s.sessions[j])
    {
      OwnSlots(s, i, j);
    }
  }

  /**
   * On every trusted run, of any number of processes and any mix of senders, the transactions a
   * node accepted for a wallet occupy distinct, consecutive nonce slots, although the node itself
   * would have accepted any nonce.
   */
  lemma NoncesConsecutive(distributed: bool, base: map<Wallet, nat>, steps: seq<Step>, w: Wallet)
    requires Valid(Init(distributed, base), steps) && TrustedRun(Init(distributed, base), steps)
    ensures var s := Exec(Init(distributed, base), steps);
      Consecutive(s.Accepted(w), Init(distributed, base).Base(w)) && DistinctNonces(s.Accepted(w))
  {
    GoodRun(Init(distributed, base), steps);
    ConfigKept(Init(distributed, base), steps);
  }

  /**
   * Every sender that was told success has its transaction in the node's ledger, at the nonce it read, under
   * the hash it reports and with the operations it was given, whatever expired. On a trusted run it owns
   * that slot: the entry sits in the place of its nonce, and no other session of the wallet, successful or
   * not, used it.
   */
  lemma SuccessOwnsSlot(distributed: bool, base: map<Wallet, nat>, steps: seq<Step>, i: nat) returns (n: nat)
    requires Valid(Init(distributed, base), steps)
    requires i < |Exec(Init(distributed, base), steps).sessions| && Exec(Init(distributed, base), steps).sessions[i].ok
    ensures var s := Exec(Init(distributed, base), steps);
      var me := s.sessions[i];
      && me.sent.Some? && n < |s.Accepted(me.wallet)|
      && s.Accepted(me.wallet)[n] == Tx(i, me.sent.value, me.hash, me.ops)
      && (TrustedRun(Init(distributed, base), steps) ==>
            OwnsSlot(s, i) && me.sent.value == s.Base(me.wallet) + n)
  {
    var s := Exec(Init(distributed, base), steps);
    InvRun(Init(distributed, base), steps);
    n := LedgerEntry(s, i);
    if TrustedRun(Init(distributed, base), steps) {
      GoodRun(Init(distributed, base), steps);
      GoodOwnsSlot(s, i, n);
    }
  }

  // ---------- Expiry during ownership is exactly what breaks exclusion ----------

  lemma {:induction false} FreshToken(sessions: seq<Session>) returns (t: Token)
    ensures forall i :: 0 <= i < |sessions| ==> sessions[i].token != Some(t)
    ensures forall i :: 0 <= i < |sessions| && sessions[i].token.Some? ==> sessions[i].token.value < t
  {
    if sessions == [] {
      t := 0;
    } else {
      var last := sessions[|sessions| - 1];
      t := FreshToken(sessions[..|sessions| - 1]);
      t := if last.token.Some? && last.token.value >= t then last.token.value + 1 else t;
    }
  }

  lemma {:induction false} FreshProcess(sessions: seq<Session>) returns (p: nat)
    ensures forall i :: 0 <= i < |sessions| ==> sessions[i].process < p
  {
    if sessions == [] {
      p := 0;
    } else {
      var last := sessions[|sessions| - 1];
      p := FreshProcess(sessions[..|sessions| - 1]);
      p := if last.process >= p then last.process + 1 else p;
    }
  }

  /** Another process walks into a key that has no entry; nobody else notices. */
  lemma Intrude(s: State, i: nat) returns (steps: seq<Step>)
    requires Inv(s) && s.distributed && s.Is(i) && s.sessions[i].pc.Owns()
    requires s.sessions[i].key !in s.entries
    ensures Valid(s, steps) && TrustedRun(s, steps)
    ensures Exec(s, steps).accepted == s.accepted && Exec(s, steps).base == s.base
    ensures var m := |s.sessions|;
      var t := Exec(s, steps).sessions;
      && |t| == m + 1 && t[..m] == s.sessions
      && t[m].pc == Inside && t[m].kind == Direct && t[m].wallet == s.sessions[i].wallet
  {
    var p := FreshProcess(s.sessions);
    var t := FreshToken(s.sessions);
    steps := WalkIn(s, p, s.sessions[i].wallet, Direct, t);
  }

  /** A new session of a free key takes the mutex. */
  lemma Begun(s: State, p: nat, w: Wallet, kind: Kind)
    requires (p, KeyOf(w)) !in s.mutexes
    ensures var s1, m := Apply(s, Start(p, w, kind, [])), |s.sessions|;
      && Enabled(s1, LockLocal(m))
      && var s2 := Apply(s1, LockLocal(m));
      && s2.sessions == s.sessions + [Session(p, w, KeyOf(w), kind, [], None, Local, None, "", false)]
      && s2.distributed == s.distributed && s2.entries == s.entries
      && s2.accepted == s.accepted && s2.base == s.base
  {
  }

  /** A session with the mutex of a free key gets the entry. */
  lemma TakeEntry(s: State, m: nat, t: Token) returns (steps: seq<Step>)
    requires s.distributed && s.Is(m) && s.sessions[m].pc == Local && s.sessions[m].key !in s.entries
    requires Unused(s, Some(t))
    ensures Valid(s, steps) && TrustedRun(s, steps)
    ensures var d := Exec(s, steps);
      && d.sessions == s.sessions[m := s.sessions[m].(pc := Inside, token := Some(t))]
      && d.entries == s.entries[s.sessions[m].key := t] && d.accepted == s.accepted && d.base == s.base
  {
    var s1 := Apply(s, Draw(m, Some(t)));
    assert s1.sessions == s.sessions[m := s.sessions[m].(pc := Trying(0), token := Some(t))];
    steps := Prepend(s1, SetNX(m), []);
    steps := Prepend(s, Draw(m, Some(t)), steps);
  }

  /** A new session of a free key gets inside. */
  lemma WalkIn(s: State, p: nat, w: Wallet, kind: Kind, t: Token) returns (steps: seq<Step>)
    requires s.distributed && (p, KeyOf(w)) !in s.mutexes && KeyOf(w) !in s.entries && Unused(s, Some(t))
    ensures Valid(s, steps) && TrustedRun(s, steps)
    ensures var d := Exec(s, steps);
      && d.sessions == s.sessions + [Session(p, w, KeyOf(w), kind, [], Some(t), Inside, None, "", false)]
      && d.entries == s.entries[KeyOf(w) := t] && d.accepted == s.accepted && d.base == s.base
  {
    var m := |s.sessions|;
    Begun(s, p, w, kind);
    var s1 := Apply(s, Start(p, w, kind, []));
    steps := TakeEntry(Apply(s1, LockLocal(m)), m, t);
    steps := Prepend(s1, LockLocal(m), steps);
    steps := Prepend(s, Start(p, w, kind, []), steps);
  }

  /** Two sessions inside one wallet's critical section send at the same nonce. */
  lemma Collide(s: State, i: nat, m: nat) returns (steps: seq<Step>)
    requires i < m < |s.sessions| && s.sessions[i].wallet == s.sessions[m].wallet
    requires s.sessions[m].pc == Inside && s.sessions[m].kind != Account
    requires s.sessions[i].pc == Holding(s.Pending(s.sessions[i].wallet))
    ensures Valid(s, steps) && !DistinctNonces(Exec(s, steps).Accepted(s.sessions[i].wallet))
  {
    var w := s.sessions[i].wallet;
    var n := |s.Accepted(w)|;
    var s1 := Apply(s, ReadNonce(m));
    var s2 := Apply(s1, Send(m, true, true, ""));
    var s3 := Apply(s2, Send(i, true, true, ""));
    LedgerGrows(s1, Send(m, true, true, ""), w);
    LedgerGrows(s2, Send(i, true, true, ""), w);
    assert s3.Accepted(w)[n].nonce == s3.Accepted(w)[n + 1].nonce;
    steps := Runs.Cons(Apply, s2, Send(i, true, true, ""), []);
    steps := Runs.Cons(Apply, s1, Send(m, true, true, ""), steps);
    steps := Runs.Cons(Apply, s, ReadNonce(m), steps);
  }

  /** If the entry of a session that has read its nonce is gone, some continuation uses that slot twice. */
  lemma LapseReusesNonce(s: State, i: nat) returns (steps: seq<Step>)
    requires Inv(s) && NonceInv(s) && s.distributed && s.Is(i) && s.sessions[i].pc.Holding?
    requires s.sessions[i].key !in s.entries
    ensures Valid(s, steps) && !DistinctNonces(Exec(s, steps).Accepted(s.sessions[i].wallet))
  {
    var m := |s.sessions|;
    var enter := Intrude(s, i);
    var t := Exec(s, enter);
    assert t.sessions[..m][i] == s.sessions[i];
    var send := Collide(t, i, m);
    Runs.Compose(Apply, s, enter, send);
    steps := enter + send;
  }

  /** An owner reads its nonce and then loses its entry. */
  lemma LoseEntry(s: State) returns (steps: seq<Step>)
    requires |s.sessions| == 1 && s.sessions[0].pc == Inside && s.sessions[0].kind != Account
    requires s.sessions[0].key in s.entries && s.accepted == map[]
    ensures Valid(s, steps)
    ensures var t := Exec(s, steps);
      && NonceInv(t) && |t.sessions| == 1 && t.sessions[0].wallet == s.sessions[0].wallet
      && t.sessions[0].pc.Holding? && t.sessions[0].key !in t.entries
  {
    var k := s.sessions[0].key;
    var t := Apply(s, ReadNonce(0));
    assert Enabled(t, Expire(k)) && Valid(Apply(t, Expire(k)), []);
    steps := Runs.Cons(Apply, t, Expire(k), []);
    steps := Runs.Cons(Apply, s, ReadNonce(0), steps);
  }

  /**
   * The condition on expiry is needed: for every wallet some run of an empty system, in which one entry
   * expires while its owner still runs, makes the node accept two transactions at the same nonce.
   */
  lemma ExpiryReusesNonce(base: map<Wallet, nat>, w: Wallet) returns (steps: seq<Step>)
    ensures Valid(Init(true, base), steps)
    ensures !DistinctNonces(Exec(Init(true, base), steps).Accepted(w))
  {
    var s := Init(true, base);
    steps := WalkIn(s, 0, w, Batch, 0);
    var lapse := LoseEntry(Exec(s, steps));
    Runs.Compose(Apply, s, steps, lapse);
    steps := steps + lapse;
    InvRun(s, steps);
    ConfigKept(s, steps);
    var reuse := LapseReusesNonce(Exec(s, steps), 0);
    Runs.Compose(Apply, s, steps, reuse);
    steps := steps + reuse;
  }

  lemma Prepend(s: State, step: Step, rest: seq<Step>) returns (steps: seq<Step>)
    requires Enabled(s, step) && Trusted(s, step)
    requires Valid(Apply(s, step), rest) && TrustedRun(Apply(s, step), rest)
    ensures steps == [step] + rest
    ensures Valid(s, steps) && TrustedRun(s, steps)
    ensures Exec(s, steps) == Exec(Apply(s, step), rest)
  {
    steps := [step] + rest;
    assert steps[1..] == rest;
  }

  lemma TwoOwners(s: State, i: nat, t: State)
    requires s.Is(i) && s.sessions[i].pc.Owns()
    requires |t.sessions| == |s.sessions| + 1 && t.sessions[..|s.sessions|] == s.sessions
    requires t.sessions[|s.sessions|].pc == Inside && t.sessions[|s.sessions|].wallet == s.sessions[i].wallet
    ensures !Exclusive(t)
  {
    assert t.sessions[..|s.sessions|][i] == t.sessions[i];
  }

  /** An entry under the key of a lapsed owner was left behind by a session that no longer owns it. */
  lemma OrphanMayExpire(s: State, i: nat)
    requires KeyInv(s) && Exclusive(s) && s.Is(i) && s.Lapsed(i) && s.distributed
    ensures Trusted(s, Expire(s.sessions[i].key))
  {
    forall j | 0 <= j < |s.sessions| && s.sessions[j].pc.Owns() && s.Leased(j)
      ensures s.sessions[j].key != s.sessions[i].key
    {
      SameKeySameWallet(s, i, j);
    }
  }

  /** The session that wrote an entry. */
  lemma Writer(s: State, k: string) returns (e: nat)
    requires EntryInv(s) && k in s.entries
    ensures WroteEntry(s, e, k) && s.Leased(e)
  {
    e :| WroteEntry(s, e, k);
  }

  /** Nobody owns an entry that its writer no longer owns. */
  lemma OrphanUnowned(s: State, e: nat)
    requires TokenDistinct(s) && s.Is(e) && s.Leased(e) && !s.sessions[e].pc.Owns()
    ensures Unowned(s, s.sessions[e].key)
  {
  }

  lemma LapseBreaksExclusion(s: State, i: nat) returns (steps: seq<Step>)
    requires Inv(s) && s.distributed && s.Is(i) && s.Lapsed(i)
    ensures Valid(s, steps) && TrustedRun(s, steps) && !Exclusive(Exec(s, steps))
  {
    var k := s.sessions[i].key;
    if !Exclusive(s) {
      steps := [];
    } else if k !in s.entries {
      steps := Intrude(s, i);
      TwoOwners(s, i, Exec(s, steps));
    } else {
      OrphanMayExpire(s, i);
      InvStep(s, Expire(k));
      steps := Intrude(Apply(s, Expire(k)), i);
      TwoOwners(s, i, Exec(Apply(s, Expire(k)), steps));
      steps := Prepend(s, Expire(k), steps);
    }
  }

  /**
   * The exact condition. From any state that any run with Redis can reach, the lock is exclusive on
   * every trusted continuation if and only if no owner has lapsed.
   */
  lemma ExclusiveIffNoLapse(base: map<Wallet, nat>, past: seq<Step>)
    requires Valid(Init(true, base), past)
    ensures var s := Exec(Init(true, base), past);
      (forall i :: 0 <= i < |s.sessions| ==> !s.Lapsed(i)) <==>
      (forall steps :: Valid(s, steps) && TrustedRun(s, steps) ==> Exclusive(Exec(s, steps)))
  {
    var s := Exec(Init(true, base), past);
    InvRun(Init(true, base), past);
    ConfigKept(Init(true, base), past);
    if Secure(s) {
      forall steps | Valid(s, steps) && TrustedRun(s, steps)
        ensures Exclusive(Exec(s, steps))
      {
        SecureRun(s, steps);
      }
    } else {
      var i :| 0 <= i < |s.sessions| && s.Lapsed(i);
      var steps := LapseBreaksExclusion(s, i);
      assert !Exclusive(Exec(s, steps));
    }
  }
}
