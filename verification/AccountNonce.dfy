/**
 * Account nonces (internal/transfer/send.go): sendViaAccount reads the nonce of the account contract inside the
 * account lock and puts it into its operation. When can two operations of an account carry the same nonce?
 *
 * The contract counts the operations of the account that were executed. Which of the accepted transactions have
 * been executed at a given moment is up to the chain; the model only says what it cannot be.
 */
module AccountNonce {
  import opened Common
  import opened Cluster
  import opened ClusterSafety
  import opened ClusterTheorems
  import opened ClusterAccounts
  import BatcherSafety
  import L = NonceLock

  ghost predicate IsClient(c: State, op: L.Op) {
    op.process < |c.procs| && op.client < |c.procs[op.process].clients|
  }

  ghost predicate OfAccount(c: State, account: string, op: L.Op) {
    IsClient(c, op) && c.procs[op.process].clients[op.client].account == Some(account)
  }

  /** The operation has been answered with success. */
  ghost predicate Confirmed(c: State, op: L.Op) {
    IsClient(c, op) && c.procs[op.process].clients[op.client].answers != [] &&
    c.procs[op.process].clients[op.client].answers[0].Ok()
  }

  /** Some accepted transaction carries the operation. */
  ghost predicate Sent(c: State, op: L.Op) { exists w, n: nat :: Carried(c, w, n, op) }

  /** These operations may have been executed by now: what was confirmed has been, what was not sent has not. */
  ghost predicate Plausible(c: State, executed: set<L.Op>) {
    && (forall op :: op in executed ==> Sent(c, op))
    && (forall op :: Confirmed(c, op) ==> op in executed)
  }

  /** What the account contract returns, counted from the start of the run. */
  ghost function Nonce(c: State, account: string, executed: set<L.Op>): nat {
    |set op | op in executed && OfAccount(c, account, op)|
  }

  // ---------- What does not change ----------

  lemma {:induction false} ClientStays(c: State, steps: seq<Step>, op: L.Op)
    requires Valid(c, steps) && IsClient(c, op)
    ensures IsClient(Exec(c, steps), op)
    ensures var me, now := c.procs[op.process].clients[op.client], Exec(c, steps).procs[op.process].clients[op.client];
      now.account == me.account && me.answers <= now.answers
    decreases |steps|
  {
    if steps == [] {
    } else {
      AnswersStep(c, steps[0], op.process, op.client);
      ClientStays(Apply(c, steps[0]), steps[1..], op);
    }
  }

  /** A transaction that was accepted comes from an operation of some client that the channel took. */
  lemma SentIsAccepted(c: State, op: L.Op)
    requires Inv(c) && Sent(c, op)
    ensures IsClient(c, op) && op.client in c.procs[op.process].accepted
  {
    var w, n: nat :| Carried(c, w, n, op);
    var i := SenderOf(c, w, n, op);
    var f, a, k := CarrierPlace(c, i, op.process, op.client);
    var s := c.procs[op.process];
    BatcherSafety.DispatchedHas(s.flights, f, k);
    assert op.client in s.accepted;
    assert BatcherSafety.ClientInv(s);
  }

  lemma ConfirmedIsSent(c: State, op: L.Op)
    requires Inv(c) && Confirmed(c, op)
    ensures Sent(c, op)
  {
    var i, w, n := SuccessfulSession(c, op.process, op.client);
    assert Carried(c, w, n, op);
  }

  // ---------- The exact condition ----------

  /** The chain may show the same nonce of the account in both states. */
  ghost predicate MaySeeSame(c: State, d: State, account: string) {
    exists before, after ::
      SameNonce(c, before, d, after, account)
  }

  ghost predicate SameNonce(c: State, before: set<L.Op>, d: State, after: set<L.Op>, account: string) {
    && Plausible(c, before) && Plausible(d, after) && before <= after
    && Nonce(c, account, before) == Nonce(d, account, after)
  }

  /** Every operation of the account that is confirmed in d had been sent in c. */
  ghost predicate ConfirmedWereSent(c: State, d: State, account: string) {
    forall op :: OfAccount(d, account, op) && Confirmed(d, op) ==> Sent(c, op)
  }

  lemma SubsetOfSameSize<T>(a: set<T>, b: set<T>)
    requires a <= b && |a| == |b|
    ensures a == b
  {
    assert |b - a| == 0;
  }

  lemma SameNonceNeeds(c: State, before: set<L.Op>, steps: seq<Step>, after: set<L.Op>, account: string)
    requires Inv(c) && Valid(c, steps) && SameNonce(c, before, Exec(c, steps), after, account)
    ensures ConfirmedWereSent(c, Exec(c, steps), account)
  {
    var d := Exec(c, steps);
    var a, b := set op | op in before && OfAccount(c, account, op), set op | op in after && OfAccount(d, account, op);
    forall op | op in a
      ensures op in b
    {
      ClientStays(c, steps, op);
    }
    SubsetOfSameSize(a, b);
    forall op | OfAccount(d, account, op) && Confirmed(d, op)
      ensures Sent(c, op)
    {
      assert op in b;
    }
  }

  /** Everything that is confirmed. */
  ghost function AllConfirmed(c: State): set<L.Op> {
    set p: nat, q: nat | p < |c.procs| && q < |c.procs[p].clients| && Confirmed(c, L.Op(p, q)) :: L.Op(p, q)
  }

  lemma ConfirmedIsPlausible(c: State, steps: seq<Step>) returns (before: set<L.Op>, after: set<L.Op>)
    requires Inv(c) && Valid(c, steps)
    ensures after == AllConfirmed(Exec(c, steps)) && before == set op | op in after && Sent(c, op)
    ensures Plausible(c, before) && Plausible(Exec(c, steps), after)
  {
    var d := Exec(c, steps);
    after := AllConfirmed(d);
    before := set op | op in after && Sent(c, op);
    InvRun(c, steps);
    forall op | op in after
      ensures Sent(d, op)
    {
      ConfirmedIsSent(d, op);
    }
    forall op | Confirmed(d, op)
      ensures op in after
    {
      assert op == L.Op(op.process, op.client);
    }
    forall op | Confirmed(c, op)
      ensures op in before
    {
      ClientStays(c, steps, op);
      ConfirmedIsSent(c, op);
    }
  }

  lemma ConfirmedSuffices(c: State, steps: seq<Step>, account: string)
    requires Inv(c) && Valid(c, steps) && ConfirmedWereSent(c, Exec(c, steps), account)
    ensures MaySeeSame(c, Exec(c, steps), account)
  {
    var d := Exec(c, steps);
    var before, after := ConfirmedIsPlausible(c, steps);
    forall op | op in before
      ensures OfAccount(c, account, op) <==> OfAccount(d, account, op)
    {
      SentIsAccepted(c, op);
      ClientStays(c, steps, op);
    }
    assert (set op | op in before && OfAccount(c, account, op)) == (set op | op in after && OfAccount(d, account, op));
    assert SameNonce(c, before, d, after, account);
  }

  /**
   * Two moments of any run, whatever expires or is cancelled: the chain may show the same nonce of the account at
   * both if and only if every operation of the account that has been confirmed by the second had been sent by the
   * first. So an operation whose own answer was an error, or that was never answered, keeps no nonce from being
   * read again while its transaction is pending.
   */
  lemma SameNonceIff(g: Setup, past: seq<Step>, steps: seq<Step>, account: string)
    requires ProperPool(g.pool) && Valid(Init(g), past) && Valid(Exec(Init(g), past), steps)
    ensures var c := Exec(Init(g), past);
      MaySeeSame(c, Exec(c, steps), account) <==> ConfirmedWereSent(c, Exec(c, steps), account)
  {
    Reachable(g, past);
    var c := Exec(Init(g), past);
    if before, after :| SameNonce(c, before, Exec(c, steps), after, account) {
      SameNonceNeeds(c, before, steps, after, account);
    }
    if ConfirmedWereSent(c, Exec(c, steps), account) {
      ConfirmedSuffices(c, steps, account);
    }
  }

  // ---------- What the account lock adds ----------

  /** The client reads the nonce now: it is inside its account lock and has not finished its preparations. */
  ghost predicate Reads(c: State, account: string, p: nat, q: nat) {
    Holds(c, account, p, q) && c.procs[p].clients[q].pc.Preparing? && IsInside(c, p, q)
  }

  /** The operation has gone wrong in a way that lets another client read the same nonce. */
  ghost predicate Unsettled(c: State, account: string, p: nat, q: nat, r: nat, t: nat) {
    || Abandoned(c, account, p, q)
    || (p != r && (c.locks.distributed ==> Lapsed(c, p, q) || Lapsed(c, r, t)))
  }

  /** Whoever reads the nonce has the account to itself, but for abandoned operations and lapsed sessions. */
  lemma ReadsAlone(c: State, account: string, p: nat, q: nat, r: nat, t: nat)
    requires Inv(c) && Open(c, account, p, q) && Reads(c, account, r, t) && (p, q) != (r, t)
    ensures Unsettled(c, account, p, q, r, t)
  {
    if !Abandoned(c, account, p, q) {
      LiveIsInside(c, account, p, q);
      TwoHolders(c, account, p, q, r, t);
    }
  }

  lemma NotSentWhenReading(c: State, account: string, p: nat, q: nat)
    requires Inv(c) && Reads(c, account, p, q)
    ensures !Sent(c, L.Op(p, q))
  {
    if Sent(c, L.Op(p, q)) {
      SentIsAccepted(c, L.Op(p, q));
    }
  }

  /**
   * What the account lock is for: if two clients of an account can read the same nonce, the first one in c and the
   * second one later, the first one's operation was not answered with success by then. It never got into the
   * channel, or was answered with an error, or was abandoned, or a session lost its entry.
   */
  lemma SameNonceOnlyAfterFailure(g: Setup, past: seq<Step>, steps: seq<Step>, account: string,
                                  p: nat, q: nat, r: nat, t: nat)
    requires ProperPool(g.pool) && Valid(Init(g), past) && Valid(Exec(Init(g), past), steps) && (p, q) != (r, t)
    requires var c := Exec(Init(g), past);
      && Reads(c, account, p, q) && Reads(Exec(c, steps), account, r, t) && MaySeeSame(c, Exec(c, steps), account)
    ensures var d := Exec(Exec(Init(g), past), steps);
      && IsClient(d, L.Op(p, q)) && !Confirmed(d, L.Op(p, q))
      && (Open(d, account, p, q) ==> Unsettled(d, account, p, q, r, t))
  {
    Reachable(g, past);
    var c := Exec(Init(g), past);
    InvRun(c, steps);
    SameNonceIff(g, past, steps, account);
    NotSentWhenReading(c, account, p, q);
    ClientStays(c, steps, L.Op(p, q));
    if Open(Exec(c, steps), account, p, q) {
      ReadsAlone(Exec(c, steps), account, p, q, r, t);
    }
  }
}
