/** The promises of the deployment: what a success answer is worth, and how often the chain carries an operation. */
module ClusterTheorems {
  import opened Common
  import opened Cluster
  import opened ClusterSafety
  import B = Batcher
  import BatcherSafety
  import BatcherTheorems
  import L = NonceLock

  // ---------- What a success answer is worth ----------

  /** The n-th accepted transaction of wallet w has this hash and carries the operation. */
  ghost predicate OnChain(c: State, w: L.Wallet, n: nat, hash: string, op: L.Op) {
    && n < |c.locks.Accepted(w)|
    && c.locks.Accepted(w)[n].hash == hash && op in c.locks.Accepted(w)[n].ops
  }

  /** That transaction is in the slot of its nonce, and no session but the one that sent it used that slot. */
  ghost predicate SlotIsOwn(l: L.State, w: L.Wallet, n: nat)
    requires n < |l.Accepted(w)|
  {
    && l.Accepted(w)[n].nonce == l.Base(w) + n
    && forall i :: 0 <= i < |l.sessions| && l.sessions[i].wallet == w && l.sessions[i].sent == Some(l.Base(w) + n)
         ==> i == l.Accepted(w)[n].session
  }

  /**
   * End to end: in every run of any number of processes, whatever expires, a client that was told success
   * has its operation in a transaction that the node accepted for a pool wallet, under the reported hash.
   * In a trusted run that transaction is in a nonce slot that no other session of any process used.
   */
  lemma SuccessIsOnChain(g: Setup, steps: seq<Step>, p: nat, q: nat) returns (w: L.Wallet, n: nat)
    requires ProperPool(g.pool) && Valid(Init(g), steps)
    requires var c := Exec(Init(g), steps);
      && p < |c.procs| && q < |c.procs[p].clients|
      && c.procs[p].clients[q].answers != [] && c.procs[p].clients[q].answers[0].Ok()
    ensures var c := Exec(Init(g), steps);
      && w in g.pool && OnChain(c, w, n, c.procs[p].clients[q].answers[0].hash, L.Op(p, q))
      && (TrustedRun(Init(g), steps) ==> SlotIsOwn(c.locks, w, n))
  {
    Reachable(g, steps);
    var c := Exec(Init(g), steps);
    var i;
    i, w, n := SuccessfulSession(c, p, q);
    if TrustedRun(Init(g), steps) {
      ReachableTrusted(g, steps);
      OwnSlot(c.locks, i, n);
    }
  }

  /** The session behind a success answer, and its transaction. */
  lemma SuccessfulSession(c: State, p: nat, q: nat) returns (i: nat, w: L.Wallet, n: nat)
    requires Inv(c) && p < |c.procs| && q < |c.procs[p].clients|
    requires c.procs[p].clients[q].answers != [] && c.procs[p].clients[q].answers[0].Ok()
    ensures w in c.pool && OnChain(c, w, n, c.procs[p].clients[q].answers[0].hash, L.Op(p, q))
    ensures c.locks.Is(i) && c.locks.sessions[i].ok && c.locks.sessions[i].wallet == w && L.SentAs(c.locks, i, n)
  {
    var f, a := BatcherTheorems.SuccessfulAttempt(c.procs[p], q);
    assert IsSubmission(c, p, f, a) && Backed(c, p, f, a);
    i := c.backing[(p, f, a)];
    w := c.locks.sessions[i].wallet;
    n := L.LedgerEntry(c.locks, i);
    Tagged(p, c.procs[p].flights[f].attempts[a].ops, q);
  }

  lemma OwnSlot(l: L.State, i: nat, n: nat)
    requires L.Good(l) && l.Is(i) && l.sessions[i].ok && L.SentAs(l, i, n)
    ensures SlotIsOwn(l, l.sessions[i].wallet, n)
  {
    L.GoodOwnsSlot(l, i, n);
    assert L.Recorded(l, l.sessions[i].wallet, n);
    forall j | 0 <= j < |l.sessions| && j != i
      ensures L.SlotsDiffer(l.sessions[i], l.sessions[j])
    {
    }
  }

  lemma Tagged(p: nat, ops: seq<nat>, q: nat)
    ensures q in ops <==> L.Op(p, q) in Tag(p, ops)
    ensures forall op :: op in Tag(p, ops) ==> op.process == p
  {
    if q in ops {
      var k :| 0 <= k < |ops| && ops[k] == q;
      assert Tag(p, ops)[k] == L.Op(p, q);
    }
  }

  /** Two different submissions of any two processes never share a nonce slot of a wallet. */
  lemma SubmissionsNeverShareSlots(g: Setup, steps: seq<Step>, k: (nat, nat, nat), l: (nat, nat, nat))
    requires ProperPool(g.pool) && Valid(Init(g), steps) && TrustedRun(Init(g), steps)
    requires k in Exec(Init(g), steps).backing && l in Exec(Init(g), steps).backing && k != l
    ensures var c := Exec(Init(g), steps);
      c.locks.Is(c.backing[k]) && c.locks.Is(c.backing[l]) &&
      L.SlotsDiffer(c.locks.sessions[c.backing[k]], c.locks.sessions[c.backing[l]])
  {
    ReachableTrusted(g, steps);
    var c := Exec(Init(g), steps);
    assert (k.0, k.1, k.2) in c.backing && (l.0, l.1, l.2) in c.backing;
    assert Backed(c, k.0, k.1, k.2) && Backed(c, l.0, l.1, l.2);
    L.OwnSlots(c.locks, c.backing[k], c.backing[l]);
  }

  /** In every trusted run of the deployment each wallet's accepted transactions fill consecutive slots. */
  lemma DeploymentNonces(g: Setup, steps: seq<Step>, w: L.Wallet)
    requires ProperPool(g.pool) && Valid(Init(g), steps) && TrustedRun(Init(g), steps)
    ensures var c := Exec(Init(g), steps);
      L.Consecutive(c.locks.Accepted(w), Init(g).locks.Base(w)) && L.DistinctNonces(c.locks.Accepted(w))
  {
    ReachableTrusted(g, steps);
  }

  // ---------- How often the chain carries an operation ----------

  /** Session i is the one behind submission a of flush f of process p, which has returned or is under way. */
  ghost predicate Carries(c: State, i: nat, p: nat, f: nat, a: nat) {
    && p < |c.procs| && f < |c.procs[p].flights|
    && var flight := c.procs[p].flights[f];
       if a < |flight.attempts| then Backs(c, i, p, f, a)
       else a == |flight.attempts| && flight.pc.HoldsWallet() &&
            (p, Of(B.ByFlight(f))) in c.current && c.current[(p, Of(B.ByFlight(f)))] == i
  }

  /** What submission a of a flush contains. */
  ghost function OpsOf(f: B.Flight, a: nat): seq<nat> {
    if a < |f.attempts| then f.attempts[a].ops else Submitting(f)
  }

  /** A session that carries an operation belongs to a submission that contains it. */
  lemma CarrierOf(c: State, i: nat, p: nat, q: nat) returns (f: nat, a: nat)
    requires Inv(c) && c.locks.Is(i) && L.Op(p, q) in c.locks.sessions[i].ops
    ensures Carries(c, i, p, f, a) && q in OpsOf(c.procs[p].flights[f], a)
  {
    assert Sorted(c, c.locks.sessions[i]);
    if c.locks.sessions[i].pc.Finished? {
      f, a := ReturnedCarrier(c, i, p, q);
    } else {
      assert PoolSession(c, i);
      f, a := RunningCarrier(c, i, p, q);
    }
  }

  lemma ReturnedCarrier(c: State, i: nat, p: nat, q: nat) returns (f: nat, a: nat)
    requires BackingInv(c) && CarrierInv(c) && c.locks.Is(i)
    requires L.Op(p, q) in c.locks.sessions[i].ops && c.locks.sessions[i].pc.Finished?
    ensures Carries(c, i, p, f, a) && q in OpsOf(c.procs[p].flights[f], a)
  {
    assert HasCarried(c, i);
    var r: nat;
    r, f, a :| Backs(c, i, r, f, a);
    assert IsSubmission(c, r, f, a) && Backed(c, r, f, a);
    Tagged(r, c.procs[r].flights[f].attempts[a].ops, q);
    assert r == p;
  }

  lemma RunningCarrier(c: State, i: nat, p: nat, q: nat) returns (f: nat, a: nat)
    requires HolderInv(c) && OwnedInv(c) && c.locks.Is(i) && PoolSession(c, i)
    requires L.Op(p, q) in c.locks.sessions[i].ops
    ensures Carries(c, i, p, f, a) && q in OpsOf(c.procs[p].flights[f], a)
  {
    var r := c.locks.sessions[i].process;
    var w, h :| Owned(c, i, w, h);
    assert HasSession(c, r, w, h);
    Tagged(r, SubmittingBy(c.procs[r], h), q);
    assert r == p;
    f, a := h.f, |c.procs[p].flights[h.f].attempts|;
  }

  lemma CarriedOps(c: State, i: nat, p: nat, f: nat, a: nat)
    requires Inv(c) && Carries(c, i, p, f, a)
    ensures c.locks.Is(i) && c.locks.sessions[i].ops == Tag(p, OpsOf(c.procs[p].flights[f], a))
  {
    if a < |c.procs[p].flights[f].attempts| {
      assert IsSubmission(c, p, f, a) && Backed(c, p, f, a);
    } else {
      assert HasSession(c, p, c.procs[p].flights[f].wallet, B.ByFlight(f));
    }
  }

  /** Only the first submission of its flush and its own one contain an operation. */
  lemma OwnSubmissions(s: B.State, f: nat, a: nat, q: nat) returns (k: nat)
    requires BatcherSafety.Inv(s) && f < |s.flights| && a <= |s.flights[f].attempts| && q in OpsOf(s.flights[f], a)
    ensures BatcherTheorems.HasAt(s, f, k, q) && (a == 0 || a == k + 1)
    ensures a > 0 ==> |s.flights[f].batch| > 1 && !s.flights[f].attempts[0].outcome.Ok()
  {
    var g := s.flights[f];
    assert BatcherSafety.FlightShape(g);
    if a == 0 {
      k :| 0 <= k < |g.batch| && g.batch[k] == q;
    } else {
      k := a - 1;
    }
  }

  /** Where a session that carries an operation belongs. */
  ghost predicate CarriesAs(c: State, i: nat, p: nat, q: nat, f: nat, a: nat, k: nat) {
    && Carries(c, i, p, f, a) && BatcherTheorems.HasAt(c.procs[p], f, k, q)
    && (a == 0 || (a == k + 1 && FellBack(c, p, q, f, k)))
  }

  lemma CarrierPlace(c: State, i: nat, p: nat, q: nat) returns (f: nat, a: nat, k: nat)
    requires Inv(c) && c.locks.Is(i) && L.Op(p, q) in c.locks.sessions[i].ops
    ensures p < |c.procs| && BatcherSafety.QueueInv(c.procs[p]) && CarriesAs(c, i, p, q, f, a, k)
  {
    f, a := CarrierOf(c, i, p, q);
    k := OwnSubmissions(c.procs[p], f, a, q);
  }

  /** One session has the operation's failed batch, the other one its own submission. */
  ghost predicate TwoWays(c: State, i: nat, j: nat, p: nat, q: nat, f: nat, k: nat) {
    && FellBack(c, p, q, f, k)
    && ((Carries(c, i, p, f, 0) && Carries(c, j, p, f, k + 1)) ||
        (Carries(c, j, p, f, 0) && Carries(c, i, p, f, k + 1)))
  }

  /** An operation is in one place of one batch. */
  lemma SamePlace(c: State, i: nat, j: nat, p: nat, q: nat, f: nat, a: nat, k: nat, e: nat, b: nat, l: nat)
    requires p < |c.procs| && BatcherSafety.QueueInv(c.procs[p])
    requires CarriesAs(c, i, p, q, f, a, k) && CarriesAs(c, j, p, q, e, b, l)
    ensures f == e && k == l && (a == b ==> i == j)
    ensures i != j ==> TwoWays(c, i, j, p, q, f, k)
  {
    BatcherSafety.DispatchedDistinct(c.procs[p]);
    BatcherSafety.OnePlace(c.procs[p].flights, f, k, e, l);
  }

  lemma TwoCarriers(c: State, i: nat, j: nat, p: nat, q: nat) returns (f: nat, k: nat)
    requires Inv(c) && c.locks.Is(i) && c.locks.Is(j) && i != j
    requires L.Op(p, q) in c.locks.sessions[i].ops && L.Op(p, q) in c.locks.sessions[j].ops
    ensures TwoWays(c, i, j, p, q, f, k)
  {
    var a, e, b, l;
    f, a, k := CarrierPlace(c, i, p, q);
    e, b, l := CarrierPlace(c, j, p, q);
    SamePlace(c, i, j, p, q, f, a, k, e, b, l);
  }

  /** The operation is the k-th of a batch of several that was reported as failed. */
  ghost predicate FellBack(c: State, p: nat, q: nat, f: nat, k: nat) {
    && p < |c.procs| && BatcherTheorems.HasAt(c.procs[p], f, k, q)
    && var flight := c.procs[p].flights[f];
       |flight.batch| > 1 && flight.attempts != [] && !flight.attempts[0].outcome.Ok()
  }

  /** The node accepted the transaction of submission a of flush f. */
  ghost predicate Landed(c: State, p: nat, f: nat, a: nat) {
    exists i :: LandedBy(c, p, f, a, i)
  }

  ghost predicate LandedBy(c: State, p: nat, f: nat, a: nat, i: nat) {
    Carries(c, i, p, f, a) && c.locks.Is(i) && c.locks.sessions[i].sent.Some?
  }

  /** The operation's batch was reported as failed although it had landed, and so did its own submission. */
  ghost predicate BothLanded(c: State, p: nat, q: nat, f: nat, k: nat) {
    FellBack(c, p, q, f, k) && Landed(c, p, f, 0) && Landed(c, p, f, k + 1)
  }

  /** The n-th accepted transaction of wallet w carries the operation. */
  ghost predicate Carried(c: State, w: L.Wallet, n: nat, op: L.Op) {
    n < |c.locks.Accepted(w)| && op in c.locks.Accepted(w)[n].ops
  }

  ghost predicate CarriedTwice(c: State, op: L.Op) {
    exists v, m: nat, w, n: nat :: Carried(c, v, m, op) && Carried(c, w, n, op) && (v, m) != (w, n)
  }

  lemma SenderOf(c: State, w: L.Wallet, n: nat, op: L.Op) returns (i: nat)
    requires L.Inv(c.locks) && Carried(c, w, n, op)
    ensures i == c.locks.Accepted(w)[n].session && c.locks.Is(i)
    ensures op in c.locks.sessions[i].ops && c.locks.sessions[i].sent.Some? && c.locks.sessions[i].wallet == w
  {
    i := c.locks.Accepted(w)[n].session;
    assert L.Recorded(c.locks, w, n);
  }

  /** Different transactions come from different sessions. */
  lemma SendersDiffer(c: State, v: L.Wallet, m: nat, w: L.Wallet, n: nat, op: L.Op)
    requires L.Inv(c.locks) && Carried(c, v, m, op) && Carried(c, w, n, op) && (v, m) != (w, n)
    ensures c.locks.Accepted(v)[m].session != c.locks.Accepted(w)[n].session
  {
    assert L.Recorded(c.locks, v, m) && L.Recorded(c.locks, w, n);
    if v == w {
      assert if m < n then c.locks.Accepted(v)[m].session != c.locks.Accepted(v)[n].session
             else c.locks.Accepted(v)[n].session != c.locks.Accepted(v)[m].session;
    }
  }

  lemma LandedCarries(c: State, p: nat, f: nat, a: nat, q: nat) returns (i: nat, w: L.Wallet, n: nat)
    requires Inv(c) && Landed(c, p, f, a) && q in OpsOf(c.procs[p].flights[f], a)
    ensures Carries(c, i, p, f, a) && Carried(c, w, n, L.Op(p, q)) && c.locks.Accepted(w)[n].session == i
  {
    i :| LandedBy(c, p, f, a, i);
    CarriedOps(c, i, p, f, a);
    Tagged(p, OpsOf(c.procs[p].flights[f], a), q);
    w := c.locks.sessions[i].wallet;
    n := L.LedgerEntry(c.locks, i);
  }

  /** Different submissions have different sessions. */
  lemma CarriersDiffer(c: State, i: nat, j: nat, p: nat, f: nat, a: nat, b: nat)
    requires Inv(c) && Carries(c, i, p, f, a) && Carries(c, j, p, f, b) && a < b
    ensures i != j
  {
    assert IsSubmission(c, p, f, a) && Backed(c, p, f, a);
    if b == |c.procs[p].flights[f].attempts| {
      assert HasSession(c, p, c.procs[p].flights[f].wallet, B.ByFlight(f));
    }
  }

  /**
   * The exact condition under which the chain carries an operation more than once, in every state of every
   * run, trusted or not: its batch was reported as failed, although the node had accepted the batch's
   * transaction, and the node accepted the operation's own transaction as well.
   */
  lemma TwiceIffBothLanded(g: Setup, steps: seq<Step>, p: nat, q: nat)
    requires ProperPool(g.pool) && Valid(Init(g), steps)
    ensures var c := Exec(Init(g), steps);
      CarriedTwice(c, L.Op(p, q)) <==> exists f, k :: BothLanded(c, p, q, f, k)
  {
    Reachable(g, steps);
    var c := Exec(Init(g), steps);
    if CarriedTwice(c, L.Op(p, q)) {
      TwiceLanded(c, p, q);
    }
    if f, k :| BothLanded(c, p, q, f, k) {
      LandedTwice(c, p, q, f, k);
    }
  }

  lemma TwiceLanded(c: State, p: nat, q: nat)
    requires Inv(c) && CarriedTwice(c, L.Op(p, q))
    ensures exists f, k :: BothLanded(c, p, q, f, k)
  {
    var op := L.Op(p, q);
    var v, m: nat, w, n: nat :| Carried(c, v, m, op) && Carried(c, w, n, op) && (v, m) != (w, n);
    var i := SenderOf(c, v, m, op);
    var j := SenderOf(c, w, n, op);
    SendersDiffer(c, v, m, w, n, op);
    var f, k := TwoCarriers(c, i, j, p, q);
    assert LandedBy(c, p, f, 0, i) || LandedBy(c, p, f, 0, j);
    assert LandedBy(c, p, f, k + 1, i) || LandedBy(c, p, f, k + 1, j);
    assert BothLanded(c, p, q, f, k);
  }

  lemma LandedTwice(c: State, p: nat, q: nat, f: nat, k: nat)
    requires Inv(c) && BothLanded(c, p, q, f, k)
    ensures CarriedTwice(c, L.Op(p, q))
  {
    OwnOps(c, p, q, f, k);
    LandedApart(c, p, q, f, 0, k + 1);
  }

  lemma LandedApart(c: State, p: nat, q: nat, f: nat, a: nat, b: nat)
    requires Inv(c) && Landed(c, p, f, a) && Landed(c, p, f, b) && a < b
    requires q in OpsOf(c.procs[p].flights[f], a) && q in OpsOf(c.procs[p].flights[f], b)
    ensures CarriedTwice(c, L.Op(p, q))
  {
    var i, v, m := LandedCarries(c, p, f, a, q);
    var j, w, n := LandedCarries(c, p, f, b, q);
    CarriersDiffer(c, i, j, p, f, a, b);
    DifferentSenders(c, v, m, w, n, L.Op(p, q));
  }

  lemma DifferentSenders(c: State, v: L.Wallet, m: nat, w: L.Wallet, n: nat, op: L.Op)
    requires Carried(c, v, m, op) && Carried(c, w, n, op)
    requires c.locks.Accepted(v)[m].session != c.locks.Accepted(w)[n].session
    ensures CarriedTwice(c, op)
  {
    assert (v, m) != (w, n);
  }

  lemma OwnOps(c: State, p: nat, q: nat, f: nat, k: nat)
    requires ProcsInv(c) && BothLanded(c, p, q, f, k)
    ensures q in OpsOf(c.procs[p].flights[f], 0) && q in OpsOf(c.procs[p].flights[f], k + 1)
  {
    var g := c.procs[p].flights[f];
    assert BatcherSafety.FlightShape(g);
    assert g.attempts[0].ops == g.batch && g.batch[k] == q;
    assert k + 1 < |g.attempts| ==> g.attempts[k + 1].ops == [g.batch[k]];
  }

  /** No operation is ever carried three times. */
  lemma NeverThrice(g: Setup, steps: seq<Step>, op: L.Op, t: (L.Wallet, nat), u: (L.Wallet, nat), v: (L.Wallet, nat))
    requires ProperPool(g.pool) && Valid(Init(g), steps)
    requires var c := Exec(Init(g), steps);
      Carried(c, t.0, t.1, op) && Carried(c, u.0, u.1, op) && Carried(c, v.0, v.1, op)
    ensures t == u || u == v || t == v
  {
    Reachable(g, steps);
    var c := Exec(Init(g), steps);
    if t != u && u != v && t != v {
      ThreeCarriers(c, op, t, u, v);
    }
  }

  lemma ThreeCarriers(c: State, op: L.Op, t: (L.Wallet, nat), u: (L.Wallet, nat), v: (L.Wallet, nat))
    requires Inv(c) && Carried(c, t.0, t.1, op) && Carried(c, u.0, u.1, op) && Carried(c, v.0, v.1, op)
    ensures t == u || u == v || t == v
  {
    if t != u && u != v && t != v {
      var i := SenderOf(c, t.0, t.1, op);
      var j := SenderOf(c, u.0, u.1, op);
      var k := SenderOf(c, v.0, v.1, op);
      SendersDiffer(c, t.0, t.1, u.0, u.1, op);
      SendersDiffer(c, u.0, u.1, v.0, v.1, op);
      SendersDiffer(c, t.0, t.1, v.0, v.1, op);
      TwoSubmissions(c, op, i, j, k);
    }
  }

  lemma TwoSubmissions(c: State, op: L.Op, i: nat, j: nat, k: nat)
    requires Inv(c) && c.locks.Is(i) && c.locks.Is(j) && c.locks.Is(k)
    requires op in c.locks.sessions[i].ops && op in c.locks.sessions[j].ops && op in c.locks.sessions[k].ops
    ensures i == j || j == k || i == k
  {
    if i != j && j != k && i != k {
      var p, q := op.process, op.client;
      var f, x, l := CarrierPlace(c, i, p, q);
      var d, y, m := CarrierPlace(c, j, p, q);
      var e, z, n := CarrierPlace(c, k, p, q);
      SamePlace(c, i, j, p, q, f, x, l, d, y, m);
      SamePlace(c, i, k, p, q, f, x, l, e, z, n);
      SamePlace(c, j, k, p, q, d, y, m, e, z, n);
    }
  }
}
