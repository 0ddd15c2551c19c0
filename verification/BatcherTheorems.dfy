/** The promises of the batcher, for every run from an empty batcher over a pool of any size. */
module BatcherTheorems {
  import opened Common
  import opened Batcher
  import opened BatcherSafety
  import Runs

  /** A flush has the operation and has not answered it yet. */
  ghost predicate InFlush(s: State, q: nat) {
    exists i: nat, k: nat :: HasAt(s, i, k, q) && s.flights[i].Told() <= k
  }

  ghost predicate HasAt(s: State, i: nat, k: nat, q: nat) {
    i < |s.flights| && k < |s.flights[i].batch| && s.flights[i].batch[k] == q
  }

  lemma Reachable(wallets: nat, steps: seq<Step>)
    requires Valid(Init(wallets), steps)
    ensures Inv(Exec(Init(wallets), steps))
    ensures Exec(Init(wallets), steps).wallets == wallets
  {
    InitInv(wallets);
    InvRun(Init(wallets), steps);
    WalletsKept(Init(wallets), steps);
  }

  lemma {:induction false} WalletsKept(s: State, steps: seq<Step>)
    requires Valid(s, steps)
    ensures Exec(s, steps).wallets == s.wallets
    decreases |steps|
  {
    if steps == [] {
    } else {
      WalletsKept(Apply(s, steps[0]), steps[1..]);
    }
  }

  /**
   * Conservation and exactly-once answers. In every state of every run, an operation the channel
   * accepted is in exactly one of the channel, the dispatcher's batch, an unfinished flush and the
   * answered ones; any other operation is in none; and nobody is ever answered twice.
   */
  lemma ExactlyOnePlace(wallets: nat, steps: seq<Step>, q: nat)
    requires Valid(Init(wallets), steps) && q < |Exec(Init(wallets), steps).clients|
    ensures var s := Exec(Init(wallets), steps);
      && |s.clients[q].answers| <= 1
      && One(q in s.channel) + One(q in s.dispatcher.Held()) + One(InFlush(s, q)) + |s.clients[q].answers|
         == One(q in s.accepted)
  {
    Reachable(wallets, steps);
    var s := Exec(Init(wallets), steps);
    AtMostOne(s, q);
    OneOfThree(Dispatched(s.flights), s.dispatcher.Held(), s.channel, q);
    InFlushOrTold(s, q);
  }

  lemma OneOfThree(a: seq<nat>, b: seq<nat>, c: seq<nat>, q: nat)
    requires Distinct(a + b + c)
    ensures One(q in a) + One(q in b) + One(q in c) == One(q in a + b + c)
  {
    DistinctParts(a + b, c);
    DistinctParts(a, b);
    assert q in a + b + c <==> q in a + b || q in c;
    assert q in a + b <==> q in a || q in b;
  }

  /** Once dispatched, an operation is in an unfinished flush or has its answer. */
  lemma InFlushOrTold(s: State, q: nat)
    requires QueueInv(s) && ToldInv(s) && UntoldInv(s) && q < |s.clients|
    ensures q in Dispatched(s.flights) ==> (InFlush(s, q) <==> s.clients[q].answers == [])
    ensures q !in Dispatched(s.flights) ==> !InFlush(s, q) && s.clients[q].answers == []
  {
    DispatchedDistinct(s);
    forall j: nat, l: nat | HasAt(s, j, l, q)
      ensures q in Dispatched(s.flights)
      ensures s.clients[q].answers == [] <==> s.flights[j].Told() <= l
    {
      DispatchedHas(s.flights, j, l);
      assert ToldAt(s, j, l);
    }
    if q in Dispatched(s.flights) {
      var i, k := DispatchedFind(s.flights, q);
      assert HasAt(s, i, k, q);
    }
  }

  /**
   * Batching refines one-at-a-time submission. Whoever has been answered is the k-th operation of
   * one flush, and the answer is decided by that flush's submissions: a success carries the hash of
   * a successful submission that contains the operation; after a failed batch of several it is the
   * outcome of the submission of this operation alone. No submission but the first of that flush and
   * the operation's own contains it.
   */
  lemma AnswerIsOwnSubmission(wallets: nat, steps: seq<Step>, q: nat) returns (i: nat, k: nat)
    requires Valid(Init(wallets), steps)
    requires var s := Exec(Init(wallets), steps); q < |s.clients| && s.clients[q].answers != []
    ensures var s := Exec(Init(wallets), steps);
      && HasAt(s, i, k, q)
      && var f, o := s.flights[i], s.clients[q].answers[0];
      && f.attempts != [] && f.attempts[0].ops == f.batch
      && (f.attempts[0].outcome.Ok() ==> o == Outcome(f.attempts[0].outcome.hash, None))
      && (!f.attempts[0].outcome.Ok() ==> if |f.batch| > 1
            then k + 1 < |f.attempts| && f.attempts[k + 1] == Attempt([q], o)
            else o == Outcome("", f.attempts[0].outcome.err))
      && (o.Ok() ==> exists a :: 0 <= a < |f.attempts| && f.attempts[a].outcome.Ok() &&
                                 q in f.attempts[a].ops && f.attempts[a].outcome.hash == o.hash)
      && (forall j, a :: 0 <= j < |s.flights| && 0 <= a < |s.flights[j].attempts| && q in s.flights[j].attempts[a].ops
            ==> j == i && (a == 0 || a == k + 1))
  {
    Reachable(wallets, steps);
    var s := Exec(Init(wallets), steps);
    i, k := DispatchedFind(s.flights, q);
    assert ToldAt(s, i, k);
    var f, o := s.flights[i], s.clients[q].answers[0];
    assert q in f.batch;
    if !f.attempts[0].outcome.Ok() && |f.batch| > 1 {
      assert f.attempts[k + 1].ops == [q];
    }
    forall j, a | 0 <= j < |s.flights| && 0 <= a < |s.flights[j].attempts| && q in s.flights[j].attempts[a].ops
      ensures j == i && (a == 0 || a == k + 1)
    {
      OwnAttempts(s, i, k, j, a);
    }
  }

  /** A success answer comes from a successful submission that contains the operation. */
  lemma SuccessfulAttempt(s: State, q: nat) returns (i: nat, a: nat)
    requires Inv(s) && q < |s.clients| && s.clients[q].answers != [] && s.clients[q].answers[0].Ok()
    ensures i < |s.flights| && a < |s.flights[i].attempts|
    ensures q in s.flights[i].attempts[a].ops && s.flights[i].attempts[a].outcome.Ok()
    ensures s.flights[i].attempts[a].outcome.hash == s.clients[q].answers[0].hash
  {
    var k;
    i, k := DispatchedFind(s.flights, q);
    assert ToldAt(s, i, k);
    a := if s.flights[i].attempts[0].outcome.Ok() then 0 else k + 1;
    assert a > 0 ==> s.flights[i].attempts[a].ops == [q];
  }

  lemma OwnAttempts(s: State, i: nat, k: nat, j: nat, a: nat)
    requires FlightsInv(s) && QueueInv(s) && i < |s.flights| && k < |s.flights[i].batch|
    requires j < |s.flights| && a < |s.flights[j].attempts| && s.flights[i].batch[k] in s.flights[j].attempts[a].ops
    ensures j == i && (a == 0 || a == k + 1)
  {
    DispatchedDistinct(s);
    var g := s.flights[j];
    assert FlightShape(g);
    if a == 0 {
      assert g.attempts[0].ops == g.batch;
      var l :| 0 <= l < |g.batch| && g.batch[l] == s.flights[i].batch[k];
      OnePlace(s.flights, i, k, j, l);
    } else {
      assert g.attempts[a].ops == [g.batch[a - 1]];
      OnePlace(s.flights, i, k, j, a - 1);
    }
  }

  /** A finished flush of k operations made exactly 1 submission, or k + 1 of them if the batch failed and k > 1. */
  lemma SubmissionCount(wallets: nat, steps: seq<Step>, i: nat)
    requires Valid(Init(wallets), steps) && i < |Exec(Init(wallets), steps).flights|
    requires Exec(Init(wallets), steps).flights[i].pc.Gone?
    ensures var f := Exec(Init(wallets), steps).flights[i];
      && |f.attempts| >= 1
      && |f.attempts| == (if f.attempts[0].outcome.Ok() || |f.batch| == 1 then 1 else |f.batch| + 1)
      && forall k :: 0 <= k < |f.batch| ==>
           && f.batch[k] < |Exec(Init(wallets), steps).clients|
           && |Exec(Init(wallets), steps).clients[f.batch[k]].answers| == 1
  {
    Reachable(wallets, steps);
    var s := Exec(Init(wallets), steps);
    assert FlightShape(s.flights[i]);
    forall k | 0 <= k < |s.flights[i].batch|
      ensures s.flights[i].batch[k] < |s.clients| && |s.clients[s.flights[i].batch[k]].answers| == 1
    {
      assert ToldAt(s, i, k);
    }
  }

  /** Sending a result never blocks, whether or not the client still waits for it. */
  lemma ReplyNeverBlocks(wallets: nat, steps: seq<Step>, i: nat)
    requires Valid(Init(wallets), steps) && i < |Exec(Init(wallets), steps).flights|
    requires var pc := Exec(Init(wallets), steps).flights[i].pc; pc.Spread? || pc.Reply? || pc.ReplyErr?
    ensures Enabled(Exec(Init(wallets), steps), Tell(i))
  {
    Reachable(wallets, steps);
    var s := Exec(Init(wallets), steps);
    assert FlightShape(s.flights[i]);
    MailboxFree(s, i);
  }

  /** At most one flush or other sender is submitting with a wallet. */
  lemma OneSubmitterPerWallet(wallets: nat, steps: seq<Step>, w: nat, g: Holder, h: Holder)
    requires Valid(Init(wallets), steps)
    requires HolderInside(Exec(Init(wallets), steps), w, g) && HolderInside(Exec(Init(wallets), steps), w, h)
    ensures g == h
  {
    Reachable(wallets, steps);
  }

  // ---------- Account serialisation ----------

  /** Accepted by the channel and not answered. */
  ghost predicate Unresolved(s: State, c: nat) {
    c < |s.clients| && c in s.accepted && s.clients[c].answers == []
  }

  /** An unresolved operation of account a. */
  ghost predicate OpenOp(s: State, a: string, c: nat) {
    Unresolved(s, c) && s.clients[c].account == Some(a)
  }

  ghost predicate Serial(s: State, a: string) {
    forall c, d :: OpenOp(s, a, c) && OpenOp(s, a, d) ==> c == d
  }

  /** An unresolved operation whose client no longer waits for it. */
  ghost predicate AbandonedOp(s: State, a: string, c: nat) {
    OpenOp(s, a, c) && s.clients[c].pc == Returned(None)
  }

  ghost predicate Abandoned(s: State, a: string) { exists c :: AbandonedOp(s, a, c) }

  /** Whoever has an unresolved operation and has not abandoned it holds the account lock. */
  lemma LiveOp(s: State, a: string, c: nat)
    requires ClientInv(s) && MailInv(s) && OpenOp(s, a, c) && !AbandonedOp(s, a, c)
    ensures AccountHeld(s, a, c)
  {
  }

  lemma OneLiveOp(s: State, a: string, c: nat, d: nat)
    requires Inv(s) && OpenOp(s, a, c) && OpenOp(s, a, d) && c != d
    ensures AbandonedOp(s, a, c) || AbandonedOp(s, a, d)
  {
    if !AbandonedOp(s, a, c) && !AbandonedOp(s, a, d) {
      LiveOp(s, a, c);
      LiveOp(s, a, d);
    }
  }

  /**
   * In every run, of the unresolved operations of one account at most one belongs to a client that
   * is still waiting; the others were abandoned by cancellation.
   */
  lemma OneLiveOpPerAccount(wallets: nat, steps: seq<Step>, a: string, c: nat, d: nat)
    requires Valid(Init(wallets), steps) && c != d
    requires OpenOp(Exec(Init(wallets), steps), a, c) && OpenOp(Exec(Init(wallets), steps), a, d)
    ensures AbandonedOp(Exec(Init(wallets), steps), a, c) || AbandonedOp(Exec(Init(wallets), steps), a, d)
  {
    Reachable(wallets, steps);
    OneLiveOp(Exec(Init(wallets), steps), a, c, d);
  }

  ghost predicate NoCancel(steps: seq<Step>) { forall k :: 0 <= k < |steps| ==> !steps[k].Cancel? }

  /** A client of the account is cancelled while its operation is on its way and unanswered. */
  ghost predicate GivesUp(s: State, step: Step, a: string, c: nat) {
    step == Cancel(c) && c < |s.clients| && s.clients[c] == Client(Some(a), Awaiting, [], s.clients[c].answers)
  }

  /** Nothing else abandons an operation: not a cancellation before the channel or after the answer. */
  lemma OnlyGivingUpAbandons(s: State, step: Step, a: string, c: nat)
    requires Inv(s) && Enabled(s, step) && !AbandonedOp(s, a, c)
    ensures AbandonedOp(Apply(s, step), a, c) <==> GivesUp(s, step, a, c)
  {
    ClientsFrame(s, step);
    if c < |s.clients| && c !in s.accepted {
      NotDispatched(s, c);
    }
  }

  lemma {:induction false} NeverAbandoned(s: State, steps: seq<Step>, a: string)
    requires Inv(s) && !Abandoned(s, a) && Valid(s, steps) && NoCancel(steps)
    ensures Inv(Exec(s, steps)) && !Abandoned(Exec(s, steps), a)
    decreases |steps|
  {
    if steps == [] {
    } else {
      var t := Apply(s, steps[0]);
      InvStep(s, steps[0]);
      forall c: nat
        ensures !AbandonedOp(t, a, c)
      {
        OnlyGivingUpAbandons(s, steps[0], a, c);
      }
      NeverAbandoned(t, steps[1..], a);
    }
  }

  lemma NoneAbandonedIsSerial(s: State, a: string)
    requires Inv(s) && !Abandoned(s, a)
    ensures Serial(s, a)
  {
    forall c, d | OpenOp(s, a, c) && OpenOp(s, a, d)
      ensures c == d
    {
      if c != d {
        OneLiveOp(s, a, c, d);
      }
    }
  }

  /** Without cancellation an account has at most one unresolved operation in the whole process. */
  lemma AccountSerialised(wallets: nat, steps: seq<Step>, a: string)
    requires Valid(Init(wallets), steps) && NoCancel(steps)
    ensures Serial(Exec(Init(wallets), steps), a)
  {
    InitInv(wallets);
    NeverAbandoned(Init(wallets), steps, a);
    NoneAbandonedIsSerial(Exec(Init(wallets), steps), a);
  }

  lemma Then(s: State, steps: seq<Step>, step: Step) returns (more: seq<Step>)
    requires Valid(s, steps) && Enabled(Exec(s, steps), step)
    ensures more == steps + [step] && Valid(s, more)
    ensures Exec(s, more) == Apply(Exec(s, steps), step)
  {
    Runs.Snoc(Apply, s, steps, step);
    more := steps + [step];
  }

  /** A new client of a free account gets as far as the channel. */
  lemma OpenAccount(s: State, a: string) returns (steps: seq<Step>)
    requires a !in s.accountLocks && |s.channel| < CHANNEL_CAP
    ensures Valid(s, steps) && NoCancel(steps)
    ensures var t := Exec(s, steps);
      && t.clients == s.clients + [Client(Some(a), Awaiting, [], [])]
      && t.accepted == s.accepted + [|s.clients|]
      && t.channel == s.channel + [|s.clients|]
      && t.accountLocks == s.accountLocks[a := |s.clients|]
  {
    var c := |s.clients|;
    steps := Then(s, [], Arrive(Some(a)));
    assert Exec(s, steps).clients[c] == Client(Some(a), WantAccount, [], []);
    steps := Then(s, steps, TakeAccount(c));
    steps := Then(s, steps, Prepare(c, true));
    var t := Exec(s, steps);
    assert t.clients == s.clients + [Client(Some(a), Offering, [], [])] && t.channel == s.channel;
    steps := Then(s, steps, Offer(c));
  }

  /** A second operation of the account joins an unresolved one. */
  lemma OpenSecond(s: State, a: string, c: nat) returns (steps: seq<Step>)
    requires OpenOp(s, a, c) && a !in s.accountLocks && |s.channel| < CHANNEL_CAP
    ensures Valid(s, steps) && NoCancel(steps) && !Serial(Exec(s, steps), a)
  {
    steps := OpenAccount(s, a);
    var t := Exec(s, steps);
    assert OpenOp(t, a, c) && OpenOp(t, a, |s.clients|);
  }

  /** The operation of a client that gets into the channel is unresolved. */
  lemma OfferOpens(s: State, a: string, c: nat)
    requires QueueInv(s) && UntoldInv(s) && ClientInv(s) && AccountHeld(s, a, c) && s.clients[c].pc == Offering
    requires |s.channel| < CHANNEL_CAP
    ensures Enabled(s, Offer(c)) && OpenOp(Apply(s, Offer(c)), a, c)
  {
    NotDispatched(s, c);
    assert Apply(s, Offer(c)).accepted[|s.accepted|] == c;
  }

  lemma OfferSecond(s: State, a: string, c: nat, d: nat) returns (steps: seq<Step>)
    requires OpenOp(s, a, c) && AccountHeld(s, a, d) && s.clients[d].pc == Offering && c != d
    requires s.clients[d].answers == [] && |s.channel| < CHANNEL_CAP
    ensures Valid(s, steps) && NoCancel(steps) && !Serial(Exec(s, steps), a)
  {
    steps := Then(s, [], Offer(d));
    var t := Exec(s, steps);
    assert OpenOp(t, a, c) && OpenOp(t, a, d);
  }

  lemma PrepareSecond(s: State, a: string, c: nat, d: nat) returns (steps: seq<Step>)
    requires OpenOp(s, a, c) && AccountHeld(s, a, d) && s.clients[d].pc == Preparing && c != d
    requires s.clients[d].answers == [] && |s.channel| < CHANNEL_CAP
    ensures Valid(s, steps) && NoCancel(steps) && !Serial(Exec(s, steps), a)
  {
    var step := Prepare(d, true);
    var rest := OfferSecond(Apply(s, step), a, c, d);
    steps := Runs.Cons(Apply, s, step, rest);
  }

  /** Whatever the holder of the account is doing, a second operation can follow an abandoned one. */
  lemma BreakSerial(s: State, a: string, c: nat) returns (steps: seq<Step>)
    requires Inv(s) && AbandonedOp(s, a, c) && |s.channel| < CHANNEL_CAP
    ensures Valid(s, steps) && NoCancel(steps) && !Serial(Exec(s, steps), a)
  {
    if a !in s.accountLocks {
      steps := OpenSecond(s, a, c);
    } else {
      var d := s.accountLocks[a];
      assert AccountHeld(s, a, d);
      match s.clients[d].pc
      case Preparing =>
        NotDispatched(s, d);
        steps := PrepareSecond(s, a, c, d);
      case Offering =>
        NotDispatched(s, d);
        steps := OfferSecond(s, a, c, d);
      case Awaiting =>
        if s.clients[d].mailbox == [] {
          steps := [];
          assert OpenOp(s, a, d);
        } else {
          var rest := OpenSecond(Apply(s, Collect(d)), a, c);
          steps := Runs.Cons(Apply, s, Collect(d), rest);
        }
    }
  }

  /** Cancellation is what can break the rule: one abandoned operation and a second request suffice. */
  lemma CancelBreaksSerialisation(wallets: nat, a: string) returns (steps: seq<Step>)
    ensures Valid(Init(wallets), steps) && !Serial(Exec(Init(wallets), steps), a)
  {
    var s := Init(wallets);
    steps := OpenAccount(s, a);
    assert Exec(s, steps).clients == [Client(Some(a), Awaiting, [], [])];
    steps := Then(s, steps, Cancel(0));
    var t := Exec(s, steps);
    assert OpenOp(t, a, 0);
    var second := OpenSecond(t, a, 0);
    Runs.Compose(Apply, s, steps, second);
    steps := steps + second;
  }
}
