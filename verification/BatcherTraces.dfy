/** What the steps of a run say about its batches, its wallets and what its clients are told. */
module BatcherTraces {
  import opened Common
  import opened Batcher
  import opened BatcherSafety
  import BatcherTheorems
  import RoundRobin
  import Runs

  /** The last step of a run and what came before. */
  lemma Back(s: State, steps: seq<Step>) returns (past: seq<Step>, step: Step)
    requires steps != [] && Valid(s, steps)
    ensures steps == past + [step] && past == steps[..|steps| - 1] && step == steps[|steps| - 1]
    ensures Valid(s, past) && Enabled(Exec(s, past), step) && Exec(s, steps) == Apply(Exec(s, past), step)
  {
    past, step := steps[..|steps| - 1], steps[|steps| - 1];
    Runs.Last(Apply, s, steps);
  }

  // ---------- Batches ----------

  /** The dispatcher stops gathering only with a complete batch or when the channel is empty. */
  lemma GathersGreedily(wallets: nat, steps: seq<Step>, step: Step)
    requires Valid(Init(wallets), steps) && Enabled(Exec(Init(wallets), steps), step)
    requires Exec(Init(wallets), steps).dispatcher.Draining?
    requires !Apply(Exec(Init(wallets), steps), step).dispatcher.Draining?
    ensures var s := Exec(Init(wallets), steps);
      && (|s.dispatcher.batch| == 50 || s.channel == [])
      && Apply(s, step).dispatcher.Held() == s.dispatcher.batch
  {
    BatcherTheorems.Reachable(wallets, steps);
  }

  /** After n steps the dispatcher was gathering, had this batch, and the channel was empty. */
  ghost predicate EmptyAt(s: State, steps: seq<Step>, n: nat, batch: seq<nat>) {
    && n <= |steps| && Valid(s, steps[..n])
    && Exec(s, steps[..n]).dispatcher == Draining(batch) && Exec(s, steps[..n]).channel == []
  }

  /** At some moment of the run the channel was empty when this batch was all that had been gathered. */
  ghost predicate FoundEmpty(s: State, steps: seq<Step>, batch: seq<nat>) {
    exists n: nat :: EmptyAt(s, steps, n, batch)
  }

  lemma FoundEarlier(s: State, past: seq<Step>, step: Step, batch: seq<nat>)
    requires FoundEmpty(s, past, batch)
    ensures FoundEmpty(s, past + [step], batch)
  {
    var n: nat :| EmptyAt(s, past, n, batch);
    assert (past + [step])[..n] == past[..n];
    assert EmptyAt(s, past + [step], n, batch);
  }

  lemma FoundNow(s: State, past: seq<Step>, step: Step)
    requires Valid(s, past) && Exec(s, past).dispatcher.Draining? && Exec(s, past).channel == []
    ensures FoundEmpty(s, past + [step], Exec(s, past).dispatcher.batch)
  {
    assert (past + [step])[..|past|] == past;
    assert EmptyAt(s, past + [step], |past|, Exec(s, past).dispatcher.batch);
  }

  /** The batches that are through with gathering, short of 50. */
  ghost predicate IsShort(t: State, batch: seq<nat>) {
    && |batch| < 50
    && ((exists i :: 0 <= i < |t.flights| && t.flights[i].batch == batch) ||
        ((t.dispatcher.Choosing? || t.dispatcher.WantSlot?) && t.dispatcher.batch == batch))
  }

  /** A batch gets through with gathering only when the dispatcher stops. */
  lemma ShortStep(t: State, step: Step, batch: seq<nat>)
    requires Inv(t) && Enabled(t, step) && IsShort(Apply(t, step), batch) && !IsShort(t, batch)
    ensures t.dispatcher == Draining(batch) && t.channel == []
  {
    var u := Apply(t, step);
    FlightsStep(t, step);
    if i :| 0 <= i < |u.flights| && u.flights[i].batch == batch {
      if step.Launch? {
        LaunchShape(t);
      } else {
        FlightsFrame(t, step);
      }
    }
  }

  lemma ShortLast(s: State, past: seq<Step>, t: State, step: Step, batch: seq<nat>)
    requires Valid(s, past) && t == Exec(s, past) && Inv(t) && Enabled(t, step) && IsShort(Apply(t, step), batch)
    requires IsShort(t, batch) ==> FoundEmpty(s, past, batch)
    ensures FoundEmpty(s, past + [step], batch)
  {
    if IsShort(t, batch) {
      FoundEarlier(s, past, step, batch);
    } else {
      ShortStep(t, step, batch);
      FoundNow(s, past, step);
    }
  }

  lemma {:induction false} ShortHistory(s: State, steps: seq<Step>, batch: seq<nat>)
    requires Inv(s) && s.flights == [] && s.dispatcher.Idle? && Valid(s, steps) && IsShort(Exec(s, steps), batch)
    ensures FoundEmpty(s, steps, batch)
    decreases |steps|
  {
    if steps == [] {
    } else {
      var past, step := Back(s, steps);
      InvRun(s, past);
      if IsShort(Exec(s, past), batch) {
        ShortHistory(s, past, batch);
      }
      ShortLast(s, past, Exec(s, past), step, batch);
    }
  }

  /**
   * Order and bounds. The batches in dispatch order, then the batch being built, then the channel spell out what
   * the channel accepted, in order; every batch has 1 to 50 operations, and one with fewer than 50 was complete
   * at a moment when the channel, which takes up to 100, was empty; the flushes in flight are the semaphore
   * slots in use, at most one per wallet of the pool.
   */
  lemma BatchesInOrder(wallets: nat, steps: seq<Step>)
    requires Valid(Init(wallets), steps)
    ensures var s := Exec(Init(wallets), steps);
      && s.accepted == Dispatched(s.flights) + s.dispatcher.Held() + s.channel
      && (forall i :: 0 <= i < |s.flights| ==>
            && 1 <= |s.flights[i].batch| <= 50
            && (|s.flights[i].batch| < 50 ==> FoundEmpty(Init(wallets), steps, s.flights[i].batch)))
      && Sum(s.flights, InFlight) == s.slots <= wallets
      && |s.channel| <= 100
  {
    BatcherTheorems.Reachable(wallets, steps);
    InitInv(wallets);
    var s := Exec(Init(wallets), steps);
    forall i | 0 <= i < |s.flights| && |s.flights[i].batch| < 50
      ensures FoundEmpty(Init(wallets), steps, s.flights[i].batch)
    {
      assert IsShort(s, s.flights[i].batch);
      ShortHistory(Init(wallets), steps, s.flights[i].batch);
    }
  }

  // ---------- Wallets ----------

  /** What the cursor yielded, batch by batch. */
  ghost function Draws(steps: seq<Step>): seq<Option<int>> {
    if steps == [] then []
    else Draws(steps[..|steps| - 1]) + if steps[|steps| - 1].Choose? then [steps[|steps| - 1].counter] else []
  }

  /** The wallet for a value of the cursor: that value modulo the size of the pool; the first one if it failed. */
  ghost predicate Chosen(w: nat, counter: Option<int>, wallets: nat) {
    if wallets <= 1 || counter.None? then w == 0 else w == counter.value % wallets
  }

  /** The flushes in the order of their draws, and the draw of the batch that waits for its slot. */
  ghost predicate Follows(s: State, draws: seq<Option<int>>) {
    && |draws| == |s.flights| + One(s.dispatcher.WantSlot?)
    && (forall i :: 0 <= i < |s.flights| ==> Chosen(s.flights[i].wallet, draws[i], s.wallets))
    && (s.dispatcher.WantSlot? ==> Chosen(s.dispatcher.wallet, draws[|s.flights|], s.wallets))
  }

  lemma FollowsStep(s: State, step: Step, draws: seq<Option<int>>)
    requires Inv(s) && Follows(s, draws) && Enabled(s, step)
    ensures Follows(Apply(s, step), draws + if step.Choose? then [step.counter] else [])
  {
    var t := Apply(s, step);
    FlightsStep(s, step);
    FlightsFrame(s, step);
    if step.Launch? {
      LaunchShape(s);
    } else if step.Choose? && step.counter.Some? {
      RoundRobin.CorrectedIsEuclidean(step.counter.value, s.wallets);
    }
  }

  lemma {:induction false} WalletHistory(s: State, steps: seq<Step>)
    requires Inv(s) && s.flights == [] && s.dispatcher.Idle? && Valid(s, steps)
    ensures Follows(Exec(s, steps), Draws(steps))
    decreases |steps|
  {
    if steps == [] {
    } else {
      var past, step := Back(s, steps);
      InvRun(s, past);
      WalletHistory(s, past);
      FollowsStep(Exec(s, past), step, Draws(past));
    }
  }

  /** The k-th flush of a run uses the wallet that the k-th value of the cursor points to. */
  lemma WalletsFollowCursor(wallets: nat, steps: seq<Step>, k: nat)
    requires Valid(Init(wallets), steps) && k < |Exec(Init(wallets), steps).flights|
    ensures k < |Draws(steps)| && Exec(Init(wallets), steps).flights[k].wallet < wallets
    ensures Exec(Init(wallets), steps).flights[k].wallet ==
      if wallets <= 1 || Draws(steps)[k].None? then 0 else Draws(steps)[k].value % wallets
  {
    BatcherTheorems.Reachable(wallets, steps);
    InitInv(wallets);
    WalletHistory(Init(wallets), steps);
  }

  /** The wallets of the flushes, in dispatch order. */
  ghost function WalletsOf(flights: seq<Flight>): seq<nat> {
    seq(|flights|, i requires 0 <= i < |flights| => flights[i].wallet)
  }

  /**
   * Load is spread evenly: while the cursor counts up from `first` without a failure, each of the pool's wallets
   * has its share of the batches of a run, rounded down or up.
   */
  lemma BatchesSpread(wallets: nat, steps: seq<Step>, first: int, w: nat)
    requires Valid(Init(wallets), steps) && w < wallets
    requires forall k :: 0 <= k < |Draws(steps)| ==> Draws(steps)[k] == Some(first + k)
    ensures var flights := Exec(Init(wallets), steps).flights;
      |flights| / wallets <= RoundRobin.Hits(WalletsOf(flights), w) <= |flights| / wallets + 1
  {
    var flights := Exec(Init(wallets), steps).flights;
    forall k | 0 <= k < |flights|
      ensures flights[k].wallet == RoundRobin.Cycle(first, |flights|, wallets)[k]
    {
      WalletsFollowCursor(wallets, steps, k);
      if wallets == 1 {
        assert (first + k) % 1 == 0;
      }
    }
    assert WalletsOf(flights) == RoundRobin.Cycle(first, |flights|, wallets);
    RoundRobin.FairShare(first, |flights|, wallets, w);
  }

  // ---------- Clients ----------

  /** The client returned empty-handed because it gave up or could not prepare its operation. */
  ghost predicate WentAway(steps: seq<Step>, c: nat) { Cancel(c) in steps || Prepare(c, false) in steps }

  lemma AwayStep(s: State, step: Step, c: nat)
    requires Inv(s) && Enabled(s, step) && c < |s.clients|
    ensures Apply(s, step).clients[c].pc == Returned(None) <==>
      s.clients[c].pc == Returned(None) || step == Cancel(c) || step == Prepare(c, false)
  {
    ClientsFrame(s, step);
  }

  lemma AwayLast(t: State, past: seq<Step>, step: Step, c: nat)
    requires Inv(t) && Enabled(t, step) && c < |Apply(t, step).clients|
    requires if c < |t.clients| then t.clients[c].pc == Returned(None) <==> WentAway(past, c) else !WentAway(past, c)
    ensures Apply(t, step).clients[c].pc == Returned(None) <==> WentAway(past + [step], c)
  {
    assert forall x :: x in past + [step] <==> x in past || x == step;
    ClientsFrame(t, step);
    if c < |t.clients| {
      AwayStep(t, step, c);
    }
  }

  lemma {:induction false} AwayHistory(s: State, steps: seq<Step>, c: nat)
    requires Inv(s) && s.clients == [] && Valid(s, steps) && c < |Exec(s, steps).clients|
    ensures Exec(s, steps).clients[c].pc == Returned(None) <==> WentAway(steps, c)
    decreases |steps|
  {
    if steps == [] {
    } else {
      var past, step := Back(s, steps);
      InvRun(s, past);
      if c < |Exec(s, past).clients| {
        AwayHistory(s, past, c);
      } else {
        NotThereYet(s, past, c);
      }
      AwayLast(Exec(s, past), past, step, c);
    }
  }

  lemma {:induction false} NotThereYet(s: State, steps: seq<Step>, c: nat)
    requires Valid(s, steps) && |Exec(s, steps).clients| <= c
    ensures !WentAway(steps, c)
    decreases |steps|
  {
    if steps == [] {
    } else {
      var past, step := Back(s, steps);
      ClientsFrame(Exec(s, past), step);
      NotThereYet(s, past, c);
      NotByOther(Exec(s, past), past, step, c);
    }
  }

  lemma NotByOther(t: State, past: seq<Step>, step: Step, c: nat)
    requires Enabled(t, step) && |t.clients| <= c && !WentAway(past, c)
    ensures !WentAway(past + [step], c)
  {
    assert forall x :: x in past + [step] <==> x in past || x == step;
  }

  /**
   * What a caller gets: the very answer that flush sent for its operation, hash and error; or nothing, and that
   * exactly if it was cancelled or failed before the channel.
   */
  lemma CallersGetTheirAnswer(wallets: nat, steps: seq<Step>, c: nat)
    requires Valid(Init(wallets), steps) && c < |Exec(Init(wallets), steps).clients|
    requires Exec(Init(wallets), steps).clients[c].pc.Returned?
    ensures var me := Exec(Init(wallets), steps).clients[c];
      match me.pc.result
      case Some(o) => me.answers == [o] && !WentAway(steps, c)
      case None => WentAway(steps, c)
  {
    BatcherTheorems.Reachable(wallets, steps);
    InitInv(wallets);
    AwayHistory(Init(wallets), steps, c);
    assert MailInv(Exec(Init(wallets), steps));
  }

  /** A client that has returned stays so, and whether the channel ever gets its operation is decided. */
  lemma {:induction false} GoneIsGone(s: State, later: seq<Step>, c: nat)
    requires c < |s.clients| && s.clients[c].pc.Returned? && Valid(s, later)
    ensures var t := Exec(s, later);
      c < |t.clients| && t.clients[c].pc == s.clients[c].pc && (c in t.accepted <==> c in s.accepted)
    decreases |later|
  {
    if later == [] {
    } else {
      ClientsFrame(s, later[0]);
      GoneIsGone(Apply(s, later[0]), later[1..], c);
    }
  }

  /** How a client goes away from where it is. */
  function Away(s: State, c: nat): Step
    requires c < |s.clients|
  {
    if s.clients[c].pc.Preparing? then Prepare(c, false) else Cancel(c)
  }

  /**
   * A caller may go away at any time in which it waits: while it prepares its operation, before the channel takes
   * it, and before the answer. That gives back its account, changes nothing else, and decides the fate of its
   * operation: if the channel does not have it yet, then no continuation will ever submit it.
   */
  lemma CallersMayGoAway(wallets: nat, past: seq<Step>, c: nat)
    requires Valid(Init(wallets), past) && c < |Exec(Init(wallets), past).clients|
    requires var pc := Exec(Init(wallets), past).clients[c].pc; pc.Preparing? || pc.Offering? || pc.Awaiting?
    ensures var s := Exec(Init(wallets), past);
      var me := s.clients[c];
      && Enabled(s, Away(s, c))
      && var t := Apply(s, Away(s, c));
         && t == s.(clients := s.clients[c := me.(pc := Returned(None))],
                    accountLocks := if me.account.Some? then s.accountLocks - {me.account.value} else s.accountLocks)
         && (me.account.Some? ==> me.account.value in s.accountLocks)
         && forall later :: Valid(t, later) ==> (c in Exec(t, later).accepted <==> me.pc.Awaiting?)
  {
    BatcherTheorems.Reachable(wallets, past);
    var s := Exec(Init(wallets), past);
    var me, t := s.clients[c], Apply(s, Away(s, c));
    assert ClientInv(s);
    if me.account.Some? {
      assert AccountHeld(s, me.account.value, c);
    }
    forall later | Valid(t, later)
      ensures c in Exec(t, later).accepted <==> me.pc.Awaiting?
    {
      GoneIsGone(t, later, c);
    }
  }
}
