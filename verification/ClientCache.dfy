/**
 * The per-chain client cache (internal/platform/ethclient/ethclient.go) under racing calls. The two
 * sections of Client that hold the mutex, the dial between them, and Close are separate steps.
 */
module ClientCache {
  import opened Common
  import Runs

  /** Clients are numbered in the order in which they were dialled. */
  datatype CallPc =
    | Looking             // before the first locked section
    | Dialing             // missed; no lock held
    | Holding(c: nat)     // dialled a client of its own, before the second locked section
    | Returned(c: nat)
    | Failed

  datatype Call = Call(chain: int, pc: CallPc)

  /** A call handed a client to its caller. */
  datatype Return = Return(epoch: nat, chain: int, client: nat)

  datatype State = State(
    clients: map<int, nat>,      // the cache
    calls: seq<Call>,
    dialled: nat,                // how many clients were dialled
    discarded: set<nat>,         // closed by a call that lost the race
    shut: set<nat>,              // closed by Close
    epoch: nat,                  // how many times Close ran
    given: seq<Return>
  )

  datatype Step = Begin(chain: int) | Look(i: nat) | Dial(i: nat, ok: bool) | Commit(i: nat) | Close

  predicate Enabled(s: State, step: Step) {
    match step
    case Begin(_) => true
    case Close => true
    case Look(i) => i < |s.calls| && s.calls[i].pc == Looking
    case Dial(i, _) => i < |s.calls| && s.calls[i].pc == Dialing
    case Commit(i) => i < |s.calls| && s.calls[i].pc.Holding?
  }

  function Give(s: State, i: nat, c: nat): State
    requires i < |s.calls|
  {
    s.(calls := s.calls[i := s.calls[i].(pc := Returned(c))],
       given := s.given + [Return(s.epoch, s.calls[i].chain, c)])
  }

  function Apply(s: State, step: Step): State
    requires Enabled(s, step)
  {
    match step
    case Begin(chain) => s.(calls := s.calls + [Call(chain, Looking)])
    case Look(i) =>
      var chain := s.calls[i].chain;
      if chain in s.clients then Give(s, i, s.clients[chain])
      else s.(calls := s.calls[i := s.calls[i].(pc := Dialing)])
    case Dial(i, ok) =>
      if ok then s.(calls := s.calls[i := s.calls[i].(pc := Holding(s.dialled))], dialled := s.dialled + 1)
      else s.(calls := s.calls[i := s.calls[i].(pc := Failed)])
    case Commit(i) =>
      var chain, mine := s.calls[i].chain, s.calls[i].pc.c;
      if chain in s.clients then Give(s, i, s.clients[chain]).(discarded := s.discarded + {mine})
      else Give(s, i, mine).(clients := s.clients[chain := mine])
    case Close =>
      s.(shut := s.shut + (set chain | chain in s.clients :: s.clients[chain]), clients := map[], epoch := s.epoch + 1)
  }

  function Init(): State { State(map[], [], 0, {}, {}, 0, []) }

  ghost predicate Valid(steps: seq<Step>) { Runs.Valid(Apply, Init(), steps) }

  ghost function Exec(steps: seq<Step>): State
    requires Valid(steps)
  {
    Runs.Exec(Apply, Init(), steps)
  }

  ghost predicate InHand(s: State, c: nat) {
    exists i :: 0 <= i < |s.calls| && s.calls[i].pc == Holding(c)
  }

  ghost predicate Cached(s: State, c: nat) {
    exists chain :: chain in s.clients && s.clients[chain] == c
  }

  /** Every dialled client is in exactly one place, and no other number is in any. */
  ghost predicate OnePlace(s: State, c: nat) {
    One(InHand(s, c)) + One(Cached(s, c)) + One(c in s.discarded) + One(c in s.shut) == One(c < s.dialled)
  }

  ghost predicate PlaceInv(s: State) {
    && (forall c: nat :: OnePlace(s, c))
    && (forall i, j :: 0 <= i < j < |s.calls| && s.calls[i].pc.Holding? ==> s.calls[i].pc != s.calls[j].pc)
    && (forall a, b :: a in s.clients && b in s.clients && a != b ==> s.clients[a] != s.clients[b])
  }

  ghost predicate ReturnInv(s: State) {
    && (forall k :: 0 <= k < |s.given| ==>
          && s.given[k].epoch <= s.epoch
          && (Cached(s, s.given[k].client) || s.given[k].client in s.shut)
          && (s.given[k].epoch == s.epoch ==>
                s.given[k].chain in s.clients && s.clients[s.given[k].chain] == s.given[k].client))
    && (forall j, k :: 0 <= j < k < |s.given| && s.given[j].epoch == s.given[k].epoch
                       && s.given[j].chain == s.given[k].chain ==>
          s.given[j].client == s.given[k].client)
  }

  ghost predicate Inv(s: State) { PlaceInv(s) && ReturnInv(s) }

  lemma HoldingsMove(s: State, i: nat, pc: CallPc, c: nat)
    requires i < |s.calls|
    requires forall j, k :: 0 <= j < k < |s.calls| && s.calls[j].pc.Holding? ==> s.calls[j].pc != s.calls[k].pc
    ensures var t := s.(calls := s.calls[i := s.calls[i].(pc := pc)]);
      InHand(t, c) <==> pc == Holding(c) || (InHand(s, c) && s.calls[i].pc != Holding(c))
  {
    var t := s.(calls := s.calls[i := s.calls[i].(pc := pc)]);
    assert t.calls[i].pc == pc;
    if InHand(s, c) {
      var j :| 0 <= j < |s.calls| && s.calls[j].pc == Holding(c);
      assert j != i ==> t.calls[j].pc == Holding(c);
    }
  }

  lemma CommitPlaces(s: State, i: nat, c: nat)
    requires PlaceInv(s) && Enabled(s, Commit(i))
    ensures OnePlace(Apply(s, Commit(i)), c)
  {
    var t := Apply(s, Commit(i));
    var chain, mine := s.calls[i].chain, s.calls[i].pc.c;
    assert InHand(s, mine) && OnePlace(s, mine) && OnePlace(s, c);
    if chain in s.clients {
      HoldingsMove(s, i, Returned(s.clients[chain]), c);
    } else {
      HoldingsMove(s, i, Returned(mine), c);
      assert t.clients[chain] == mine;
      assert Cached(t, mine);
      if c != mine && Cached(s, c) {
        var a :| a in s.clients && s.clients[a] == c;
        assert a in t.clients && t.clients[a] == c;
      }
    }
    assert InHand(t, c) <==> InHand(s, c) && c != mine;
  }

  lemma PlacesStep(s: State, step: Step, c: nat)
    requires PlaceInv(s) && Enabled(s, step)
    ensures OnePlace(Apply(s, step), c)
  {
    assert OnePlace(s, c);
    match step
    case Begin(chain) => BeginHoldings(s, chain, c);
    case Look(i) => HoldingsMove(s, i, Apply(s, step).calls[i].pc, c);
    case Dial(i, ok) =>
      assert OnePlace(s, s.dialled);
      HoldingsMove(s, i, Apply(s, step).calls[i].pc, c);
    case Commit(i) => CommitPlaces(s, i, c);
    case Close => ClosePlaces(s, c);
  }

  lemma PlaceStep(s: State, step: Step)
    requires PlaceInv(s) && Enabled(s, step)
    ensures PlaceInv(Apply(s, step))
  {
    forall c: nat
      ensures OnePlace(Apply(s, step), c)
    {
      PlacesStep(s, step, c);
    }
    match step
    case Dial(i, ok) => DialDistinct(s, i, ok);
    case Commit(i) => CommitDistinct(s, i);
    case _ =>
  }

  lemma ClosePlaces(s: State, c: nat)
    requires PlaceInv(s)
    ensures OnePlace(Apply(s, Close), c)
  {
    assert OnePlace(s, c);
    assert Cached(s, c) <==> c in (set chain | chain in s.clients :: s.clients[chain]);
    assert InHand(Apply(s, Close), c) <==> InHand(s, c);
  }

  lemma BeginHoldings(s: State, chain: int, c: nat)
    ensures InHand(Apply(s, Begin(chain)), c) <==> InHand(s, c)
  {
    var t := Apply(s, Begin(chain));
    if InHand(s, c) {
      var i :| 0 <= i < |s.calls| && s.calls[i].pc == Holding(c);
      assert t.calls[i].pc == Holding(c);
    }
    if InHand(t, c) {
      var i :| 0 <= i < |t.calls| && t.calls[i].pc == Holding(c);
      assert s.calls[i].pc == Holding(c);
    }
  }

  /** A new number is in no other hand. */
  lemma DialDistinct(s: State, i: nat, ok: bool)
    requires PlaceInv(s) && Enabled(s, Dial(i, ok))
    ensures var t := Apply(s, Dial(i, ok));
      forall j, k :: 0 <= j < k < |t.calls| && t.calls[j].pc.Holding? ==> t.calls[j].pc != t.calls[k].pc
  {
    assert OnePlace(s, s.dialled);
    assert forall j :: 0 <= j < |s.calls| ==> s.calls[j].pc != Holding(s.dialled);
  }

  lemma CommitDistinct(s: State, i: nat)
    requires PlaceInv(s) && Enabled(s, Commit(i))
    ensures var t := Apply(s, Commit(i));
      forall a, b :: a in t.clients && b in t.clients && a != b ==> t.clients[a] != t.clients[b]
  {
    var mine := s.calls[i].pc.c;
    assert InHand(s, mine) && OnePlace(s, mine);
    assert forall a :: a in s.clients ==> s.clients[a] != mine by {
      assert !Cached(s, mine);
    }
  }

  lemma ReturnStep(s: State, step: Step)
    requires Inv(s) && Enabled(s, step)
    ensures ReturnInv(Apply(s, step))
  {
    var t := Apply(s, step);
    forall c: nat | Cached(s, c)
      ensures Cached(t, c) || c in t.shut
    {
      var a :| a in s.clients && s.clients[a] == c;
      assert step.Close? || (a in t.clients && t.clients[a] == c);
    }
    if |t.given| > |s.given| {
      var r := t.given[|s.given|];
      assert r.chain in t.clients && t.clients[r.chain] == r.client;
      assert Cached(t, r.client);
      assert forall k :: 0 <= k < |s.given| ==> t.given[k] == s.given[k];
    } else {
      assert t.given == s.given;
    }
  }

  lemma {:induction false} InvRun(s: State, steps: seq<Step>)
    requires Inv(s) && Runs.Valid(Apply, s, steps)
    ensures Inv(Runs.Exec(Apply, s, steps))
    decreases |steps|
  {
    if steps == [] {
    } else {
      PlaceStep(s, steps[0]);
      ReturnStep(s, steps[0]);
      InvRun(Apply(s, steps[0]), steps[1..]);
    }
  }

  lemma Reachable(steps: seq<Step>)
    requires Valid(steps)
    ensures Inv(Exec(steps))
  {
    forall c: nat
      ensures OnePlace(Init(), c)
    {
    }
    InvRun(Init(), steps);
  }

  /**
   * No leak and no double close: on every interleaving of Client and Close each dialled client is in
   * exactly one of a call's hand, the cache, closed by a losing call, or closed by Close.
   */
  lemma NoClientLost(steps: seq<Step>, c: nat)
    requires Valid(steps)
    ensures var s := Exec(steps);
      One(InHand(s, c)) + One(Cached(s, c)) + One(c in s.discarded) + One(c in s.shut) == One(c < s.dialled)
  {
    Reachable(steps);
    assert OnePlace(Exec(steps), c);
  }

  /**
   * A client that a losing call closed was never handed to anyone; one that was handed out is cached or
   * was closed by Close.
   */
  lemma LosersAreNeverReturned(steps: seq<Step>, k: nat)
    requires Valid(steps) && k < |Exec(steps).given|
    ensures var s := Exec(steps);
      var c := s.given[k].client;
      c !in s.discarded && !InHand(s, c) && (Cached(s, c) || c in s.shut)
  {
    Reachable(steps);
    assert OnePlace(Exec(steps), Exec(steps).given[k].client);
  }

  /** Between two runs of Close all callers for a chain get the same client. */
  lemma OneClientPerChain(steps: seq<Step>, j: nat, k: nat)
    requires Valid(steps) && j < |Exec(steps).given| && k < |Exec(steps).given|
    requires Exec(steps).given[j].epoch == Exec(steps).given[k].epoch
    requires Exec(steps).given[j].chain == Exec(steps).given[k].chain
    ensures Exec(steps).given[j].client == Exec(steps).given[k].client
  {
    Reachable(steps);
  }

  // ---------- What the cache saves ----------

  /** Calls from the n-th on that want this chain have not looked yet or got the cached client. */
  ghost predicate Served(s: State, chain: int, n: nat) {
    && chain in s.clients
    && forall i :: n <= i < |s.calls| && s.calls[i].chain == chain ==>
         s.calls[i].pc == Looking || s.calls[i].pc == Returned(s.clients[chain])
  }

  lemma ServedStep(s: State, step: Step, chain: int, n: nat)
    requires Served(s, chain, n) && n <= |s.calls| && Enabled(s, step) && !step.Close?
    ensures Served(Apply(s, step), chain, n) && Apply(s, step).clients[chain] == s.clients[chain]
    ensures n <= |Apply(s, step).calls|
  {
  }

  lemma {:induction false} ServedRun(s: State, steps: seq<Step>, chain: int, n: nat)
    requires Served(s, chain, n) && n <= |s.calls| && Runs.Valid(Apply, s, steps) && Close !in steps
    ensures Served(Runs.Exec(Apply, s, steps), chain, n)
    ensures Runs.Exec(Apply, s, steps).clients[chain] == s.clients[chain]
    decreases |steps|
  {
    if steps == [] {
    } else {
      ServedStep(s, steps[0], chain, n);
      ServedRun(Apply(s, steps[0]), steps[1..], chain, n);
    }
  }

  /**
   * While a chain has a client in the cache, no call that begins then dials or fails: it is still to look, or
   * it has returned the cached client.
   */
  lemma WarmCacheNeverDials(past: seq<Step>, steps: seq<Step>, chain: int, i: nat)
    requires Valid(past) && chain in Exec(past).clients
    requires Runs.Valid(Apply, Exec(past), steps) && Close !in steps
    requires |Exec(past).calls| <= i < |Runs.Exec(Apply, Exec(past), steps).calls|
    requires Runs.Exec(Apply, Exec(past), steps).calls[i].chain == chain
    ensures var pc := Runs.Exec(Apply, Exec(past), steps).calls[i].pc;
      pc == Looking || pc == Returned(Exec(past).clients[chain])
  {
    ServedRun(Exec(past), steps, chain, |Exec(past).calls|);
  }

  /** How often a client was dialled. */
  ghost function Dials(steps: seq<Step>): nat {
    if steps == [] then 0
    else Dials(steps[..|steps| - 1]) + One(steps[|steps| - 1].Dial? && steps[|steps| - 1].ok)
  }

  lemma FailedStep(s: State, step: Step, i: nat)
    requires Enabled(s, step) && i < |Apply(s, step).calls|
    ensures Apply(s, step).calls[i].pc == Failed <==>
      step == Dial(i, false) || (i < |s.calls| && s.calls[i].pc == Failed)
  {
  }

  lemma {:induction false} FailHistory(steps: seq<Step>, i: nat)
    requires Valid(steps)
    ensures if i < |Exec(steps).calls| then Exec(steps).calls[i].pc == Failed <==> Dial(i, false) in steps
            else Dial(i, false) !in steps
    decreases |steps|
  {
    if steps == [] {
    } else {
      var past, step := steps[..|steps| - 1], steps[|steps| - 1];
      Runs.Last(Apply, Init(), steps);
      FailHistory(past, i);
      assert steps == past + [step];
      assert Dial(i, false) in steps <==> Dial(i, false) in past || step == Dial(i, false);
      assert |Exec(past).calls| <= |Apply(Exec(past), step).calls|;
      if i < |Exec(steps).calls| {
        FailedStep(Exec(past), step, i);
      }
    }
  }

  lemma {:induction false} DialHistory(steps: seq<Step>)
    requires Valid(steps)
    ensures Exec(steps).dialled == Dials(steps)
    decreases |steps|
  {
    if steps == [] {
    } else {
      Runs.Last(Apply, Init(), steps);
      DialHistory(steps[..|steps| - 1]);
    }
  }

  /** A call fails exactly if its own dial failed, and clients come from successful dials only. */
  lemma FailsIffDialFailed(steps: seq<Step>, i: nat)
    requires Valid(steps) && i < |Exec(steps).calls|
    ensures Exec(steps).calls[i].pc == Failed <==> Dial(i, false) in steps
    ensures Exec(steps).dialled == Dials(steps)
  {
    FailHistory(steps, i);
    DialHistory(steps);
  }
}
