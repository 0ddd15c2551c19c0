/**
 * What becomes of a call of WithNonceLock, told by the steps it took: when it reports success and under which
 * hash, how it can end, and that its release lets the next one in.
 */
module LockTraces {
  import opened Common
  import opened NonceLock
  import Runs

  // ---------- What session i did in a run ----------

  /** It sent its transaction, and the node reported no error. */
  ghost predicate SentWell(steps: seq<Step>, i: nat, hash: string) { Send(i, true, false, hash) in steps }

  /** It sent its transaction, whatever came of it. */
  ghost predicate DidSend(steps: seq<Step>, i: nat) {
    exists k :: 0 <= k < |steps| && steps[k].Send? && steps[k].i == i
  }

  /** fn ran. */
  ghost predicate WasInside(steps: seq<Step>, i: nat) { Return(i) in steps || DidSend(steps, i) }

  ghost predicate Waited(steps: seq<Step>, i: nat) { WaitOver(i, true) in steps || WaitOver(i, false) in steps }

  ghost predicate GaveUp(steps: seq<Step>, i: nat) { GiveUp(i, true) in steps || GiveUp(i, false) in steps }

  ghost predicate Released(steps: seq<Step>, i: nat) { Release(i, true) in steps || Release(i, false) in steps }

  /** How often it ran SET NX. */
  ghost function Polls(steps: seq<Step>, i: nat): nat {
    if steps == [] then 0 else Polls(steps[..|steps| - 1], i) + One(steps[|steps| - 1] == SetNX(i))
  }

  /** The last step of a run and what came before. */
  lemma Back(s: State, steps: seq<Step>) returns (past: seq<Step>, step: Step)
    requires steps != [] && Valid(s, steps)
    ensures steps == past + [step] && Valid(s, past) && Enabled(Exec(s, past), step)
    ensures Exec(s, steps) == Apply(Exec(s, past), step)
  {
    past, step := steps[..|steps| - 1], steps[|steps| - 1];
    Runs.Last(Apply, s, steps);
  }

  // ---------- Success and what is reported ----------

  /** The step makes session j a success: fn returns nil. */
  ghost predicate Rewards(step: Step, j: nat, kind: Kind) {
    step == WaitOver(j, true) || (kind == Direct && step.Send? && step.i == j && !step.error)
  }

  lemma OkStep(s: State, step: Step, j: nat)
    requires Enabled(s, step) && j < |Apply(s, step).sessions|
    ensures var me := Apply(s, step).sessions[j];
      me.ok <==> (j < |s.sessions| && s.sessions[j].ok) || Rewards(step, j, me.kind)
  {
    OnlyActorMoves(s, step);
  }

  ghost predicate WasRewarded(steps: seq<Step>, j: nat, kind: Kind) {
    exists k :: 0 <= k < |steps| && Rewards(steps[k], j, kind)
  }

  /** Nothing is done by a session that is not there. */
  ghost predicate Known(steps: seq<Step>, sessions: nat) {
    forall x :: x in steps && !x.Start? && !x.Expire? ==> x.i < sessions
  }

  lemma {:induction false} ActorsExist(s: State, steps: seq<Step>)
    requires s.sessions == [] && Valid(s, steps)
    ensures Known(steps, |Exec(s, steps).sessions|)
    decreases |steps|
  {
    if steps == [] {
    } else {
      var past, step := Back(s, steps);
      ActorsExist(s, past);
      KnownStep(Exec(s, past), past, step);
    }
  }

  lemma KnownStep(s: State, past: seq<Step>, step: Step)
    requires Known(past, |s.sessions|) && Enabled(s, step)
    ensures Known(past + [step], |Apply(s, step).sessions|)
  {
    OnlyActorMoves(s, step);
  }

  lemma RewardStep(s: State, past: seq<Step>, step: Step, j: nat)
    requires Enabled(s, step) && Known(past, |s.sessions|) && j < |Apply(s, step).sessions|
    requires j < |s.sessions| ==> (s.sessions[j].ok <==> WasRewarded(past, j, s.sessions[j].kind))
    ensures var me := Apply(s, step).sessions[j]; me.ok <==> WasRewarded(past + [step], j, me.kind)
  {
    var steps, kind := past + [step], Apply(s, step).sessions[j].kind;
    OkStep(s, step, j);
    OnlyActorMoves(s, step);
    if k :| 0 <= k < |past| && Rewards(past[k], j, kind) {
      assert past[k] in past && steps[k] == past[k];
    }
    if Rewards(step, j, kind) {
      assert steps[|past|] == step;
    }
  }

  lemma {:induction false} OkHistory(s: State, steps: seq<Step>, j: nat)
    requires s.sessions == [] && Valid(s, steps) && j < |Exec(s, steps).sessions|
    ensures Exec(s, steps).sessions[j].ok <==> WasRewarded(steps, j, Exec(s, steps).sessions[j].kind)
    decreases |steps|
  {
    if steps == [] {
    } else {
      var past, step := Back(s, steps);
      ActorsExist(s, past);
      if j < |Exec(s, past).sessions| {
        OkHistory(s, past, j);
      }
      RewardStep(Exec(s, past), past, step, j);
    }
  }

  /** It has sent, and reports this. */
  ghost predicate Reports(me: Session, steps: seq<Step>, i: nat) {
    && (forall hash :: SentWell(steps, i, hash) ==> me.hash == hash)
    && (me.hash != "" ==> SentWell(steps, i, me.hash))
    && (DidSend(steps, i) ==> !me.pc.Unsent())
  }

  /** What it did is what it had done before and what it does in the last step. */
  lemma LastDeed(past: seq<Step>, step: Step, i: nat)
    ensures DidSend(past + [step], i) <==> DidSend(past, i) || (step.Send? && step.i == i)
    ensures forall x :: x in past + [step] <==> x in past || x == step
  {
    var steps := past + [step];
    if DidSend(steps, i) && !(step.Send? && step.i == i) {
      var k :| 0 <= k < |steps| && steps[k].Send? && steps[k].i == i;
      assert past[k] == steps[k];
    }
    if DidSend(past, i) {
      var k :| 0 <= k < |past| && past[k].Send? && past[k].i == i;
      assert steps[k] == past[k];
    }
    if step.Send? && step.i == i {
      assert steps[|past|] == step;
    }
  }

  lemma SentWellSends(steps: seq<Step>, i: nat, hash: string)
    requires SentWell(steps, i, hash)
    ensures DidSend(steps, i)
  {
    var k :| 0 <= k < |steps| && steps[k] == Send(i, true, false, hash);
  }

  lemma ReportStep(s: State, past: seq<Step>, step: Step, i: nat)
    requires Enabled(s, step) && s.Is(i) && Reports(s.sessions[i], past, i)
    ensures Reports(Apply(s, step).sessions[i], past + [step], i)
  {
    OnlyActorMoves(s, step);
    LastDeed(past, step, i);
    var me := Apply(s, step).sessions[i];
    if step.Send? && step.i == i && !step.error {
      assert step == Send(i, true, false, me.hash);
    }
    forall hash | SentWell(past + [step], i, hash)
      ensures me.hash == hash
    {
      if SentWell(past, i, hash) {
        SentWellSends(past, i, hash);
      }
    }
  }

  /** A new session has nothing to report. */
  lemma NewReports(s: State, past: seq<Step>, step: Step, i: nat)
    requires Enabled(s, step) && Known(past, |s.sessions|) && |s.sessions| <= i < |Apply(s, step).sessions|
    ensures Reports(Apply(s, step).sessions[i], past + [step], i)
  {
    OnlyActorMoves(s, step);
    LastDeed(past, step, i);
    NobodySent(past, |s.sessions|, i);
  }

  lemma {:induction false} ReportHistory(s: State, steps: seq<Step>, i: nat)
    requires s.sessions == [] && Valid(s, steps) && i < |Exec(s, steps).sessions|
    ensures Reports(Exec(s, steps).sessions[i], steps, i)
    decreases |steps|
  {
    if steps == [] {
    } else {
      var past, step := Back(s, steps);
      if i < |Exec(s, past).sessions| {
        ReportHistory(s, past, i);
        ReportStep(Exec(s, past), past, step, i);
      } else {
        ActorsExist(s, past);
        NewReports(Exec(s, past), past, step, i);
      }
    }
  }

  /**
   * A call reports success exactly if its own transaction was sent without an error, for a direct sender, or was
   * seen mined, for the others; and it reports the hash of the transaction it sent without an error, or none.
   */
  lemma SuccessIff(distributed: bool, base: map<Wallet, nat>, steps: seq<Step>, i: nat)
    requires Valid(Init(distributed, base), steps) && i < |Exec(Init(distributed, base), steps).sessions|
    ensures var me := Exec(Init(distributed, base), steps).sessions[i];
      && (me.ok <==> WaitOver(i, true) in steps || (me.kind == Direct && exists hash :: SentWell(steps, i, hash)))
      && (forall hash :: SentWell(steps, i, hash) ==> me.hash == hash)
      && (me.hash != "" ==> SentWell(steps, i, me.hash))
  {
    var s := Init(distributed, base);
    OkHistory(s, steps, i);
    ReportHistory(s, steps, i);
    SendsEnabled(s, steps);
    var kind := Exec(s, steps).sessions[i].kind;
    if WasRewarded(steps, i, kind) {
      var k :| 0 <= k < |steps| && Rewards(steps[k], i, kind);
      assert steps[k] in steps;
      if steps[k].Send? {
        assert steps[k] == Send(i, true, false, steps[k].hash);
        assert SentWell(steps, i, steps[k].hash);
      }
    }
    if hash :| kind == Direct && SentWell(steps, i, hash) {
      Rewarded(steps, Send(i, true, false, hash), i, kind);
    }
    if WaitOver(i, true) in steps {
      Rewarded(steps, WaitOver(i, true), i, kind);
    }
  }

  lemma Rewarded(steps: seq<Step>, step: Step, i: nat, kind: Kind)
    requires step in steps && Rewards(step, i, kind)
    ensures WasRewarded(steps, i, kind)
  {
    var k :| 0 <= k < |steps| && steps[k] == step;
    assert Rewards(steps[k], i, kind);
  }

  /** A call without an error was an acceptance. */
  lemma {:induction false} SendsEnabled(s: State, steps: seq<Step>)
    requires Valid(s, steps)
    ensures forall k :: 0 <= k < |steps| && steps[k].Send? && !steps[k].error ==> steps[k].accepts
    decreases |steps|
  {
    if steps == [] {
    } else {
      SendsEnabled(Apply(s, steps[0]), steps[1..]);
    }
  }

  // ---------- How a call ends ----------

  /** It sent without an error and has to wait for its transaction to be mined. */
  ghost predicate MustWait(steps: seq<Step>, i: nat, kind: Kind) {
    kind != Direct && exists hash :: SentWell(steps, i, hash)
  }

  /** Everything session i did that matters for its end. */
  datatype Deeds = Deeds(noToken: bool, polls: nat, gaveUp: bool, returned: bool, sent: bool, mustWait: bool,
                         waited: bool, released: bool)
  {
    ghost predicate Inside() { returned || sent }

    ghost predicate Undecided() { !noToken && !gaveUp && !Inside() && !mustWait && !waited && !released }

    /** fn returned before sending or sent once; it waited exactly if it had to. */
    ghost predicate FnRan() { returned != sent && (waited <==> mustWait) }

    /** With Redis: no token, given up, ten looks in vain, or fn ran and the release followed; without: fn ran. */
    ghost predicate Ended(distributed: bool) {
      && (if distributed
          then One(noToken) + One(gaveUp) + One(polls == 10 && !Inside()) + One(released) == 1 && polls <= 10
          else Inside() && !noToken && !gaveUp && !released && polls == 0)
      && (if Inside() then FnRan() && released == distributed else !waited && !released)
    }
  }

  ghost function DeedsOf(steps: seq<Step>, i: nat, kind: Kind): Deeds {
    Deeds(Draw(i, None) in steps, Polls(steps, i), GaveUp(steps, i), Return(i) in steps, DidSend(steps, i),
          MustWait(steps, i, kind), Waited(steps, i), Released(steps, i))
  }

  /** One step more. */
  ghost function Note(d: Deeds, step: Step, i: nat, kind: Kind): Deeds {
    if step.Start? || step.Expire? || step.i != i then d
    else match step
      case Draw(_, t) => d.(noToken := d.noToken || t == None)
      case SetNX(_) => d.(polls := d.polls + 1)
      case GiveUp(_, _) => d.(gaveUp := true)
      case Return(_) => d.(returned := true)
      case Send(_, _, error, _) => d.(sent := true, mustWait := d.mustWait || (!error && kind != Direct))
      case WaitOver(_, _) => d.(waited := true)
      case Release(_, _) => d.(released := true)
      case _ => d
  }

  lemma LastWait(past: seq<Step>, step: Step, i: nat, kind: Kind)
    requires step.Send? && !step.error ==> step.accepts
    ensures MustWait(past + [step], i, kind) <==>
      MustWait(past, i, kind) || (step.Send? && step.i == i && !step.error && kind != Direct)
    ensures Polls(past + [step], i) == Polls(past, i) + One(step == SetNX(i))
  {
    var steps := past + [step];
    assert steps[..|past|] == past;
    if step.Send? && step.i == i && !step.error {
      assert SentWell(steps, i, step.hash);
    }
    assert forall hash :: SentWell(past, i, hash) ==> SentWell(steps, i, hash);
    assert forall hash :: SentWell(steps, i, hash) ==> SentWell(past, i, hash) || step == Send(i, true, false, hash);
  }

  lemma LastFlags(past: seq<Step>, step: Step, i: nat)
    ensures var steps := past + [step];
      && (Draw(i, None) in steps <==> Draw(i, None) in past || step == Draw(i, None))
      && (Return(i) in steps <==> Return(i) in past || step == Return(i))
      && (GaveUp(steps, i) <==> GaveUp(past, i) || (step.GiveUp? && step.i == i))
      && (Waited(steps, i) <==> Waited(past, i) || (step.WaitOver? && step.i == i))
      && (Released(steps, i) <==> Released(past, i) || (step.Release? && step.i == i))
  {
    assert forall x :: x in past + [step] <==> x in past || x == step;
    assert step.GiveUp? && step.i == i ==> step == GiveUp(i, step.written);
    assert step.WaitOver? && step.i == i ==> step == WaitOver(i, step.mined);
    assert step.Release? && step.i == i ==> step == Release(i, step.delivered);
  }

  lemma Noted(d: Deeds, e: Deeds, step: Step, i: nat, kind: Kind)
    requires e.noToken <==> d.noToken || step == Draw(i, None)
    requires e.polls == d.polls + One(step == SetNX(i))
    requires e.gaveUp <==> d.gaveUp || (step.GiveUp? && step.i == i)
    requires e.returned <==> d.returned || step == Return(i)
    requires e.sent <==> d.sent || (step.Send? && step.i == i)
    requires e.mustWait <==> d.mustWait || (step.Send? && step.i == i && !step.error && kind != Direct)
    requires e.waited <==> d.waited || (step.WaitOver? && step.i == i)
    requires e.released <==> d.released || (step.Release? && step.i == i)
    ensures e == Note(d, step, i, kind)
  {
  }

  lemma DeedsStep(past: seq<Step>, step: Step, i: nat, kind: Kind)
    requires step.Send? && !step.error ==> step.accepts
    ensures DeedsOf(past + [step], i, kind) == Note(DeedsOf(past, i, kind), step, i, kind)
  {
    LastDeed(past, step, i);
    LastFlags(past, step, i);
    LastWait(past, step, i, kind);
    Noted(DeedsOf(past, i, kind), DeedsOf(past + [step], i, kind), step, i, kind);
  }

  lemma NobodySent(steps: seq<Step>, sessions: nat, i: nat)
    requires Known(steps, sessions) && sessions <= i
    ensures !DidSend(steps, i)
  {
  }

  /** A new session has done nothing. */
  lemma NoDeeds(steps: seq<Step>, sessions: nat, i: nat, kind: Kind)
    requires Known(steps, sessions) && sessions <= i
    ensures DeedsOf(steps, i, kind) == Deeds(false, 0, false, false, false, false, false, false)
  {
    NoPolls(steps, i);
    NobodySent(steps, sessions, i);
    assert forall hash :: !SentWell(steps, i, hash);
  }

  lemma {:induction false} NoPolls(steps: seq<Step>, i: nat)
    requires SetNX(i) !in steps
    ensures Polls(steps, i) == 0
  {
    if steps == [] {
    } else {
      NoPolls(steps[..|steps| - 1], i);
    }
  }

  /** What a session has done by the time it is where it is. */
  ghost predicate Stage(distributed: bool, pc: Pc, d: Deeds) {
    match pc
    case WantLocal => d.Undecided() && d.polls == 0
    case Local => d.Undecided() && d.polls == 0
    case Trying(n) => distributed && d.Undecided() && d.polls == n < 10
    case Inside => d.Undecided() && d.polls <= if distributed then 10 else 0
    case Holding(_) => d.Undecided() && d.polls <= if distributed then 10 else 0
    case Mining =>
      && d.sent && d.mustWait && !d.noToken && !d.gaveUp && !d.returned && !d.waited && !d.released
      && d.polls <= if distributed then 10 else 0
    case Releasing =>
      distributed && d.FnRan() && !d.noToken && !d.gaveUp && !d.released && d.polls <= 10
    case Unlocking => d.Ended(distributed)
    case Finished => d.Ended(distributed)
  }

  lemma StageStep(s: State, step: Step, d: Deeds, i: nat)
    requires Enabled(s, step) && s.Is(i) && Stage(s.distributed, s.sessions[i].pc, d)
    ensures Stage(s.distributed, Apply(s, step).sessions[i].pc, Note(d, step, i, s.sessions[i].kind))
  {
    OnlyActorMoves(s, step);
  }

  lemma NewStage(s: State, step: Step, i: nat)
    requires Enabled(s, step) && |s.sessions| <= i < |Apply(s, step).sessions|
    ensures step.Start? && Apply(s, step).sessions[i].pc == WantLocal
  {
    OnlyActorMoves(s, step);
  }

  lemma StageNext(s: State, past: seq<Step>, step: Step, i: nat)
    requires Enabled(s, step) && Known(past, |s.sessions|) && i < |Apply(s, step).sessions|
    requires s.Is(i) ==> Stage(s.distributed, s.sessions[i].pc, DeedsOf(past, i, s.sessions[i].kind))
    ensures var me := Apply(s, step).sessions[i]; Stage(s.distributed, me.pc, DeedsOf(past + [step], i, me.kind))
  {
    var kind := Apply(s, step).sessions[i].kind;
    DeedsStep(past, step, i, kind);
    if s.Is(i) {
      OnlyActorMoves(s, step);
      StageStep(s, step, DeedsOf(past, i, kind), i);
    } else {
      NoDeeds(past, |s.sessions|, i, kind);
      NewStage(s, step, i);
    }
  }

  lemma {:induction false} StageHistory(s: State, steps: seq<Step>, i: nat)
    requires s.sessions == [] && Valid(s, steps) && i < |Exec(s, steps).sessions|
    ensures var me := Exec(s, steps).sessions[i]; Stage(s.distributed, me.pc, DeedsOf(steps, i, me.kind))
    decreases |steps|
  {
    if steps == [] {
    } else {
      var past, step := Back(s, steps);
      var t, kind := Exec(s, past), Exec(s, steps).sessions[i].kind;
      ConfigKept(s, past);
      if i < |t.sessions| {
        OnlyActorMoves(t, step);
        StageHistory(s, past, i);
      }
      ActorsExist(s, past);
      StageNext(t, past, step, i);
    }
  }

  /**
   * How a call can end, in every run. With Redis there are four ways, and it is exactly one of them: no token
   * could be drawn, it gave up, ten looks found the key taken, or fn ran and the release followed. Without Redis
   * fn ran. fn either returned before sending or sent, once; and it waited for mining exactly if it is not a
   * direct sender and the node reported no error. Whoever did not get inside sent nothing and reports no success.
   */
  lemma FourExits(distributed: bool, base: map<Wallet, nat>, steps: seq<Step>, i: nat)
    requires Valid(Init(distributed, base), steps) && i < |Exec(Init(distributed, base), steps).sessions|
    requires Exec(Init(distributed, base), steps).sessions[i].pc.Finished?
    ensures if distributed
      then One(Draw(i, None) in steps) + One(GaveUp(steps, i)) + One(Polls(steps, i) == 10 && !WasInside(steps, i))
           + One(Released(steps, i)) == 1
      else WasInside(steps, i) && !GaveUp(steps, i) && Polls(steps, i) == 0
    ensures Released(steps, i) <==> distributed && WasInside(steps, i)
    ensures var me := Exec(Init(distributed, base), steps).sessions[i];
      if WasInside(steps, i)
      then (Return(i) in steps) != DidSend(steps, i) && (Waited(steps, i) <==> MustWait(steps, i, me.kind))
      else me.sent.None? && me.hash == "" && !me.ok
  {
    var s := Init(distributed, base);
    StageHistory(s, steps, i);
    ConfigKept(s, steps);
    if !WasInside(steps, i) {
      NothingSent(s, steps, i);
    }
  }

  lemma {:induction false} NothingSent(s: State, steps: seq<Step>, i: nat)
    requires s.sessions == [] && Valid(s, steps) && i < |Exec(s, steps).sessions|
    requires !DidSend(steps, i) && !Waited(steps, i)
    ensures var me := Exec(s, steps).sessions[i]; me.sent.None? && me.hash == "" && !me.ok
    decreases |steps|
  {
    if steps == [] {
    } else {
      var past, step := Back(s, steps);
      LastDeed(past, step, i);
      if i < |Exec(s, past).sessions| {
        NothingSent(s, past, i);
      }
      SilentStep(Exec(s, past), step, i);
    }
  }

  lemma SilentStep(s: State, step: Step, i: nat)
    requires Enabled(s, step) && i < |Apply(s, step).sessions| && !(step.Send? && step.i == i)
    requires step != WaitOver(i, true) && step != WaitOver(i, false)
    requires s.Is(i) ==> s.sessions[i].sent.None? && s.sessions[i].hash == "" && !s.sessions[i].ok
    ensures var me := Apply(s, step).sessions[i]; me.sent.None? && me.hash == "" && !me.ok
  {
    OnlyActorMoves(s, step);
  }
}
