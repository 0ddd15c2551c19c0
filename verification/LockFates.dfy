/** Every way in which a call of WithNonceLock may go, and what each leaves behind. */
module LockFates {
  import opened Common
  import opened NonceLock
  import Runs

  /** How a call that has its mutex goes on. */
  datatype Fate =
    | NoToken                      // no token can be drawn
    | Refused                      // the key is taken at every look
    | GivesUp(written: bool)       // the first look fails, or its reply is lost
    | Early(read: bool)            // fn returns before it sends, perhaps with the nonce read
    | Sends(accepts: bool, error: bool, hash: string, mined: bool)
  {
    predicate Accepted() { Sends? && accepts }

    /** The node reports no error. */
    predicate Well() { Sends? && !error }

    predicate RunsFn() { Early? || Sends? }

    function Hash(): string { if Sends? then hash else "" }
  }

  /** The entries leave room for this way of a call under the key; the node never refuses without an error. */
  ghost predicate Room(s: State, key: string, fate: Fate) {
    && (!fate.RunsFn() ==> s.distributed)
    && (fate.Refused? ==> key in s.entries)
    && (fate.RunsFn() && s.distributed ==> key !in s.entries)
    && (fate.Sends? ==> fate.accepts || fate.error)
  }

  /** So the call may go this way; under an account lock no wallet nonce is read. */
  ghost predicate Possible(s: State, i: nat, fate: Fate)
    requires s.Is(i)
  {
    Room(s, s.sessions[i].key, fate) && (fate.Sends? || fate == Early(true) ==> s.sessions[i].kind != Account)
  }

  /** The state with session i changed. */
  ghost function With(s: State, i: nat, me: Session): State
    requires s.Is(i)
  {
    s.(sessions := s.sessions[i := me])
  }

  /** What the ledger of a state becomes by such a call. */
  ghost function LedgerAfter(s: State, i: nat, fate: Fate): map<Wallet, seq<Tx>>
    requires s.Is(i)
  {
    var me := s.sessions[i];
    if fate.Accepted() then
      s.accepted[me.wallet := s.Accepted(me.wallet) + [Tx(i, s.Pending(me.wallet), fate.hash, me.ops)]]
    else s.accepted
  }

  /** The call has only its mutex left, and so far nothing has become of the entries. */
  ghost function Over(s: State, i: nat, fate: Fate): State
    requires s.Is(i)
  {
    var me := s.sessions[i];
    With(s, i, me.(pc := Unlocking,
                   sent := if fate.Accepted() then Some(s.Pending(me.wallet)) else None,
                   hash := if fate.Well() then fate.hash else "",
                   ok := fate.Well() && (me.kind == Direct || fate.mined))).(
      accepted := LedgerAfter(s, i, fate))
  }

  /**
   * The entries afterwards: the call leaves its own token behind only in two cases, a write whose reply was lost
   * and a release that was lost.
   */
  ghost function EntriesAfter(s: State, i: nat, fate: Fate, delivered: bool): map<string, Token>
    requires s.Is(i)
  {
    var me := s.sessions[i];
    if me.token.Some? && me.key !in s.entries && (fate == GivesUp(true) || (fate.RunsFn() && !delivered))
    then s.entries[me.key := me.token.value]
    else s.entries
  }

  /** What the call leaves behind but for its mutex. */
  ghost function After(s: State, i: nat, fate: Fate, delivered: bool): State
    requires s.Is(i)
  {
    Over(s, i, fate).(entries := EntriesAfter(s, i, fate, delivered))
  }

  /** And without the mutex. */
  ghost function Closed(s: State, i: nat): State
    requires s.Is(i)
  {
    With(s, i, s.sessions[i].(pc := Finished)).(mutexes := s.mutexes - {s.sessions[i].Mutex()})
  }

  /** Steps of this call only, while it has its mutex. */
  ghost predicate ByItself(steps: seq<Step>, i: nat) {
    forall x :: x in steps ==> !x.Start? && !x.Expire? && !x.LockLocal? && !x.Unlock? && x.i == i
  }

  /** One step of the call, and what it makes of the session. */
  lemma Then(s: State, step: Step, rest: seq<Step>, i: nat) returns (steps: seq<Step>)
    requires Enabled(s, step) && ByItself([step], i)
    requires Valid(Apply(s, step), rest) && ByItself(rest, i)
    ensures Valid(s, steps) && ByItself(steps, i) && Exec(s, steps) == Exec(Apply(s, step), rest)
  {
    steps := Runs.Cons(Apply, s, step, rest);
  }

  /** fn has returned: the entry goes, if there is one and the release gets through. */
  lemma Ends(s: State, i: nat, delivered: bool) returns (steps: seq<Step>)
    requires s.Is(i) && s.sessions[i].pc == AfterFn(s) && (s.distributed ==> s.Leased(i))
    ensures Valid(s, steps) && ByItself(steps, i)
    ensures var me := s.sessions[i];
      Exec(s, steps) ==
        With(s, i, me.(pc := Unlocking)).(
          entries := if s.distributed && delivered then s.entries - {me.key} else s.entries)
  {
    steps := [];
    if s.distributed {
      assert Valid(Apply(s, Release(i, delivered)), []);
      steps := Then(s, Release(i, delivered), [], i);
    }
  }

  /** Nothing has been sent. */
  ghost predicate Fresh(s: State, i: nat) {
    s.Is(i) && s.sessions[i].sent.None? && s.sessions[i].hash == "" && !s.sessions[i].ok
  }

  /** fn has run, and the release is delivered or not. */
  ghost function Released(s: State, i: nat, fate: Fate, delivered: bool): State
    requires s.Is(i)
  {
    Over(s, i, fate).(entries := if s.distributed && delivered then s.entries - {s.sessions[i].key} else s.entries)
  }

  /** It makes no difference where the call was before. */
  lemma OverAnyPc(s: State, i: nat, pc: Pc, fate: Fate, delivered: bool)
    requires s.Is(i)
    ensures Released(With(s, i, s.sessions[i].(pc := pc)), i, fate, delivered) == Released(s, i, fate, delivered)
    ensures After(With(s, i, s.sessions[i].(pc := pc)), i, fate, delivered) == After(s, i, fate, delivered)
  {
    var m := With(s, i, s.sessions[i].(pc := pc));
    assert Over(m, i, fate).sessions == Over(s, i, fate).sessions;
  }

  /** fn has returned. */
  ghost function Back(s: State, i: nat, fate: Fate): State
    requires s.Is(i)
  {
    var over := Over(s, i, fate);
    With(s, i, over.sessions[i].(pc := AfterFn(s))).(accepted := over.accepted)
  }

  lemma EndsWell(s: State, i: nat, fate: Fate, delivered: bool) returns (steps: seq<Step>)
    requires s.Is(i) && (s.distributed ==> s.Leased(i))
    ensures Valid(Back(s, i, fate), steps) && ByItself(steps, i)
    ensures Exec(Back(s, i, fate), steps) == Released(s, i, fate, delivered)
  {
    steps := Ends(Back(s, i, fate), i, delivered);
    assert Exec(Back(s, i, fate), steps).sessions == Released(s, i, fate, delivered).sessions;
  }

  lemma ReturnsEarly(s: State, i: nat, read: bool, delivered: bool) returns (steps: seq<Step>)
    requires Fresh(s, i) && (s.distributed ==> s.Leased(i))
    requires s.sessions[i].pc.Inside? || s.sessions[i].pc.Holding?
    ensures Valid(s, steps) && ByItself(steps, i) && Exec(s, steps) == Released(s, i, Early(read), delivered)
  {
    assert Apply(s, Return(i)) == Back(s, i, Early(read));
    steps := EndsWell(s, i, Early(read), delivered);
    steps := Then(s, Return(i), steps, i);
  }

  /** The state after the node has had the transaction. */
  ghost function Sent(s: State, i: nat, fate: Fate): State
    requires s.Is(i) && fate.Sends?
  {
    var me := s.sessions[i];
    With(s, i, me.(pc := if fate.error || me.kind == Direct then AfterFn(s) else Mining,
                   sent := if fate.accepts then Some(s.Pending(me.wallet)) else None,
                   hash := if fate.error then "" else fate.hash,
                   ok := !fate.error && me.kind == Direct)).(accepted := LedgerAfter(s, i, fate))
  }

  lemma SendsAndWaits(s: State, i: nat, fate: Fate, delivered: bool) returns (steps: seq<Step>)
    requires Fresh(s, i) && (s.distributed ==> s.Leased(i))
    requires s.sessions[i].pc == Holding(s.Pending(s.sessions[i].wallet))
    requires fate.Sends? && (fate.accepts || fate.error)
    ensures Valid(s, steps) && ByItself(steps, i) && Exec(s, steps) == Released(s, i, fate, delivered)
  {
    var send, t := Send(i, fate.accepts, fate.error, fate.hash), Sent(s, i, fate);
    assert Apply(s, send) == t;
    steps := WaitsIfSent(s, i, fate, delivered);
    steps := Then(s, send, steps, i);
  }

  /** Unless fn returns at once, it waits for the transaction to be mined. */
  lemma WaitsIfSent(s: State, i: nat, fate: Fate, delivered: bool) returns (steps: seq<Step>)
    requires s.Is(i) && (s.distributed ==> s.Leased(i)) && fate.Sends?
    ensures Valid(Sent(s, i, fate), steps) && ByItself(steps, i)
    ensures Exec(Sent(s, i, fate), steps) == Released(s, i, fate, delivered)
  {
    var t := Sent(s, i, fate);
    steps := EndsWell(s, i, fate, delivered);
    if t.sessions[i].pc == Mining {
      SeenMined(s, i, fate);
      steps := Then(t, WaitOver(i, fate.mined), steps, i);
    } else {
      assert t == Back(s, i, fate);
    }
  }

  lemma SeenMined(s: State, i: nat, fate: Fate)
    requires s.Is(i) && fate.Well() && s.sessions[i].kind != Direct
    ensures var t := Sent(s, i, fate);
      Enabled(t, WaitOver(i, fate.mined)) && Apply(t, WaitOver(i, fate.mined)) == Back(s, i, fate)
  {
  }

  /** From inside, fn may go either way. */
  lemma GoesOn(s: State, i: nat, fate: Fate, delivered: bool) returns (steps: seq<Step>)
    requires Fresh(s, i) && (s.distributed ==> s.Leased(i)) && s.sessions[i].pc == Inside && fate.RunsFn()
    requires fate.Sends? || fate.read ==> s.sessions[i].kind != Account
    requires fate.Sends? ==> fate.accepts || fate.error
    ensures Valid(s, steps) && ByItself(steps, i) && Exec(s, steps) == Released(s, i, fate, delivered)
  {
    if fate.Early? && !fate.read {
      steps := ReturnsEarly(s, i, false, delivered);
    } else {
      var pc := Holding(s.Pending(s.sessions[i].wallet));
      var m := Apply(s, ReadNonce(i));
      assert m == With(s, i, s.sessions[i].(pc := pc));
      OverAnyPc(s, i, pc, fate, delivered);
      if fate.Early? {
        steps := ReturnsEarly(m, i, true, delivered);
      } else {
        steps := SendsAndWaits(m, i, fate, delivered);
      }
      steps := Then(s, ReadNonce(i), steps, i);
    }
  }

  /** The remaining looks all find the key taken. */
  lemma {:induction false} KeepsLooking(s: State, i: nat) returns (steps: seq<Step>)
    requires s.Is(i) && s.sessions[i].pc.Trying? && s.sessions[i].pc.tries < 10 && s.sessions[i].key in s.entries
    ensures Valid(s, steps) && ByItself(steps, i)
    ensures Exec(s, steps) == With(s, i, s.sessions[i].(pc := Unlocking))
    ensures |steps| == 10 - s.sessions[i].pc.tries
    decreases 10 - s.sessions[i].pc.tries
  {
    var n, m := s.sessions[i].pc.tries, Apply(s, SetNX(i));
    assert m == With(s, i, s.sessions[i].(pc := if n + 1 < 10 then Trying(n + 1) else Unlocking));
    steps := [];
    if n + 1 < 10 {
      steps := KeepsLooking(m, i);
    }
    steps := Runs.Cons(Apply, s, SetNX(i), steps);
  }

  /** With a token drawn, Redis decides. */
  lemma Tries(s: State, i: nat, fate: Fate, delivered: bool) returns (steps: seq<Step>)
    requires s.distributed && Fresh(s, i) && s.sessions[i].pc == Trying(0) && s.sessions[i].token.Some?
    requires Possible(s, i, fate) && !fate.NoToken?
    ensures Valid(s, steps) && ByItself(steps, i) && Exec(s, steps) == After(s, i, fate, delivered)
  {
    if fate.RunsFn() {
      steps := GetsIn(s, i, fate, delivered);
    } else if fate.Refused? {
      steps := KeepsLooking(s, i);
    } else {
      assert Valid(Apply(s, GiveUp(i, fate.written)), []);
      steps := Then(s, GiveUp(i, fate.written), [], i);
    }
  }

  /** Its entry is there during fn only, if the release is delivered. */
  lemma WithEntry(s: State, m: State, i: nat, fate: Fate, delivered: bool)
    requires s.distributed && s.Is(i) && s.sessions[i].token.Some? && s.sessions[i].key !in s.entries && fate.RunsFn()
    requires var me := s.sessions[i];
      m == With(s, i, me.(pc := Inside)).(entries := s.entries[me.key := me.token.value])
    ensures Released(m, i, fate, delivered) == After(s, i, fate, delivered)
  {
    var me := s.sessions[i];
    assert s.entries[me.key := me.token.value] - {me.key} == s.entries;
    OverAnyPc(s, i, Inside, fate, delivered);
    assert Over(m, i, fate).sessions == Over(s, i, fate).sessions;
  }

  lemma GetsIn(s: State, i: nat, fate: Fate, delivered: bool) returns (steps: seq<Step>)
    requires s.distributed && Fresh(s, i) && s.sessions[i].pc == Trying(0) && s.sessions[i].token.Some?
    requires Possible(s, i, fate) && fate.RunsFn()
    ensures Valid(s, steps) && ByItself(steps, i) && Exec(s, steps) == After(s, i, fate, delivered)
  {
    var me, m := s.sessions[i], Apply(s, SetNX(i));
    assert m == With(s, i, me.(pc := Inside)).(entries := s.entries[me.key := me.token.value]);
    steps := GoesOn(m, i, fate, delivered);
    WithEntry(s, m, i, fate, delivered);
    steps := Then(s, SetNX(i), steps, i);
  }

  /** The token it draws, if any, and where it goes from there. */
  lemma Begins(s: State, i: nat, fate: Fate, delivered: bool) returns (steps: seq<Step>, t: Option<Token>)
    requires Fresh(s, i) && s.sessions[i].pc == Local && s.sessions[i].token.None? && Possible(s, i, fate)
    ensures t.Some? <==> s.distributed && !fate.NoToken?
    ensures Valid(s, steps) && ByItself(steps, i)
    ensures Exec(s, steps) == After(With(s, i, s.sessions[i].(token := t)), i, fate, delivered)
  {
    t := None;
    var me := s.sessions[i];
    assert With(s, i, me.(token := None)) == s;
    if !s.distributed {
      var m := Apply(s, EnterLocal(i));
      assert m == With(s, i, me.(pc := Inside));
      OverAnyPc(s, i, Inside, fate, delivered);
      steps := GoesOn(m, i, fate, delivered);
      steps := Then(s, EnterLocal(i), steps, i);
    } else if fate.NoToken? {
      assert Valid(Apply(s, Draw(i, None)), []);
      steps := Then(s, Draw(i, None), [], i);
    } else {
      var token := FreshToken(s.sessions);
      t := Some(token);
      steps := Draws(s, i, fate, delivered, token);
    }
  }

  lemma Draws(s: State, i: nat, fate: Fate, delivered: bool, token: Token) returns (steps: seq<Step>)
    requires s.distributed && Fresh(s, i) && s.sessions[i].pc == Local && Unused(s, Some(token))
    requires Possible(s, i, fate) && !fate.NoToken?
    ensures Valid(s, steps) && ByItself(steps, i)
    ensures Exec(s, steps) == After(With(s, i, s.sessions[i].(token := Some(token))), i, fate, delivered)
  {
    var d, m := With(s, i, s.sessions[i].(token := Some(token))), Apply(s, Draw(i, Some(token)));
    assert m == With(d, i, d.sessions[i].(pc := Trying(0)));
    OverAnyPc(d, i, Trying(0), fate, delivered);
    steps := Tries(m, i, fate, delivered);
    steps := Then(s, Draw(i, Some(token)), steps, i);
  }

  lemma Unlocks(s: State, steps: seq<Step>, i: nat)
    requires Valid(s, steps) && Exec(s, steps).Is(i) && Exec(s, steps).sessions[i].pc == Unlocking
    ensures Valid(s, steps + [Unlock(i)]) && Exec(s, steps + [Unlock(i)]) == Closed(Exec(s, steps), i)
  {
    assert Enabled(Exec(s, steps), Unlock(i));
    Runs.Snoc(Apply, s, steps, Unlock(i));
  }

  /**
   * Everything that may happen to a call does happen in some run. Whatever has happened before: a call that has
   * its mutex may go each of the ways for which the state leaves room, by its own steps alone, and then unlocks.
   * After and Closed give exactly what that leaves behind: the transaction at the pending nonce if the node
   * accepted it, the hash and the success that are reported, the mutex free, and the key as it was but for a lost
   * reply or a lost release.
   */
  lemma EveryFateHappens(distributed: bool, base: map<Wallet, nat>, past: seq<Step>, i: nat, fate: Fate,
                         delivered: bool)
    returns (steps: seq<Step>, t: Option<Token>)
    requires Valid(Init(distributed, base), past)
    requires var s := Exec(Init(distributed, base), past);
      s.Is(i) && s.sessions[i].pc == Local && Possible(s, i, fate)
    ensures t.Some? <==> distributed && !fate.NoToken?
    ensures var s := Exec(Init(distributed, base), past);
      && ByItself(steps, i) && Valid(s, steps + [Unlock(i)])
      && Exec(s, steps + [Unlock(i)]) ==
         Closed(After(With(s, i, s.sessions[i].(token := t)), i, fate, delivered), i)
  {
    var s := Exec(Init(distributed, base), past);
    InvRun(Init(distributed, base), past);
    ConfigKept(Init(distributed, base), past);
    steps, t := FromLocal(s, i, fate, delivered);
    Unlocks(s, steps, i);
  }

  lemma FromLocal(s: State, i: nat, fate: Fate, delivered: bool) returns (steps: seq<Step>, t: Option<Token>)
    requires Inv(s) && s.Is(i) && s.sessions[i].pc == Local && Possible(s, i, fate)
    ensures t.Some? <==> s.distributed && !fate.NoToken?
    ensures Valid(s, steps) && ByItself(steps, i)
    ensures Exec(s, steps) == After(With(s, i, s.sessions[i].(token := t)), i, fate, delivered)
  {
    assert SentInv(s) && TokenDrawn(s);
    steps, t := Begins(s, i, fate, delivered);
  }
}
