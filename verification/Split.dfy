/** The split executor (internal/split/exec.go): permit or allowance, nonces, broadcast and retry. */
module Split {
  import opened Common
  import TxError

  // ---------- The node, as seen by the holder of a wallet's lock ----------

  datatype Action = Approve(amount: nat) | Other

  datatype Tx = Tx(id: nat, nonce: nat, action: Action)

  datatype Mined = Mined(tx: Tx, ok: bool)

  datatype Receipt = Confirmed | Reverted | TimedOut

  /** One executeWithSignatures transaction handed to the node, and what was known at that moment. */
  datatype Broadcast = Broadcast(
    value: nat, tokenZero: bool, erc0: nat, erc1: nat,
    deadline: int, permitAmount: int, signedPermit: bool,
    payerNonce: nat, eoaNonce: nat,
    allowanceRead: Option<nat>,     // what this call read, if it had to look
    approved: Option<nat>,          // what the chain held when this call's approvals were through
    before: Chain)                  // the chain when it was handed over

  /**
   * The chain for one wallet and one token. Slot n is filled by one accepted transaction with nonce n, and a
   * used slot takes no more. A strict token, like USDT, does not change one positive allowance to another.
   */
  datatype Chain = Chain(strict: bool, mined: seq<Mined>, accepted: set<Tx>, issued: nat, allowance: nat) {
    ghost predicate Valid() {
      && (forall n :: 0 <= n < |mined| ==> mined[n].tx in accepted && mined[n].tx.nonce == n)
      && (forall t :: t in accepted ==> t.id < issued)
      && (mined != [] && mined[|mined| - 1].ok && mined[|mined| - 1].tx.action.Approve? ==>
            allowance == mined[|mined| - 1].tx.action.amount)
    }

    /** No accepted transaction uses slot n or a later one. */
    ghost predicate FreeFrom(n: nat) { |mined| <= n && forall t :: t in accepted ==> t.nonce < n }

    /** Nothing is left to be mined. */
    ghost predicate Settled() { forall t :: t in accepted ==> t.nonce < |mined| }

    ghost predicate HasTx(n: nat) { exists t :: t in accepted && t.nonce == n }

    /** Slot n is not used, and every earlier one can be filled. */
    ghost predicate Usable(n: nat) { |mined| <= n && forall k :: |mined| <= k < n ==> HasTx(k) }

    predicate Refuses(a: Action) { strict && a.Approve? && a.amount > 0 && allowance > 0 }
  }

  // What the node decides. Each function below says what a call comes to, given these decisions.

  /** Try to mine this transaction next, with this status; effect is what it makes of the allowance. */
  datatype Mine = Mine(tx: Tx, ok: bool, effect: nat)

  /** What happens until a transaction is received, whether it is accepted, and what the caller sees. */
  datatype Reply = Reply(moves: seq<Mine>, accepts: bool, error: bool)

  /** What happens until a receipt is asked for, and whether it is visible if there is one. */
  datatype Poll = Poll(moves: seq<Mine>, visible: bool)

  /** The fate of one approval; the polls end when the time is over. */
  datatype Fate = Fate(reply: Reply, polls: seq<Poll>)

  datatype Sent = Sent(chain: Chain, error: bool)

  datatype Waited = Waited(chain: Chain, receipt: Receipt)

  datatype Approved = Approved(chain: Chain, ok: bool)

  function Step(c: Chain, m: Mine): Chain {
    if m.tx in c.accepted && m.tx.nonce == |c.mined| then
      var ok := m.ok && !c.Refuses(m.tx.action);
      c.(mined := c.mined + [Mined(m.tx, ok)],
         allowance := if !ok then c.allowance else if m.tx.action.Approve? then m.tx.action.amount else m.effect)
    else c
  }

  function Advance(c: Chain, moves: seq<Mine>): Chain {
    if moves == [] then c else Step(Advance(c, moves[..|moves| - 1]), moves[|moves| - 1])
  }

  /** SendTransaction. */
  function Send(c: Chain, nonce: nat, action: Action, r: Reply): Sent {
    var d := Advance(c, r.moves);
    if nonce < |d.mined| then Sent(d.(issued := c.issued + 1), true)
    else if r.accepts then
      Sent(d.(issued := c.issued + 1, accepted := d.accepted + {Tx(c.issued, nonce, action)}), r.error)
    else Sent(d.(issued := c.issued + 1), r.error)
  }

  /** WaitReceipt. */
  function Wait(c: Chain, tx: Tx, polls: seq<Poll>): Waited
    decreases |polls|
  {
    if polls == [] then Waited(c, TimedOut)
    else
      var d := Advance(c, polls[0].moves);
      if polls[0].visible && Mined(tx, true) in d.mined then Waited(d, Confirmed)
      else if polls[0].visible && Mined(tx, false) in d.mined then Waited(d, Reverted)
      else Wait(d, tx, polls[1..])
  }

  /** One approval: sent, and waited for unless sending failed. */
  function Approval(c: Chain, amount: nat, nonce: nat, fate: Fate): Approved {
    var s := Send(c, nonce, Approve(amount), fate.reply);
    if s.error then Approved(s.chain, false)
    else
      var w := Wait(s.chain, Tx(c.issued, nonce, Approve(amount)), fate.polls);
      Approved(w.chain, w.receipt.Confirmed?)
  }

  /** approve(0) in slot start, then approve(needed) in the next one. */
  function Reset(c: Chain, needed: nat, start: nat, second: Fate, third: Fate): Approved {
    var a := Approval(c, 0, start, second);
    if !a.ok then a else Approval(a.chain, needed, start + 1, third)
  }

  // ---------- What the node can never do ----------

  /** The chain only grows; if nothing is mined, nothing changes. */
  ghost predicate Grows(c: Chain, d: Chain) {
    && d.Valid() && c.mined <= d.mined && d.strict == c.strict
    && (d.mined == c.mined ==> d.allowance == c.allowance)
  }

  lemma StepGrows(c: Chain, m: Mine)
    requires c.Valid()
    ensures Grows(c, Step(c, m)) && Step(c, m).accepted == c.accepted && Step(c, m).issued == c.issued
    ensures c.Settled() ==> Step(c, m) == c
  {
  }

  lemma {:induction false} AdvanceGrows(c: Chain, moves: seq<Mine>)
    requires c.Valid()
    ensures Grows(c, Advance(c, moves)) && Advance(c, moves).accepted == c.accepted
    ensures Advance(c, moves).issued == c.issued
    ensures c.Settled() ==> Advance(c, moves) == c
    decreases |moves|
  {
    if moves == [] {
    } else {
      var d := Advance(c, moves[..|moves| - 1]);
      AdvanceGrows(c, moves[..|moves| - 1]);
      StepGrows(d, moves[|moves| - 1]);
    }
  }

  lemma SendGrows(c: Chain, nonce: nat, action: Action, r: Reply)
    requires c.Valid()
    ensures var s, tx := Send(c, nonce, action, r), Tx(c.issued, nonce, action);
      && Grows(c, s.chain) && s.chain.issued == c.issued + 1
      && (s.chain.accepted == c.accepted || s.chain.accepted == c.accepted + {tx})
      && (nonce < |s.chain.mined| ==> s.error && s.chain.accepted == c.accepted)
      && (c.Settled() ==> s.chain.mined == c.mined)
  {
    AdvanceGrows(c, r.moves);
  }

  lemma {:induction false} WaitGrows(c: Chain, tx: Tx, polls: seq<Poll>)
    requires c.Valid()
    ensures var w := Wait(c, tx, polls);
      && Grows(c, w.chain) && w.chain.accepted == c.accepted && w.chain.issued == c.issued
      && (w.receipt.Confirmed? ==> Mined(tx, true) in w.chain.mined)
      && (w.receipt.Reverted? ==> Mined(tx, false) in w.chain.mined)
    decreases |polls|
  {
    if polls == [] {
    } else {
      AdvanceGrows(c, polls[0].moves);
      WaitGrows(Advance(c, polls[0].moves), tx, polls[1..]);
    }
  }

  /** A successful approval is mined in its slot; one for a used slot fails and leaves nothing behind. */
  lemma ApprovalGrows(c: Chain, amount: nat, nonce: nat, fate: Fate)
    requires c.Valid()
    ensures var a, tx := Approval(c, amount, nonce, fate), Tx(c.issued, nonce, Approve(amount));
      && Grows(c, a.chain) && a.chain.issued == c.issued + 1
      && (a.chain.accepted == c.accepted || a.chain.accepted == c.accepted + {tx})
      && (a.ok ==> nonce < |a.chain.mined| && a.chain.mined[nonce] == Mined(tx, true))
      && (nonce < |c.mined| ==> !a.ok && a.chain.accepted == c.accepted)
  {
    var tx := Tx(c.issued, nonce, Approve(amount));
    var s := Send(c, nonce, Approve(amount), fate.reply);
    SendGrows(c, nonce, Approve(amount), fate.reply);
    if !s.error {
      WaitGrows(s.chain, tx, fate.polls);
      var a := Approval(c, amount, nonce, fate);
      if a.ok {
        SlotOf(a.chain, tx);
      }
    }
  }

  /** A mined transaction sits in the slot of its nonce. */
  lemma SlotOf(c: Chain, tx: Tx)
    requires c.Valid() && Mined(tx, true) in c.mined
    ensures tx.nonce < |c.mined| && c.mined[tx.nonce] == Mined(tx, true)
  {
    var k :| 0 <= k < |c.mined| && c.mined[k] == Mined(tx, true);
    assert k == tx.nonce;
  }

  // ---------- ensureAllowance ----------

  /** The transactions of one call: the ones in slots start and later, all issued since `since`. */
  ghost predicate FilledBy(mined: seq<Mined>, start: nat, next: nat, since: nat, actions: seq<Action>) {
    && |mined| == next == start + |actions|
    && forall n :: start <= n < next ==>
         mined[n].tx.action == actions[n - start] && mined[n].ok && mined[n].tx.id >= since
  }

  /** The node's decisions during one call of ensureAllowance. */
  datatype Story = Story(moves: seq<Mine>, readable: bool, decodable: bool, first: Fate, second: Fate, third: Fate)

  datatype Ensured = Ensured(chain: Chain, next: Option<nat>, read: Option<nat>)

  /** What the allowance call returns. */
  function Read(c: Chain, story: Story): Option<nat> { if story.decodable then Some(c.allowance) else None }

  predicate Enough(read: Option<nat>, needed: nat) { read.Some? && read.value >= needed }

  function Ensure(c: Chain, needed: nat, start: nat, story: Story): Ensured {
    var d := Advance(c, story.moves);
    var read := Read(d, story);
    if !story.readable then Ensured(d, None, None)
    else if Enough(read, needed) then Ensured(d, Some(start), read)
    else
      var a := Approval(d, needed, start, story.first);
      if a.ok then Ensured(a.chain, Some(start + 1), read)
      else
        var r := Reset(a.chain, needed, start, story.second, story.third);
        Ensured(r.chain, if r.ok then Some(start + 2) else None, read)
  }

  lemma ResetFills(c: Chain, needed: nat, start: nat, second: Fate, third: Fate)
    requires c.Valid() && forall t :: t in c.accepted ==> t.nonce <= start
    ensures var r := Reset(c, needed, start, second, third);
      && r.chain.Valid()
      && (r.ok ==> FilledBy(r.chain.mined, start, start + 2, c.issued, [Approve(0), Approve(needed)]))
      && (r.ok ==> r.chain.FreeFrom(start + 2) && r.chain.allowance == needed)
      && (forall t :: t in r.chain.accepted ==> t in c.accepted || t.nonce >= start)
  {
    ApprovalGrows(c, 0, start, second);
    var a := Approval(c, 0, start, second);
    if a.ok {
      ZeroFills(c, start, second);
      LastFills(a.chain, needed, start, third);
    }
  }

  /** What is mined has been accepted. */
  lemma LengthAt(c: Chain, n: nat)
    requires c.Valid() && forall t :: t in c.accepted ==> t.nonce < n
    ensures |c.mined| <= n
  {
    assert c.mined == [] || c.mined[|c.mined| - 1].tx in c.accepted;
  }

  lemma ZeroFills(c: Chain, start: nat, second: Fate)
    requires c.Valid() && (forall t :: t in c.accepted ==> t.nonce <= start) && Approval(c, 0, start, second).ok
    ensures var d := Approval(c, 0, start, second).chain;
      && d.Valid() && d.FreeFrom(start + 1) && |d.mined| == start + 1
      && d.mined[start] == Mined(Tx(c.issued, start, Approve(0)), true)
  {
    ApprovalGrows(c, 0, start, second);
    LengthAt(Approval(c, 0, start, second).chain, start + 1);
  }

  lemma LastFills(c: Chain, needed: nat, start: nat, third: Fate)
    requires c.Valid() && c.FreeFrom(start + 1) && |c.mined| == start + 1
    ensures var a := Approval(c, needed, start + 1, third);
      && a.chain.Valid()
      && (a.ok ==>
            && a.chain.FreeFrom(start + 2) && a.chain.allowance == needed && |a.chain.mined| == start + 2
            && a.chain.mined == c.mined + [Mined(Tx(c.issued, start + 1, Approve(needed)), true)])
      && (forall t :: t in a.chain.accepted ==> t in c.accepted || t.nonce > start)
  {
    ApprovalGrows(c, needed, start + 1, third);
    LengthAt(Approval(c, needed, start + 1, third).chain, start + 2);
  }

  /** If this call's mined transactions all succeeded slot by slot, none of them reverted anywhere. */
  lemma NoneReverted(c: Chain, start: nat, next: nat, since: nat, actions: seq<Action>)
    requires c.Valid() && FilledBy(c.mined, start, next, since, actions)
    requires forall t :: t in c.accepted && t.id >= since ==> t.nonce >= start
    ensures forall m :: m in c.mined && m.tx.id >= since ==> m.ok && m.tx.nonce >= start
  {
    forall m | m in c.mined && m.tx.id >= since
      ensures m.ok && m.tx.nonce >= start
    {
      var n :| 0 <= n < |c.mined| && c.mined[n] == m;
      assert n == m.tx.nonce >= start;
    }
  }

  /** What a successful call has done, given where it started. */
  ghost predicate Secured(c: Chain, needed: nat, start: nat, e: Ensured) {
    && e.chain.Valid()
    && (e.next.Some? ==>
          && e.chain.FreeFrom(e.next.value)
          && (forall m :: m in e.chain.mined && m.tx.id >= c.issued ==> m.ok && m.tx.nonce >= start)
          && if Enough(e.read, needed)
             then e.next.value == start && e.chain.issued == c.issued && e.chain.accepted == c.accepted
             else e.chain.allowance == needed &&
                  (FilledBy(e.chain.mined, start, e.next.value, c.issued, [Approve(needed)]) ||
                   FilledBy(e.chain.mined, start, e.next.value, c.issued, [Approve(0), Approve(needed)])))
  }

  /**
   * Started at the first free slot, on success either the allowance read was enough and nothing was sent, or
   * the call's mined transactions fill the slots from `start` up to the returned nonce without a gap, every
   * one of them succeeded, the last one approved exactly `needed`, and the chain holds that allowance. The
   * returned slot is free again.
   */
  lemma EnsureSecures(c: Chain, needed: nat, start: nat, story: Story)
    requires c.Valid() && c.FreeFrom(start)
    ensures Secured(c, needed, start, Ensure(c, needed, start, story))
  {
    var d := Advance(c, story.moves);
    AdvanceGrows(c, story.moves);
    if !story.readable {
    } else if Enough(Read(d, story), needed) {
      EnoughSecures(c, needed, start, story);
    } else if Approval(d, needed, start, story.first).ok {
      AdvanceFree(c, story.moves, start);
      FirstSecures(d, needed, start, story.first);
    } else {
      ResetPathSecures(c, needed, start, story);
    }
  }

  lemma EnoughSecures(c: Chain, needed: nat, start: nat, story: Story)
    requires c.Valid() && c.FreeFrom(start) && story.readable
    requires Enough(Read(Advance(c, story.moves), story), needed)
    ensures Secured(c, needed, start, Ensure(c, needed, start, story))
  {
    AdvanceGrows(c, story.moves);
    AdvanceFree(c, story.moves, start);
    OldTransactions(Advance(c, story.moves));
  }

  /**
   * A call sends something exactly if the allowance could be read from the chain and is not known to be at least
   * `needed`; an allowance of exactly `needed` is enough. If it sends nothing, it succeeds exactly if it could read.
   */
  lemma SendsIffShort(c: Chain, needed: nat, start: nat, story: Story)
    requires c.Valid()
    ensures var e := Ensure(c, needed, start, story);
      var sufficient := story.decodable && Advance(c, story.moves).allowance >= needed;
      && (e.chain.issued > c.issued <==> story.readable && !sufficient)
      && (e.chain.issued == c.issued ==>
            e.chain.accepted == c.accepted && e.next == if story.readable then Some(start) else None)
  {
    var d := Advance(c, story.moves);
    AdvanceGrows(c, story.moves);
    ApprovalGrows(d, needed, start, story.first);
    var a := Approval(d, needed, start, story.first);
    ApprovalGrows(a.chain, 0, start, story.second);
    ApprovalGrows(Approval(a.chain, 0, start, story.second).chain, needed, start + 1, story.third);
  }

  /** What is mined later comes from what was accepted. */
  lemma AdvanceFree(c: Chain, moves: seq<Mine>, n: nat)
    requires c.Valid() && c.FreeFrom(n)
    ensures Advance(c, moves).FreeFrom(n)
  {
    AdvanceGrows(c, moves);
    LengthAt(Advance(c, moves), n);
  }

  lemma ResetPathSecures(c: Chain, needed: nat, start: nat, story: Story)
    requires c.Valid() && c.FreeFrom(start) && story.readable
    requires var d := Advance(c, story.moves);
      !Enough(Read(d, story), needed) && !Approval(d, needed, start, story.first).ok
    ensures Secured(c, needed, start, Ensure(c, needed, start, story))
  {
    var d := Advance(c, story.moves);
    AdvanceGrows(c, story.moves);
    ApprovalGrows(d, needed, start, story.first);
    ResetSecures(Approval(d, needed, start, story.first).chain, needed, start, c.issued, story.second, story.third);
  }

  /** Nothing was issued yet that is not in the past. */
  lemma OldTransactions(c: Chain)
    requires c.Valid()
    ensures forall m :: m in c.mined ==> m.tx.id < c.issued
  {
  }

  lemma FirstSecures(c: Chain, needed: nat, start: nat, first: Fate)
    requires c.Valid() && c.FreeFrom(start) && Approval(c, needed, start, first).ok
    ensures var d := Approval(c, needed, start, first).chain;
      && d.Valid() && d.FreeFrom(start + 1) && d.allowance == needed
      && FilledBy(d.mined, start, start + 1, c.issued, [Approve(needed)])
      && forall m :: m in d.mined && m.tx.id >= c.issued ==> m.ok && m.tx.nonce >= start
  {
    ApprovalGrows(c, needed, start, first);
    var d := Approval(c, needed, start, first).chain;
    assert |d.mined| == start + 1;
    NoneReverted(d, start, start + 1, c.issued, [Approve(needed)]);
  }

  lemma ResetSecures(c: Chain, needed: nat, start: nat, since: nat, second: Fate, third: Fate)
    requires c.Valid() && since <= c.issued
    requires forall t :: t in c.accepted ==> t.nonce <= start && (t.id >= since ==> t.nonce >= start)
    ensures var r := Reset(c, needed, start, second, third);
      && r.chain.Valid()
      && (r.ok ==>
            && r.chain.FreeFrom(start + 2) && r.chain.allowance == needed
            && FilledBy(r.chain.mined, start, start + 2, since, [Approve(0), Approve(needed)])
            && forall m :: m in r.chain.mined && m.tx.id >= since ==> m.ok && m.tx.nonce >= start)
  {
    ResetFills(c, needed, start, second, third);
    var r := Reset(c, needed, start, second, third);
    if r.ok {
      NoneReverted(r.chain, start, start + 2, since, [Approve(0), Approve(needed)]);
    }
  }

  // ---------- When the reset can help ----------

  /** A slot without a transaction stops the chain. */
  lemma {:induction false} StuckAt(c: Chain, moves: seq<Mine>, k: nat)
    requires c.Valid() && |c.mined| <= k && !c.HasTx(k)
    ensures |Advance(c, moves).mined| <= k
    decreases |moves|
  {
    if moves == [] {
    } else {
      var d := Advance(c, moves[..|moves| - 1]);
      StuckAt(c, moves[..|moves| - 1], k);
      AdvanceGrows(c, moves[..|moves| - 1]);
      assert !d.HasTx(k);
    }
  }

  lemma {:induction false} WaitStuck(c: Chain, tx: Tx, polls: seq<Poll>, k: nat)
    requires c.Valid() && |c.mined| <= k && !c.HasTx(k)
    ensures |Wait(c, tx, polls).chain.mined| <= k
    decreases |polls|
  {
    if polls == [] {
    } else {
      var d := Advance(c, polls[0].moves);
      StuckAt(c, polls[0].moves, k);
      AdvanceGrows(c, polls[0].moves);
      assert !d.HasTx(k);
      WaitStuck(d, tx, polls[1..], k);
    }
  }

  /** An approval succeeds only if its slot is free and every earlier one can be filled. */
  lemma ApprovalNeedsSlot(c: Chain, amount: nat, nonce: nat, fate: Fate)
    requires c.Valid() && Approval(c, amount, nonce, fate).ok
    ensures c.Usable(nonce)
  {
    ApprovalGrows(c, amount, nonce, fate);
    forall k | |c.mined| <= k < nonce
      ensures c.HasTx(k)
    {
      if !c.HasTx(k) {
        var s := Send(c, nonce, Approve(amount), fate.reply);
        SendGrows(c, nonce, Approve(amount), fate.reply);
        StuckAt(c, fate.reply.moves, k);
        assert !s.chain.HasTx(k);
        WaitStuck(s.chain, Tx(c.issued, nonce, Approve(amount)), fate.polls, k);
      }
    }
  }

  /** The slots before n are filled by what waits for them, none of it with success. */
  lemma {:induction false} FillUp(c: Chain, n: nat) returns (moves: seq<Mine>)
    requires c.Valid() && c.Usable(n)
    ensures |Advance(c, moves).mined| == n && Advance(c, moves).allowance == c.allowance
    decreases n
  {
    if |c.mined| == n {
      moves := [];
    } else {
      var before := FillUp(c, n - 1);
      assert c.HasTx(n - 1);
      var t :| t in c.accepted && t.nonce == n - 1;
      AdvanceGrows(c, before);
      moves := before + [Mine(t, false, 0)];
      assert moves[..|before|] == before;
    }
  }

  /** The node accepts an approval, mines it at once with this status and shows the receipt. */
  function Prompt(c: Chain, amount: nat, nonce: nat, moves: seq<Mine>, ok: bool): Fate {
    var tx := Tx(c.issued, nonce, Approve(amount));
    Fate(Reply(moves, true, false), [Poll([Mine(tx, ok, 0)], true)])
  }

  lemma PromptMines(c: Chain, amount: nat, nonce: nat, moves: seq<Mine>, ok: bool)
    requires c.Valid() && |Advance(c, moves).mined| == nonce
    ensures var a, done := Approval(c, amount, nonce, Prompt(c, amount, nonce, moves, ok)),
                           ok && !Advance(c, moves).Refuses(Approve(amount));
      && a.ok == done && |a.chain.mined| == nonce + 1
      && a.chain.allowance == if done then amount else Advance(c, moves).allowance
  {
    AdvanceGrows(c, moves);
    var fate, tx := Prompt(c, amount, nonce, moves, ok), Tx(c.issued, nonce, Approve(amount));
    var s := Send(c, nonce, Approve(amount), fate.reply);
    SendGrows(c, nonce, Approve(amount), fate.reply);
    var m := fate.polls[0].moves;
    assert m[..0] == [] && Advance(s.chain, m) == Step(s.chain, m[0]);
    var d := Advance(s.chain, m);
    assert d.mined == s.chain.mined + [Mined(tx, ok && !s.chain.Refuses(Approve(amount)))];
    assert forall n :: 0 <= n < |s.chain.mined| ==> d.mined[n].tx in c.accepted;
  }

  /**
   * The exact condition for the remedy. Once the first approval has failed, some behaviour of the node lets
   * approve(0) and the second approve succeed if and only if the slot of the first approval is still unused
   * and every earlier slot holds an accepted transaction. If the first approval was mined, no behaviour does.
   */
  lemma ResetHelpsIffUsable(c: Chain, needed: nat, start: nat)
    requires c.Valid()
    ensures (exists second, third :: Reset(c, needed, start, second, third).ok) <==> c.Usable(start)
  {
    if second, third :| Reset(c, needed, start, second, third).ok {
      ApprovalNeedsSlot(c, 0, start, second);
    }
    if c.Usable(start) {
      var second, third := MakeReset(c, needed, start);
      assert Reset(c, needed, start, second, third).ok;
    }
  }

  lemma MakeReset(c: Chain, needed: nat, start: nat) returns (second: Fate, third: Fate)
    requires c.Valid() && c.Usable(start)
    ensures Reset(c, needed, start, second, third).ok
  {
    var moves := FillUp(c, start);
    second := Prompt(c, 0, start, moves, true);
    PromptMines(c, 0, start, moves, true);
    ApprovalGrows(c, 0, start, second);
    var a := Approval(c, 0, start, second);
    third := Prompt(a.chain, needed, start + 1, [], true);
    PromptMines(a.chain, needed, start + 1, [], true);
  }

  /** The node never gets the approval, and says so. */
  const LOST := Fate(Reply([], false, true), [])

  /**
   * For the whole call, started at the first free slot: some behaviour of the node makes it succeed by way
   * of the reset if and only if every slot before the first free one holds a transaction.
   */
  lemma ResetPathIff(c: Chain, needed: nat, start: nat)
    requires c.Valid() && c.FreeFrom(start)
    ensures (exists story :: Ensure(c, needed, start, story).next == Some(start + 2)) <==> c.Usable(start)
  {
    if story :| Ensure(c, needed, start, story).next == Some(start + 2) {
      ResetPathNeedsSlots(c, needed, start, story);
    }
    if c.Usable(start) {
      var a := Approval(c, needed, start, LOST);
      assert a == Approved(c.(issued := c.issued + 1), false);
      assert forall k :: c.HasTx(k) <==> a.chain.HasTx(k);
      var second, third := MakeReset(a.chain, needed, start);
      assert Ensure(c, needed, start, Story([], true, false, LOST, second, third)).next == Some(start + 2);
    }
  }

  lemma ResetPathNeedsSlots(c: Chain, needed: nat, start: nat, story: Story)
    requires c.Valid() && c.FreeFrom(start) && Ensure(c, needed, start, story).next == Some(start + 2)
    ensures c.Usable(start)
  {
    var d := Advance(c, story.moves);
    AdvanceGrows(c, story.moves);
    ApprovalGrows(d, needed, start, story.first);
    var a := Approval(d, needed, start, story.first);
    ApprovalNeedsSlot(a.chain, 0, start, story.second);
    forall k | |c.mined| <= k < start
      ensures c.HasTx(k)
    {
      if |a.chain.mined| <= k {
        assert a.chain.HasTx(k);
        var t :| t in a.chain.accepted && t.nonce == k;
        assert t in c.accepted;
      } else {
        assert a.chain.mined[k].tx in c.accepted;
      }
    }
  }

  /** The first approval has been mined when the call falls back to the reset. */
  ghost predicate FirstMined(c: Chain, needed: nat, start: nat, story: Story) {
    var d := Advance(c, story.moves);
    var a := Approval(d, needed, start, story.first);
    story.readable && !Enough(Read(d, story), needed) && !a.ok && |a.chain.mined| > start
  }

  /** Then the call fails, whatever the node does next: the reset is sent for a slot that is used. */
  lemma MinedFirstApprovalFails(c: Chain, needed: nat, start: nat, story: Story)
    requires c.Valid() && FirstMined(c, needed, start, story)
    ensures Ensure(c, needed, start, story).next.None?
  {
    var d := Advance(c, story.moves);
    AdvanceGrows(c, story.moves);
    ApprovalGrows(d, needed, start, story.first);
    ApprovalGrows(Approval(d, needed, start, story.first).chain, 0, start, story.second);
  }

  /** It does happen: wherever an approval can be mined at all, it can be mined as reverted. */
  lemma RevertedApproval(c: Chain, needed: nat, start: nat) returns (story: Story)
    requires c.Valid() && c.Usable(start) && c.allowance < needed
    ensures FirstMined(c, needed, start, story) && Ensure(c, needed, start, story).next.None?
    ensures var a := Approval(c, needed, start, story.first).chain;
      |a.mined| == start + 1 && a.mined[start] == Mined(Tx(c.issued, start, Approve(needed)), false)
  {
    var moves := FillUp(c, start);
    var first := Prompt(c, needed, start, moves, false);
    story := Story([], true, true, first, LOST, LOST);
    PromptMines(c, needed, start, moves, false);
    MinedFirstApprovalFails(c, needed, start, story);
    RevertedInSlot(c, needed, start, moves);
  }

  lemma RevertedInSlot(c: Chain, needed: nat, start: nat, moves: seq<Mine>)
    requires c.Valid() && |Advance(c, moves).mined| == start
    ensures var a := Approval(c, needed, start, Prompt(c, needed, start, moves, false)).chain;
      |a.mined| == start + 1 && a.mined[start] == Mined(Tx(c.issued, start, Approve(needed)), false)
  {
    AdvanceGrows(c, moves);
    var fate := Prompt(c, needed, start, moves, false);
    var s := Send(c, start, Approve(needed), fate.reply);
    var m := fate.polls[0].moves;
    assert m[..0] == [] && Advance(s.chain, m) == Step(s.chain, m[0]);
  }

  /**
   * The case the reset is meant for: a strict token whose allowance is positive but too small, with nothing
   * else under way. The first approval cannot succeed there, so the call succeeds only if the node has not
   * mined that approval when the reset is sent; in particular not if it mines it while the call waits.
   */
  lemma StrictTokenNeedsLostApproval(c: Chain, needed: nat, story: Story)
    requires c.Valid() && c.Settled() && c.strict && 0 < c.allowance < needed
    requires Ensure(c, needed, |c.mined|, story).next.Some?
    ensures Ensure(c, needed, |c.mined|, story).next == Some(|c.mined| + 2)
    ensures !FirstMined(c, needed, |c.mined|, story)
  {
    var start := |c.mined|;
    AdvanceGrows(c, story.moves);
    StrictRefuses(c, needed, story.first);
    if FirstMined(c, needed, start, story) {
      MinedFirstApprovalFails(c, needed, start, story);
    }
  }

  lemma StrictRefuses(c: Chain, needed: nat, fate: Fate)
    requires c.Valid() && c.Settled() && c.strict && 0 < c.allowance < needed
    ensures !Approval(c, needed, |c.mined|, fate).ok
  {
    var start, tx := |c.mined|, Tx(c.issued, |c.mined|, Approve(needed));
    var s := Send(c, start, Approve(needed), fate.reply);
    AdvanceGrows(c, fate.reply.moves);
    SendGrows(c, start, Approve(needed), fate.reply);
    if !s.error {
      NeverConfirmed(s.chain, tx, fate.polls);
    }
  }

  /** Only tx can still be mined, and the token refuses it. */
  ghost predicate OnlyRefused(c: Chain, tx: Tx) {
    && c.Valid() && Mined(tx, true) !in c.mined
    && if |c.mined| == tx.nonce
       then c.Refuses(tx.action) && forall t :: t in c.accepted && t.nonce >= tx.nonce ==> t == tx
       else c.Settled()
  }

  lemma {:induction false} RefusedStays(c: Chain, tx: Tx, moves: seq<Mine>)
    requires OnlyRefused(c, tx)
    ensures OnlyRefused(Advance(c, moves), tx)
    decreases |moves|
  {
    if moves == [] {
    } else {
      RefusedStays(c, tx, moves[..|moves| - 1]);
      StepGrows(Advance(c, moves[..|moves| - 1]), moves[|moves| - 1]);
    }
  }

  lemma {:induction false} NeverConfirmed(c: Chain, tx: Tx, polls: seq<Poll>)
    requires OnlyRefused(c, tx)
    ensures !Wait(c, tx, polls).receipt.Confirmed?
    decreases |polls|
  {
    if polls == [] {
    } else {
      RefusedStays(c, tx, polls[0].moves);
      NeverConfirmed(Advance(c, polls[0].moves), tx, polls[1..]);
    }
  }

  // ---------- The same as code ----------

  /** The node as an object: its chain and what the executor broadcast. */
  class Node {
    const strict: bool
    var mined: seq<Mined>
    var accepted: set<Tx>
    var issued: nat
    var allowance: nat
    var broadcasts: seq<Broadcast>

    function Now(): Chain
      reads this
    {
      Chain(strict, mined, accepted, issued, allowance)
    }

    constructor (strict: bool)
      ensures this.strict == strict && Now() == Chain(strict, [], {}, 0, 0) && broadcasts == []
    {
      this.strict := strict;
      mined, accepted, issued, allowance, broadcasts := [], {}, 0, 0, [];
    }

    /** Time passes: any number of accepted transactions are mined. */
    method Proceed(moves: seq<Mine>)
      modifies this`mined, this`allowance
      ensures Now() == Advance(old(Now()), moves)
    {
      var k := 0;
      while k < |moves|
        invariant 0 <= k <= |moves|
        invariant accepted == old(accepted) && issued == old(issued)
        invariant Now() == Advance(old(Now()), moves[..k])
      {
        var m := moves[k];
        assert moves[..k + 1][..k] == moves[..k];
        if m.tx in accepted && m.tx.nonce == |mined| {
          var refused := strict && m.tx.action.Approve? && m.tx.action.amount > 0 && allowance > 0;
          mined := mined + [Mined(m.tx, m.ok && !refused)];
          if m.ok && !refused {
            allowance := if m.tx.action.Approve? then m.tx.action.amount else m.effect;
          }
        }
        k := k + 1;
      }
      assert moves[..|moves|] == moves;
    }

    /** SendTransaction: err is what the caller sees. A transaction for a used slot is refused. */
    method SendTransaction(nonce: nat, action: Action, r: Reply) returns (tx: Tx, err: bool)
      requires Now().Valid()
      modifies this`mined, this`allowance, this`accepted, this`issued
      ensures Sent(Now(), err) == Send(old(Now()), nonce, action, r)
      ensures tx == Tx(old(issued), nonce, action)
      ensures Grows(old(Now()), Now()) && (accepted == old(accepted) || accepted == old(accepted) + {tx})
      ensures nonce < |mined| ==> err && accepted == old(accepted)
    {
      SendGrows(Now(), nonce, action, r);
      Proceed(r.moves);
      tx, issued := Tx(issued, nonce, action), issued + 1;
      err := r.error;
      if nonce < |mined| {
        err := true;
      } else if r.accepts {
        accepted := accepted + {tx};
      }
    }

    /** Polls for the receipt until it shows up or the time is over. */
    method WaitReceipt(tx: Tx, polls: seq<Poll>) returns (r: Receipt)
      requires Now().Valid()
      modifies this`mined, this`allowance
      ensures Waited(Now(), r) == Wait(old(Now()), tx, polls)
      ensures r.Confirmed? ==> Mined(tx, true) in mined
      ensures r.Reverted? ==> Mined(tx, false) in mined
    {
      WaitGrows(Now(), tx, polls);
      var k := 0;
      while k < |polls|
        invariant 0 <= k <= |polls|
        invariant Wait(Now(), tx, polls[k..]) == Wait(old(Now()), tx, polls)
      {
        Proceed(polls[k].moves);
        if polls[k].visible && Mined(tx, true) in mined {
          return Confirmed;
        }
        if polls[k].visible && Mined(tx, false) in mined {
          return Reverted;
        }
        k := k + 1;
      }
      r := TimedOut;
    }
  }

  /** approve: send and wait; true when the approval is mined and succeeded. */
  method ApproveAndWait(node: Node, amount: nat, nonce: nat, fate: Fate) returns (ok: bool)
    requires node.Now().Valid()
    modifies node`mined, node`allowance, node`accepted, node`issued
    ensures Approved(node.Now(), ok) == Approval(old(node.Now()), amount, nonce, fate)
    ensures node.Now().Valid()
    ensures ok ==>
      nonce < |node.mined| && node.mined[nonce] == Mined(Tx(old(node.issued), nonce, Approve(amount)), true)
  {
    ApprovalGrows(node.Now(), amount, nonce, fate);
    var tx, err := node.SendTransaction(nonce, Approve(amount), fate.reply);
    if err {
      return false;
    }
    var r := node.WaitReceipt(tx, fate.polls);
    ok := r.Confirmed?;
  }

  /** ensureAllowance, with the wallet's lock held. */
  method EnsureAllowance(node: Node, needed: nat, start: nat, story: Story)
    returns (next: Option<nat>, read: Option<nat>)
    requires node.Now().Valid() && node.Now().FreeFrom(start)
    modifies node`mined, node`allowance, node`accepted, node`issued
    ensures Ensured(node.Now(), next, read) == Ensure(old(node.Now()), needed, start, story)
    ensures Secured(old(node.Now()), needed, start, Ensured(node.Now(), next, read))
  {
    EnsureSecures(node.Now(), needed, start, story);
    AdvanceGrows(node.Now(), story.moves);
    node.Proceed(story.moves);
    if !story.readable {
      return None, None;
    }
    read := if story.decodable then Some(node.allowance) else None;
    if read.Some? && read.value >= needed {
      return Some(start), read;
    }
    var ok := ApproveAndWait(node, needed, start, story.first);
    if ok {
      return Some(start + 1), read;
    }
    ok := ApproveAndWait(node, 0, start, story.second);
    if !ok {
      return None, read;
    }
    ok := ApproveAndWait(node, needed, start + 1, story.third);
    next := if ok then Some(start + 2) else None;
  }

  // ---------- Execute ----------

  /** The request. Amounts are non-negative (reqUint); a missing permit field is None. */
  datatype Params = Params(
    tokenZero: bool, native0: nat, native1: nat, erc0: nat, erc1: nat,
    deadline: Option<int>, permitAmount: Option<int>, permitR: nat, permitS: nat)

  predicate UsesPermit(p: Params) { p.deadline.Some? && p.deadline.value != 0 }

  /** validatePermit: fills in what is missing and refuses an incomplete permit. */
  method ValidatePermit(p: Params) returns (q: Params, ok: bool)
    ensures q == p.(deadline := q.deadline, permitAmount := q.permitAmount)
    ensures q.deadline == (if p.deadline.Some? then p.deadline else Some(0))
    ensures q.permitAmount == (if p.permitAmount.Some? then p.permitAmount else Some(0))
    ensures UsesPermit(p) <==> UsesPermit(q)
    ensures ok <==> (UsesPermit(q) ==>
      && !p.tokenZero && p.erc0 + p.erc1 > 0 && q.permitAmount.value >= p.erc0 + p.erc1
      && p.permitR != 0 && p.permitS != 0)
  {
    q := p;
    if q.deadline.None? {
      q := q.(deadline := Some(0));
    }
    if q.permitAmount.None? {
      q := q.(permitAmount := Some(0));
    }
    if q.deadline.value == 0 {
      return q, true;
    }
    if q.tokenZero || q.erc0 + q.erc1 <= 0 || q.permitAmount.value < q.erc0 + q.erc1 {
      return q, false;
    }
    ok := !(q.permitR == 0 || q.permitS == 0);
  }

  /**
   * What every broadcast must satisfy: the value pays the native amounts; the zero token moves no
   * tokens; and a positive token total is covered by a signed permit for at least that much, by an
   * allowance read that was at least that much, or by this call's approval of exactly that much.
   */
  ghost predicate Funded(b: Broadcast, p: Params) {
    var total := p.erc0 + p.erc1;
    && b.value == p.native0 + p.native1
    && b.erc0 == p.erc0 && b.erc1 == p.erc1 && b.tokenZero == p.tokenZero
    && b.value + total > 0
    && (b.tokenZero ==> total == 0)
    && (total > 0 ==>
          || (b.deadline != 0 && b.permitAmount >= total && b.signedPermit)
          || (b.deadline == 0 && b.allowanceRead.Some? && b.allowanceRead.value >= total)
          || (b.deadline == 0 && b.approved == Some(total)))
  }

  /** The transaction that a request becomes. */
  function Draft(p: Params, payerNonce: nat, eoaNonce: nat, read: Option<nat>, approved: Option<nat>,
                 before: Chain): Broadcast
    requires p.deadline.Some? && p.permitAmount.Some?
  {
    Broadcast(p.native0 + p.native1, p.tokenZero, p.erc0, p.erc1, p.deadline.value, p.permitAmount.value,
              p.permitR != 0 && p.permitS != 0, payerNonce, eoaNonce, read, approved, before)
  }

  /** The decisions about one broadcast: can it be built, what is sent back, and the text of any error. */
  datatype Attempt = Attempt(buildable: bool, text: string, reply: Reply)

  datatype Tried = Tried(chain: Chain, err: Option<string>)

  function Try(c: Chain, nonce: nat, a: Attempt): Tried {
    if !a.buildable then Tried(c, Some(a.text))
    else
      var s := Send(c, nonce, Other, a.reply);
      Tried(s.chain, if s.error then Some(a.text) else None)
  }

  /** The decisions about the retry: what happens until the fresh payer nonce is read, and the broadcast. */
  datatype Retry = Retry(moves: seq<Mine>, readable: bool, payerNonce: nat, attempt: Attempt)

  /** The node accepts the broadcast, whatever it says. */
  predicate Lands(c: Chain, nonce: nat, a: Attempt) {
    a.buildable && Tx(c.issued, nonce, Other) in Try(c, nonce, a).chain.accepted
  }

  /** The first attempt failed with a text that the code takes for a nonce error. */
  predicate Retries(c: Chain, nonce: nat, a: Attempt) {
    var err := Try(c, nonce, a).err;
    err.Some? && TxError.IsNonceErr(err.value)
  }

  /** Both broadcasts of one request are accepted. */
  predicate BothLand(c: Chain, nonce: nat, a: Attempt, r: Retry) {
    && Lands(c, nonce, a) && Retries(c, nonce, a) && r.readable
    && Lands(Advance(Try(c, nonce, a).chain, r.moves), nonce + 1, r.attempt)
  }

  /** An attempt is accepted exactly when its slot is not used yet and the node takes it. */
  lemma LandsIff(c: Chain, nonce: nat, a: Attempt)
    requires c.Valid()
    ensures Try(c, nonce, a).chain.Valid()
    ensures Lands(c, nonce, a) <==> a.buildable && |Advance(c, a.reply.moves).mined| <= nonce && a.reply.accepts
    ensures Lands(c, nonce, a) ==> |Try(c, nonce, a).chain.mined| <= nonce
    ensures Lands(c, nonce, a) ==> Try(c, nonce, a).err == if a.reply.error then Some(a.text) else None
  {
    AdvanceGrows(c, a.reply.moves);
    SendGrows(c, nonce, Other, a.reply);
  }

  /**
   * The exact condition under which both broadcasts of a request can be accepted: the first one was accepted
   * and reported an error whose text speaks of a nonce. Then nothing in the code stands in the way of the second.
   */
  lemma BothLandIff(c: Chain, nonce: nat, a: Attempt)
    requires c.Valid()
    ensures (exists r :: BothLand(c, nonce, a, r)) <==>
            Lands(c, nonce, a) && a.reply.error && TxError.IsNonceErr(a.text)
  {
    LandsIff(c, nonce, a);
    if Lands(c, nonce, a) && a.reply.error && TxError.IsNonceErr(a.text) {
      var d, again := Try(c, nonce, a).chain, Attempt(true, "", Reply([], true, false));
      LandsIff(d, nonce + 1, again);
      assert BothLand(c, nonce, a, Retry([], true, 0, again));
    }
  }

  /** The retry, if the payer nonce can be read again. */
  function TryAgain(c: Chain, nonce: nat, r: Retry): Tried {
    var d := Advance(c, r.moves);
    if r.readable then Try(d, nonce, r.attempt) else Tried(d, Some(""))
  }

  function AfterRetry(c: Chain, nonce: nat, a: Attempt, r: Retry): Chain {
    var d := Try(c, nonce, a).chain;
    if Retries(c, nonce, a) then TryAgain(d, nonce + 1, r).chain else d
  }

  /** At the end both transactions are among the accepted ones exactly if both attempts landed. */
  lemma BothAcceptedIff(c: Chain, nonce: nat, a: Attempt, r: Retry)
    requires c.Valid()
    ensures var txs := AfterRetry(c, nonce, a, r).accepted;
      Tx(c.issued, nonce, Other) in txs && Tx(c.issued + 1, nonce + 1, Other) in txs <==> BothLand(c, nonce, a, r)
  {
    var d := Try(c, nonce, a).chain;
    TryGrows(c, nonce, a);
    if Retries(c, nonce, a) {
      AdvanceGrows(d, r.moves);
      TryGrows(Advance(d, r.moves), nonce + 1, r.attempt);
    }
  }

  /** An attempt adds its own transaction or nothing. */
  lemma TryGrows(c: Chain, nonce: nat, a: Attempt)
    requires c.Valid()
    ensures var d := Try(c, nonce, a).chain;
      && d.Valid() && d.issued == c.issued + One(a.buildable)
      && d.accepted == c.accepted + if Lands(c, nonce, a) then {Tx(c.issued, nonce, Other)} else {}
  {
    AdvanceGrows(c, a.reply.moves);
    SendGrows(c, nonce, Other, a.reply);
  }

  /** buildAndSend: may fail before anything is sent. */
  method BuildAndSend(node: Node, p: Params, payerNonce: nat, eoaNonce: nat, read: Option<nat>, approved: Option<nat>,
                      a: Attempt)
    returns (err: Option<string>)
    requires node.Now().Valid() && p.deadline.Some? && p.permitAmount.Some?
    modifies node
    ensures Tried(node.Now(), err) == Try(old(node.Now()), eoaNonce, a) && node.Now().Valid()
    ensures node.broadcasts == old(node.broadcasts) +
      if a.buildable then [Draft(p, payerNonce, eoaNonce, read, approved, old(node.Now()))] else []
  {
    LandsIff(node.Now(), eoaNonce, a);
    if !a.buildable {
      return Some(a.text);
    }
    node.broadcasts := node.broadcasts + [Draft(p, payerNonce, eoaNonce, read, approved, node.Now())];
    SendGrows(node.Now(), eoaNonce, Other, a.reply);
    var tx, failed := node.SendTransaction(eoaNonce, Other, a.reply);
    err := if failed then Some(a.text) else None;
  }

  datatype Result = Done(payerNonce: nat) | Failed

  /** What the node decides during one call of Execute; reachable covers all that is read before the allowance. */
  datatype Course = Course(reachable: bool, story: Story, payerNonce: nat, first: Attempt, again: Retry)

  /** The node takes the broadcast and reports no error. */
  predicate Goes(a: Attempt) { a.buildable && !a.reply.error }

  /** The first attempt failed with a text that speaks of a nonce, and a fresh payer nonce can be read. */
  predicate TriesAgain(a: Attempt, again: Retry) { !Goes(a) && TxError.IsNonceErr(a.text) && again.readable }

  /** What a request comes to once its tokens are secured. */
  function Ending(payerNonce: nat, a: Attempt, again: Retry): Result {
    if Goes(a) then Done(payerNonce)
    else if TriesAgain(a, again) && Goes(again.attempt) then Done(again.payerNonce)
    else Failed
  }

  /** Tokens are to move, and no permit pays for them. */
  predicate NeedsAllowance(p: Params) { !p.tokenZero && p.erc0 + p.erc1 > 0 && !UsesPermit(p) }

  /** The chain and the next slot when the broadcasts begin. */
  function Begin(c: Chain, p: Params, pending: nat, story: Story): Ensured {
    if NeedsAllowance(p) then Ensure(c, p.erc0 + p.erc1, pending, story) else Ensured(c, Some(pending), None)
  }

  /** How many of the transactions issued since then have been mined. */
  ghost function MinedSince(mined: seq<Mined>, since: nat): nat {
    if mined == [] then 0 else MinedSince(mined[..|mined| - 1], since) + One(mined[|mined| - 1].tx.id >= since)
  }

  lemma {:induction false} NoneMinedSince(mined: seq<Mined>, since: nat)
    requires forall n :: 0 <= n < |mined| ==> mined[n].tx.id < since
    ensures MinedSince(mined, since) == 0
  {
    if mined == [] {
    } else {
      NoneMinedSince(mined[..|mined| - 1], since);
    }
  }

  lemma {:induction false} AllMinedSince(mined: seq<Mined>, start: nat, since: nat)
    requires start <= |mined| && forall n :: 0 <= n < |mined| ==> (mined[n].tx.id >= since <==> n >= start)
    ensures MinedSince(mined, since) == |mined| - start
  {
    if |mined| == start {
      NoneMinedSince(mined, since);
    } else {
      AllMinedSince(mined[..|mined| - 1], start, since);
    }
  }

  /** The slot of the first attempt is the pending one plus one for every approval of this call that was mined. */
  lemma SlotAfterApprovals(c: Chain, p: Params, pending: nat, story: Story)
    requires c.Valid() && c.FreeFrom(pending)
    ensures var e := Begin(c, p, pending, story);
      && e.chain.Valid()
      && (e.next.Some? ==> e.chain.FreeFrom(e.next.value))
      && (e.next.Some? ==> e.next.value == pending + MinedSince(e.chain.mined, c.issued))
      && (e.next.Some? && NeedsAllowance(p) && !Enough(e.read, p.erc0 + p.erc1) ==>
            e.chain.Settled() && e.chain.allowance == p.erc0 + p.erc1)
  {
    var e := Begin(c, p, pending, story);
    if !NeedsAllowance(p) || (e.next.Some? && Enough(e.read, p.erc0 + p.erc1)) {
      EnsureSecures(c, p.erc0 + p.erc1, pending, story);
      OldTransactions(e.chain);
      NoneMinedSince(e.chain.mined, c.issued);
    } else {
      EnsureSecures(c, p.erc0 + p.erc1, pending, story);
      if e.next.Some? {
        ApprovalsFill(e.chain, pending, e.next.value, c.issued);
      }
    }
  }

  /** Approvals that fill the slots from `start` on are all that has been mined since. */
  lemma ApprovalsFill(c: Chain, start: nat, next: nat, since: nat)
    requires c.Valid() && c.FreeFrom(next) && |c.mined| == next >= start
    requires forall n :: start <= n < next ==> c.mined[n].tx.id >= since
    requires forall m :: m in c.mined && m.tx.id >= since ==> m.tx.nonce >= start
    ensures next == start + MinedSince(c.mined, since) && c.Settled()
  {
    forall n | 0 <= n < |c.mined|
      ensures c.mined[n].tx.id >= since <==> n >= start
    {
      assert c.mined[n] in c.mined && c.mined[n].tx.nonce == n;
    }
    AllMinedSince(c.mined, start, since);
  }

  /** In a free slot the node's own word is the outcome, and the next slot is free afterwards. */
  lemma TryFree(c: Chain, nonce: nat, a: Attempt)
    requires c.Valid() && c.FreeFrom(nonce)
    ensures Try(c, nonce, a).err == (if Goes(a) then None else Some(a.text))
    ensures Try(c, nonce, a).chain.Valid() && Try(c, nonce, a).chain.FreeFrom(nonce + 1)
  {
    TryGrows(c, nonce, a);
    AdvanceFree(c, a.reply.moves, nonce);
    LengthAt(Try(c, nonce, a).chain, nonce + 1);
  }

  /**
   * With the tokens secured and this slot next: the first attempt goes there, if it can be built, and one more
   * attempt to the slot after it, with a fresh payer nonce, if the first one failed with a nonce error. Every
   * slot is free on the chain when its broadcast is handed over, and every broadcast is funded. The call is done
   * exactly if one of the two attempts goes, and reports that one's payer nonce.
   */
  ghost predicate Delivered(d: Chain, slot: nat, p: Params, course: Course, news: seq<Broadcast>, r: Result) {
    var retried := TriesAgain(course.first, course.again) && course.again.attempt.buildable;
    && r == Ending(course.payerNonce, course.first, course.again)
    && |news| == One(course.first.buildable) + One(retried)
    && (forall k :: 0 <= k < |news| ==> Funded(news[k], p) && news[k].before.FreeFrom(news[k].eoaNonce))
    && (course.first.buildable ==>
          && news[0].eoaNonce == slot && news[0].payerNonce == course.payerNonce && news[0].before == d
          && (news[0].approved.Some? ==> d.allowance == p.erc0 + p.erc1))
    && (retried ==>
          news[|news| - 1].eoaNonce == slot + 1 && news[|news| - 1].payerNonce == course.again.payerNonce)
  }

  /**
   * What a call of Execute that reaches the node does. Tokens are secured first, where that is needed, and the
   * call fails without a broadcast if they cannot be. Then the first attempt's slot is the pending one plus one
   * for every approval of this call that was mined.
   */
  ghost predicate Executed(c: Chain, p: Params, pending: nat, course: Course, news: seq<Broadcast>, r: Result) {
    var e := Begin(c, p, pending, course.story);
    if e.next.None? then r.Failed? && news == []
    else Delivered(e.chain, pending + MinedSince(e.chain.mined, c.issued), p, course, news, r)
  }

  /** Execute. A request that is refused up front, or whose reads fail, sends nothing at all. */
  method Execute(node: Node, p0: Params, pending: nat, course: Course) returns (r: Result)
    requires node.Now().Valid() && node.Now().FreeFrom(pending)
    modifies node
    ensures node.Now().Valid() && old(node.broadcasts) <= node.broadcasts
    ensures if Refused(p0) || !course.reachable
      then r.Failed? && node.Now() == old(node.Now()) && node.broadcasts == old(node.broadcasts)
      else Executed(old(node.Now()), p0, pending, course, node.broadcasts[|old(node.broadcasts)|..], r)
  {
    if p0.tokenZero && (p0.erc0 != 0 || p0.erc1 != 0) {
      return Failed;
    }
    if p0.native0 + p0.native1 + (p0.erc0 + p0.erc1) <= 0 {
      return Failed;
    }
    var p, ok := ValidatePermit(p0);
    if !ok || !course.reachable {
      return Failed;
    }
    r := ExecuteLocked(node, p, pending, course);
    Unfilled(old(node.Now()), p0, p, pending, course, node.broadcasts[|old(node.broadcasts)|..], r);
  }

  /** What ValidatePermit fills in makes no difference to what a call does. */
  lemma Unfilled(c: Chain, p0: Params, p: Params, pending: nat, course: Course, news: seq<Broadcast>, r: Result)
    requires p == p0.(deadline := p.deadline, permitAmount := p.permitAmount) && (UsesPermit(p) <==> UsesPermit(p0))
    requires Executed(c, p, pending, course, news, r)
    ensures Executed(c, p0, pending, course, news, r)
  {
    assert forall b :: Funded(b, p) ==> Funded(b, p0);
  }

  /** The part of Execute that runs under the payer's lock. */
  method ExecuteLocked(node: Node, p: Params, pending: nat, course: Course) returns (r: Result)
    requires node.Now().Valid() && node.Now().FreeFrom(pending)
    requires p.deadline.Some? && p.permitAmount.Some? && !Refused(p)
    modifies node
    ensures node.Now().Valid() && old(node.broadcasts) <= node.broadcasts
    ensures Executed(old(node.Now()), p, pending, course, node.broadcasts[|old(node.broadcasts)|..], r)
  {
    SlotAfterApprovals(node.Now(), p, pending, course.story);
    var eoaNonce, read, approved := SecureTokens(node, p, pending, course.story);
    if eoaNonce.None? {
      return Failed;
    }
    ghost var now := node.Now();
    r := SendWithRetry(node, p, eoaNonce.value, read, approved, course.payerNonce, course.first, course.again);
    SendingsFit(now, eoaNonce.value, p, course, read, approved);
    assert node.broadcasts[|old(node.broadcasts)|..] ==
           Sendings(now, p, eoaNonce.value, read, approved, course.payerNonce, course.first, course.again);
  }

  /** The next free slot, once the tokens of the request are paid for where no permit pays for them. */
  method SecureTokens(node: Node, p: Params, pending: nat, story: Story)
    returns (eoaNonce: Option<nat>, read: Option<nat>, approved: Option<nat>)
    requires node.Now().Valid() && node.Now().FreeFrom(pending) && p.deadline.Some? && !Refused(p)
    modifies node`mined, node`allowance, node`accepted, node`issued
    ensures node.Now() == Begin(old(node.Now()), p, pending, story).chain
    ensures eoaNonce == Begin(old(node.Now()), p, pending, story).next
    ensures eoaNonce.Some? ==> Paid(p, read, approved)
    ensures approved.Some? ==> !Enough(read, p.erc0 + p.erc1) && approved == Some(node.allowance) && NeedsAllowance(p)
  {
    var needed := p.erc0 + p.erc1;
    if p.tokenZero || needed <= 0 || p.deadline.value != 0 {
      return Some(pending), None, None;
    }
    SlotAfterApprovals(node.Now(), p, pending, story);
    eoaNonce, read := EnsureAllowance(node, needed, pending, story);
    approved := if Enough(read, needed) then None else Some(node.allowance);
  }

  /** What the two attempts broadcast, from the first slot on. */
  ghost function Sendings(c: Chain, p: Params, first: nat, read: Option<nat>, approved: Option<nat>,
                          payerNonce: nat, a: Attempt, again: Retry): seq<Broadcast>
    requires p.deadline.Some? && p.permitAmount.Some?
  {
    (if a.buildable then [Draft(p, payerNonce, first, read, approved, c)] else []) +
    if TriesAgain(a, again) && again.attempt.buildable
    then [Draft(p, again.payerNonce, first + 1, read, approved, Advance(Try(c, first, a).chain, again.moves))]
    else []
  }

  /** The tokens of this request are paid for by its permit, by what was read, or by what was approved. */
  ghost predicate Paid(p: Params, read: Option<nat>, approved: Option<nat>) {
    && !Refused(p)
    && (NeedsAllowance(p) ==> Enough(read, p.erc0 + p.erc1) || approved == Some(p.erc0 + p.erc1))
  }

  lemma DraftFunded(p: Params, payerNonce: nat, eoaNonce: nat, read: Option<nat>, approved: Option<nat>, before: Chain)
    requires p.deadline.Some? && p.permitAmount.Some? && Paid(p, read, approved)
    ensures Funded(Draft(p, payerNonce, eoaNonce, read, approved, before), p)
  {
  }

  /** With the tokens secured, what the two attempts broadcast is as it should be. */
  lemma SendingsFit(d: Chain, slot: nat, p: Params, course: Course, read: Option<nat>, approved: Option<nat>)
    requires d.Valid() && d.FreeFrom(slot) && p.deadline.Some? && p.permitAmount.Some? && Paid(p, read, approved)
    requires approved.Some? ==> d.allowance == p.erc0 + p.erc1
    ensures Delivered(d, slot, p, course,
                      Sendings(d, p, slot, read, approved, course.payerNonce, course.first, course.again),
                      Ending(course.payerNonce, course.first, course.again))
  {
    var later := Advance(Try(d, slot, course.first).chain, course.again.moves);
    TryFree(d, slot, course.first);
    AdvanceFree(Try(d, slot, course.first).chain, course.again.moves, slot + 1);
    DraftFunded(p, course.payerNonce, slot, read, approved, d);
    DraftFunded(p, course.again.payerNonce, slot + 1, read, approved, later);
  }

  /**
   * The first attempt and, after a nonce error, one more in the next slot with a fresh payer nonce. It leaves
   * the chain as AfterRetry says, about which see BothAcceptedIff.
   */
  method SendWithRetry(node: Node, p: Params, first: nat, read: Option<nat>, approved: Option<nat>,
                       payerNonce: nat, a: Attempt, again: Retry)
    returns (r: Result)
    requires node.Now().Valid() && node.Now().FreeFrom(first) && p.deadline.Some? && p.permitAmount.Some?
    modifies node
    ensures node.Now().Valid() && node.Now() == AfterRetry(old(node.Now()), first, a, again)
    ensures r == Ending(payerNonce, a, again)
    ensures node.broadcasts ==
      old(node.broadcasts) + Sendings(old(node.Now()), p, first, read, approved, payerNonce, a, again)
  {
    TryFree(node.Now(), first, a);
    var err := BuildAndSend(node, p, payerNonce, first, read, approved, a);
    if err.None? {
      return Done(payerNonce);
    }
    if !TxError.IsNonceErr(err.value) {
      return Failed;
    }
    r := SendAgain(node, p, first + 1, read, approved, again);
  }

  /** One more attempt with a fresh payer nonce, if that can be read. */
  method SendAgain(node: Node, p: Params, eoaNonce: nat, read: Option<nat>, approved: Option<nat>, again: Retry)
    returns (r: Result)
    requires node.Now().Valid() && node.Now().FreeFrom(eoaNonce) && p.deadline.Some? && p.permitAmount.Some?
    modifies node
    ensures node.Now().Valid() && node.Now() == TryAgain(old(node.Now()), eoaNonce, again).chain
    ensures r == if again.readable && Goes(again.attempt) then Done(again.payerNonce) else Failed
    ensures node.broadcasts == old(node.broadcasts) +
      if again.readable && again.attempt.buildable
      then [Draft(p, again.payerNonce, eoaNonce, read, approved, Advance(old(node.Now()), again.moves))] else []
  {
    AdvanceGrows(node.Now(), again.moves);
    AdvanceFree(node.Now(), again.moves, eoaNonce);
    TryFree(Advance(node.Now(), again.moves), eoaNonce, again.attempt);
    node.Proceed(again.moves);
    if !again.readable {
      return Failed;
    }
    var err := BuildAndSend(node, p, again.payerNonce, eoaNonce, read, approved, again.attempt);
    r := if err.None? then Done(again.payerNonce) else Failed;
  }

  /** What is refused before the lock is taken. */
  predicate Refused(p: Params) {
    var total := p.erc0 + p.erc1;
    || (p.tokenZero && total > 0)
    || p.native0 + p.native1 + total == 0
    || (UsesPermit(p) &&
        (p.tokenZero || total == 0 || p.permitAmount.None? || p.permitAmount.value < total ||
         p.permitR == 0 || p.permitS == 0))
  }
}
