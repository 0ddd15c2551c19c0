/** The other senders of a deployment: whatever can become of their calls does, and nobody else notices. */
module ClusterSenders {
  import opened Common
  import opened Cluster
  import opened ClusterSafety
  import opened ClusterTheorems
  import B = Batcher
  import ClusterProgress
  import ClusterSuccess
  import F = LockFates
  import L = NonceLock
  import Runs

  /** What a call reports that went this way. */
  ghost predicate AsReported(me: L.Session, kind: L.Kind, fate: F.Fate) {
    me.ok == (fate.Well() && (kind == L.Direct || fate.mined)) && me.hash == if fate.Well() then fate.hash else ""
  }

  /** The ledger has the transaction of a new session, if it was accepted. */
  ghost predicate Booked(l: L.State, accepted: map<L.Wallet, seq<L.Tx>>, w: L.Wallet, fate: F.Fate) {
    accepted ==
      if fate.Accepted() then
        l.accepted[w := l.Accepted(w) + [L.Tx(|l.sessions|, l.Pending(w), fate.hash, [])]]
      else l.accepted
  }

  /** A new session of wallet w went this way and is over. */
  ghost predicate Done(l: L.State, m: L.State, p: nat, w: L.Wallet, kind: L.Kind, fate: F.Fate) {
    var i := |l.sessions|;
    && |m.sessions| == i + 1 && (forall j :: 0 <= j < i ==> m.sessions[j] == l.sessions[j])
    && Booked(l, m.accepted, w, fate)
    && var me := m.sessions[i];
       me.pc == L.Finished && me.process == p && me.wallet == w && me.kind == kind && AsReported(me, kind, fate)
  }

  /** The session has its mutex and nothing has happened yet. */
  ghost predicate Begun(l: L.State, m: L.State, p: nat, w: L.Wallet, kind: L.Kind) {
    && m.sessions == l.sessions + [L.Session(p, w, L.KeyOf(w), kind, [], None, L.Local, None, "", false)]
    && m.entries == l.entries && m.distributed == l.distributed && m.accepted == l.accepted && m.base == l.base
  }

  /** It is about to unlock, and that will be the end. */
  ghost predicate AllButDone(l: L.State, n: L.State, p: nat, w: L.Wallet, kind: L.Kind, fate: F.Fate) {
    var i := |l.sessions|;
    && n.Is(i) && n.sessions[i].pc == L.Unlocking && n.sessions[i].wallet == w
    && Done(l, L.Apply(n, L.Unlock(i)), p, w, kind, fate)
  }

  /** Then it goes this way, up to its unlocking. */
  lemma GoesOn(l: L.State, m: L.State, p: nat, w: L.Wallet, kind: L.Kind, fate: F.Fate, delivered: bool)
    returns (acts: seq<L.Step>, n: L.State)
    requires Begun(l, m, p, w, kind) && L.Inv(m) && F.Room(l, L.KeyOf(w), fate) && kind != L.Account
    ensures F.ByItself(acts, |l.sessions|) && L.Valid(m, acts) && n == L.Exec(m, acts)
    ensures AllButDone(l, n, p, w, kind, fate)
  {
    var i, t := |l.sessions|, None;
    acts, t := F.FromLocal(m, i, fate, delivered);
    n := L.Exec(m, acts);
    Reports(l, m, p, w, kind, fate, delivered, t);
  }

  lemma Reports(l: L.State, m: L.State, p: nat, w: L.Wallet, kind: L.Kind, fate: F.Fate, delivered: bool,
                t: Option<L.Token>)
    requires Begun(l, m, p, w, kind)
    ensures var i := |l.sessions|;
      AllButDone(l, F.After(F.With(m, i, m.sessions[i].(token := t)), i, fate, delivered), p, w, kind, fate)
  {
    var i := |l.sessions|;
    var n := F.After(F.With(m, i, m.sessions[i].(token := t)), i, fate, delivered);
    assert n.accepted == F.LedgerAfter(m, i, fate);
    Ending(l, n, p, w, kind, fate);
  }

  /** What remains to be done is to unlock. */
  lemma Ending(l: L.State, n: L.State, p: nat, w: L.Wallet, kind: L.Kind, fate: F.Fate)
    requires |n.sessions| == |l.sessions| + 1 && forall j :: 0 <= j < |l.sessions| ==> n.sessions[j] == l.sessions[j]
    requires Booked(l, n.accepted, w, fate)
    requires var me := n.sessions[|l.sessions|];
      me.pc == L.Unlocking && me.process == p && me.wallet == w && me.kind == kind && AsReported(me, kind, fate)
    ensures AllButDone(l, n, p, w, kind, fate)
  {
  }


  /** The senders of process p are these now. */
  ghost function WithSenders(c: State, p: nat, senders: seq<B.Sender>): seq<B.State>
    requires p < |c.procs|
  {
    c.procs[p := c.procs[p].(senders := senders)]
  }

  lemma Arrives(c: State, p: nat, w: nat)
    requires p < |c.procs| && w < |c.pool| && |c.pool| == c.procs[p].wallets && w !in c.procs[p].walletLocks
    ensures var step, senders := Inner(p, B.ArriveSender(w)), c.procs[p].senders;
      && Enabled(c, step) && Apply(c, step) == c.(procs := WithSenders(c, p, senders + [B.Sender(w, B.Want)]))
      && Waits(Apply(c, step), p, |senders|, w)
      && WithSenders(Apply(c, step), p, Apply(c, step).procs[p].senders[|senders| := B.Sender(w, B.Done)]) ==
         WithSenders(c, p, senders + [B.Sender(w, B.Done)])
  {
    var senders := c.procs[p].senders;
    assert (senders + [B.Sender(w, B.Want)])[|senders| := B.Sender(w, B.Done)] == senders + [B.Sender(w, B.Done)];
  }

  /** The j-th sender of a process waits for its wallet, which is free. */
  ghost predicate Waits(c: State, p: nat, j: nat, w: nat) {
    && p < |c.procs| && j < |c.procs[p].senders| && c.procs[p].senders[j] == B.Sender(w, B.Want)
    && w < |c.pool| && w !in c.procs[p].walletLocks
  }

  /** It has its wallet, with a new session. */
  ghost predicate HasWallet(c: State, d: State, p: nat, j: nat, w: nat)
    requires Waits(c, p, j, w)
  {
    && d.pool == c.pool
    && d.current == c.current[(p, Of(B.BySender(j))) := |c.locks.sessions|]
    && d.procs == c.procs[p := c.procs[p].(senders := c.procs[p].senders[j := B.Sender(w, B.In)],
                                           walletLocks := c.procs[p].walletLocks[w := B.BySender(j)])]
  }

  lemma TakesIt(c: State, p: nat, j: nat, w: nat, kind: L.Kind)
    requires Waits(c, p, j, w) && Enabled(c, Enter(p, B.TakeWallet(j), kind))
    ensures HasWallet(c, Apply(c, Enter(p, B.TakeWallet(j), kind)), p, j, w)
    ensures Begun(c.locks, Apply(c, Enter(p, B.TakeWallet(j), kind)).locks, p, c.pool[w], kind)
  {
    BeginSession(c.locks, SessionStart(c, p, B.TakeWallet(j), kind));
  }

  lemma Takes(c: State, p: nat, j: nat, w: nat, kind: L.Kind) returns (steps: seq<Step>)
    requires Inv(c) && Waits(c, p, j, w) && (kind == L.Managed || kind == L.Direct)
    ensures PlainRun(c, steps) && Inv(Exec(c, steps)) && HasWallet(c, Exec(c, steps), p, j, w)
    ensures Begun(c.locks, Exec(c, steps).locks, p, c.pool[w], kind)
  {
    var b := B.TakeWallet(j);
    ClusterProgress.CanEnterAs(c, p, b, kind);
    TakesIt(c, p, j, w, kind);
    steps := ClusterSuccess.PlainStep(c, Enter(p, b, kind));
  }

  /** It is done, and gives back its wallet. */
  lemma Finishes(c: State, p: nat, j: nat, w: nat, i: nat)
    requires p < |c.procs| && j < |c.procs[p].senders| && c.procs[p].senders[j] == B.Sender(w, B.In)
    requires (p, Of(B.BySender(j))) in c.current && c.current[(p, Of(B.BySender(j)))] == i
    requires L.Enabled(c.locks, L.Unlock(i))
    ensures var step, s := Leave(p, B.Finish(j)), c.procs[p];
      && Enabled(c, step)
      && Apply(c, step).locks == L.Apply(c.locks, L.Unlock(i))
      && Apply(c, step).procs == c.procs[p := s.(senders := s.senders[j := B.Sender(w, B.Done)],
                                                walletLocks := s.walletLocks - {w})]
  {
  }

  /** The whole call of a sender that waits for its wallet. */
  lemma Calls(c: State, p: nat, j: nat, w: nat, kind: L.Kind, fate: F.Fate, delivered: bool)
    returns (steps: seq<Step>)
    requires Inv(c) && Waits(c, p, j, w) && (kind == L.Managed || kind == L.Direct)
    requires F.Room(c.locks, L.KeyOf(c.pool[w]), fate)
    ensures PlainRun(c, steps) && Done(c.locks, Exec(c, steps).locks, p, c.pool[w], kind, fate)
    ensures Exec(c, steps).procs ==
      WithSenders(c, p, c.procs[p].senders[j := B.Sender(w, B.Done)])
  {
    steps := Takes(c, p, j, w, kind);
    var rest := CallsFn(c, Exec(c, steps), p, j, w, kind, fate, delivered);
    steps := PlainJoin(c, steps, rest);
  }

  lemma CallsFn(c: State, d: State, p: nat, j: nat, w: nat, kind: L.Kind, fate: F.Fate, delivered: bool)
    returns (steps: seq<Step>)
    requires Waits(c, p, j, w) && HasWallet(c, d, p, j, w) && L.Inv(d.locks) && kind != L.Account
    requires Begun(c.locks, d.locks, p, c.pool[w], kind)
    requires F.Room(c.locks, L.KeyOf(c.pool[w]), fate)
    ensures PlainRun(d, steps) && Done(c.locks, Exec(d, steps).locks, p, c.pool[w], kind, fate)
    ensures Exec(d, steps).procs ==
      WithSenders(c, p, c.procs[p].senders[j := B.Sender(w, B.Done)])
  {
    var acts, n := GoesOn(c.locks, d.locks, p, c.pool[w], kind, fate, delivered);
    steps := ClusterSuccess.LiftOwn(d, acts, |c.locks.sessions|);
    var last := CallsLast(c, d.(locks := n), p, j, w, kind, fate);
    steps := PlainJoin(d, steps, last);
  }

  lemma CallsLast(c: State, e: State, p: nat, j: nat, w: nat, kind: L.Kind, fate: F.Fate) returns (steps: seq<Step>)
    requires Waits(c, p, j, w) && HasWallet(c, e, p, j, w)
    requires AllButDone(c.locks, e.locks, p, c.pool[w], kind, fate)
    ensures PlainRun(e, steps) && Done(c.locks, Exec(e, steps).locks, p, c.pool[w], kind, fate)
    ensures Exec(e, steps).procs ==
      WithSenders(c, p, c.procs[p].senders[j := B.Sender(w, B.Done)])
  {
    var i, s := |c.locks.sessions|, c.procs[p];
    Finishes(e, p, j, w, i);
    assert s.walletLocks[w := B.BySender(j)] - {w} == s.walletLocks;
    assert s.senders[j := B.Sender(w, B.In)][j := B.Sender(w, B.Done)] == s.senders[j := B.Sender(w, B.Done)];
    steps := PlainOne(e, Leave(p, B.Finish(j)));
  }

  /**
   * In every state that a run can reach, a sender may come for any free wallet of the pool, from any process, and
   * each way its call can go happens. It leaves the batcher as it was.
   */
  lemma SendersGoToo(g: Setup, past: seq<Step>, p: nat, w: nat, kind: L.Kind, fate: F.Fate, delivered: bool)
    returns (steps: seq<Step>)
    requires ProperPool(g.pool) && Valid(Init(g), past) && (kind == L.Managed || kind == L.Direct)
    requires var c := Exec(Init(g), past);
      p < |c.procs| && w < |c.pool| && w !in c.procs[p].walletLocks && F.Room(c.locks, L.KeyOf(c.pool[w]), fate)
    ensures var c := Exec(Init(g), past);
      && PlainRun(c, steps)
      && Done(c.locks, Exec(c, steps).locks, p, c.pool[w], kind, fate)
      && Exec(c, steps).procs == WithSenders(c, p, c.procs[p].senders + [B.Sender(w, B.Done)])
  {
    Reachable(g, past);
    var c := Exec(Init(g), past);
    steps := Comes(c, p, w, kind, fate, delivered);
  }

  lemma Comes(c: State, p: nat, w: nat, kind: L.Kind, fate: F.Fate, delivered: bool) returns (steps: seq<Step>)
    requires Inv(c) && p < |c.procs| && w < |c.pool| && w !in c.procs[p].walletLocks
    requires (kind == L.Managed || kind == L.Direct) && F.Room(c.locks, L.KeyOf(c.pool[w]), fate)
    ensures PlainRun(c, steps) && Done(c.locks, Exec(c, steps).locks, p, c.pool[w], kind, fate)
    ensures Exec(c, steps).procs == WithSenders(c, p, c.procs[p].senders + [B.Sender(w, B.Done)])
  {
    Arrives(c, p, w);
    steps := ClusterSuccess.PlainStep(c, Inner(p, B.ArriveSender(w)));
    var rest := Calls(Exec(c, steps), p, |c.procs[p].senders|, w, kind, fate, delivered);
    steps := PlainJoin(c, steps, rest);
  }

  /** Steps of the lock alone, and no expiry. */
  ghost predicate OwnActs(steps: seq<Step>) { forall step :: step in steps ==> step.Lock? && !step.a.Expire? }

  /** The same for a wallet that is not of the pool: the batchers are not concerned at all. */
  lemma OutsidersGoToo(g: Setup, past: seq<Step>, p: nat, w: L.Wallet, kind: L.Kind, fate: F.Fate, delivered: bool)
    returns (steps: seq<Step>)
    requires ProperPool(g.pool) && Valid(Init(g), past) && kind != L.Account
    requires var c := Exec(Init(g), past);
      w !in c.pool && (p, L.KeyOf(w)) !in c.locks.mutexes && F.Room(c.locks, L.KeyOf(w), fate)
    ensures var c := Exec(Init(g), past);
      && Valid(c, steps) && OwnActs(steps)
      && Done(c.locks, Exec(c, steps).locks, p, w, kind, fate) && Exec(c, steps).procs == c.procs
  {
    Reachable(g, past);
    var c := Exec(Init(g), past);
    steps := CallsFrom(c, p, w, kind, fate, delivered);
  }

  lemma CallsFrom(c: State, p: nat, w: L.Wallet, kind: L.Kind, fate: F.Fate, delivered: bool)
    returns (steps: seq<Step>)
    requires L.Inv(c.locks) && w !in c.pool && (p, L.KeyOf(w)) !in c.locks.mutexes && F.Room(c.locks, L.KeyOf(w), fate)
    requires kind != L.Account
    ensures Valid(c, steps) && OwnActs(steps)
    ensures Done(c.locks, Exec(c, steps).locks, p, w, kind, fate) && Exec(c, steps).procs == c.procs
  {
    var i, start := |c.locks.sessions|, Lock(L.Start(p, w, kind, []));
    var d, e := Starts(c, p, w, kind);
    steps := CallsOn(c.locks, e, p, w, kind, fate, delivered);
    steps := Runs.Cons(Apply, d, Lock(L.LockLocal(i)), steps);
    steps := Runs.Cons(Apply, c, start, steps);
  }

  lemma Starts(c: State, p: nat, w: L.Wallet, kind: L.Kind) returns (d: State, e: State)
    requires L.Inv(c.locks) && w !in c.pool && (p, L.KeyOf(w)) !in c.locks.mutexes && kind != L.Account
    ensures Enabled(c, Lock(L.Start(p, w, kind, []))) && d == Apply(c, Lock(L.Start(p, w, kind, [])))
    ensures Enabled(d, Lock(L.LockLocal(|c.locks.sessions|))) && e == Apply(d, Lock(L.LockLocal(|c.locks.sessions|)))
    ensures Begun(c.locks, e.locks, p, w, kind) && L.Inv(e.locks) && e.pool == c.pool && e.procs == c.procs
  {
    var i, start := |c.locks.sessions|, L.Start(p, w, kind, []);
    L.Begun(c.locks, p, w, kind);
    L.InvStep(c.locks, start);
    L.InvStep(L.Apply(c.locks, start), L.LockLocal(i));
    d := Apply(c, Lock(start));
    e := Apply(d, Lock(L.LockLocal(i)));
  }

  lemma CallsOn(l: L.State, d: State, p: nat, w: L.Wallet, kind: L.Kind, fate: F.Fate, delivered: bool)
    returns (steps: seq<Step>)
    requires Begun(l, d.locks, p, w, kind) && L.Inv(d.locks) && w !in d.pool && kind != L.Account
    requires F.Room(l, L.KeyOf(w), fate)
    ensures Valid(d, steps) && OwnActs(steps)
    ensures Done(l, Exec(d, steps).locks, p, w, kind, fate) && Exec(d, steps).procs == d.procs
  {
    var acts, n := GoesOn(l, d.locks, p, w, kind, fate, delivered);
    steps := ClusterSuccess.LiftOwn(d, acts, |l.sessions|);
    Unlocks(l, d.(locks := n), p, w, kind, fate);
    var unlock := Lock(L.Unlock(|l.sessions|));
    Runs.Snoc(Apply, d, steps, unlock);
    assert OwnActs(steps);
    steps := steps + [unlock];
  }

  lemma Unlocks(l: L.State, e: State, p: nat, w: L.Wallet, kind: L.Kind, fate: F.Fate)
    requires AllButDone(l, e.locks, p, w, kind, fate) && w !in e.pool
    ensures var unlock := Lock(L.Unlock(|l.sessions|));
      && Enabled(e, unlock) && Apply(e, unlock).procs == e.procs
      && Done(l, Apply(e, unlock).locks, p, w, kind, fate)
  {
  }
}
