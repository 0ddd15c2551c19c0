/** The round-robin wallet cursor (internal/platform/redis/redis.go). */
module RoundRobin {
  import opened Common

  /** Go's %, which takes the sign of the dividend. */
  function Rem(a: int, n: int): int
    requires n > 0
  {
    if a >= 0 then a % n else -((-a) % n)
  }

  /** The index computed from the value of INCR. */
  function Corrected(v: int, n: int): int
    requires n > 0
  {
    Rem(Rem(v, n) + n, n)
  }

  lemma MulOrder(p: int, q: int, n: int)
    requires n > 0
    ensures p < q ==> p * n + n <= q * n
  {
    if p < q {
      var d := q - p - 1;
      assert d * n >= 0;
      assert q * n == d * n + p * n + n;
    }
  }

  lemma DivModUnique(a: int, n: int, q: int, r: int)
    requires n > 0 && 0 <= r < n && a == q * n + r
    ensures a / n == q && a % n == r
  {
    var p := a / n;
    assert a == p * n + a % n;
    MulOrder(p, q, n);
    MulOrder(q, p, n);
  }

  lemma NegatedRemainder(a: int, n: int)
    requires a > 0 && n > 0
    ensures (-a) % n == if a % n == 0 then 0 else n - a % n
  {
    var q, r := a / n, a % n;
    assert a == q * n + r;
    assert (-q) * n == -(q * n);
    if r == 0 {
      DivModUnique(-a, n, -q, 0);
    } else {
      assert (-q - 1) * n == -(q * n) - n;
      DivModUnique(-a, n, -q - 1, n - r);
    }
  }

  lemma RemainderOfSum(r: int, n: int)
    requires 0 <= r < n
    ensures (r + n) % n == r
  {
    DivModUnique(r + n, n, 1, r);
  }

  /**
   * The corrected truncated remainder is the Euclidean one, for negative counters too; nothing leaves int64
   * on the way if the pool is not absurdly large.
   */
  lemma CorrectedIsEuclidean(v: int, n: int)
    requires n > 0
    ensures Corrected(v, n) == v % n
    ensures n <= INT64_MAX / 2 ==> INT64_MIN <= Rem(v, n) + n <= INT64_MAX
  {
    if v >= 0 {
      RemainderOfSum(v % n, n);
    } else {
      NegatedRemainder(-v, n);
      if (-v) % n == 0 {
        RemainderOfSum(0, n);
      } else {
        DivModUnique(n - (-v) % n, n, 0, n - (-v) % n);
      }
    }
  }

  /**
   * Batcher.nextIndex: the index for a pool of n wallets from the value of the cursor, whatever that is, or 0
   * if the cursor failed. It points into every pool that is not empty.
   */
  function WalletIndex(counter: Option<int>, n: nat): (i: nat)
    requires n > 0
    ensures i < n
    ensures i == if counter.Some? then counter.value % n else 0
  {
    if n <= 1 || counter.None? then 0
    else
      CorrectedIsEuclidean(counter.value, n);
      Corrected(counter.value, n)
  }

  /** The Redis counters. */
  class Server {
    var counters: map<string, int>

    constructor ()
      ensures counters == map[]
    {
      counters := map[];
    }

    function Value(key: string): int
      reads this
    {
      if key in counters then counters[key] else 0
    }

    /** INCR: may be unreachable, and errors instead of passing the largest int64. */
    method Incr(key: string, reachable: bool) returns (v: Option<int>)
      modifies this
      ensures v.Some? <==> reachable && old(Value(key)) < INT64_MAX
      ensures v.Some? ==> v.value == old(Value(key)) + 1 && counters == old(counters)[key := v.value]
      ensures v.None? ==> counters == old(counters)
    {
      if !reachable || Value(key) >= INT64_MAX {
        return None;
      }
      v := Some(Value(key) + 1);
      counters := counters[key := v.value];
    }
  }

  /** The cursor part of redis.Locker; rdb is null when Redis is not configured. */
  class Locker {
    const rdb: Server?
    var cursors: map<string, nat>

    constructor (rdb: Server?)
      ensures this.rdb == rdb && cursors == map[]
    {
      this.rdb := rdb;
      cursors := map[];
    }

    function Cursor(key: string): nat
      reads this
    {
      if key in cursors then cursors[key] else 0
    }

    /** The value the cursor yields next; None if Redis cannot give one. */
    function Next(key: string, reachable: bool): Option<int>
      reads this, rdb
    {
      if rdb == null then Some(Cursor(key))
      else if reachable && rdb.Value("walletcursor:" + key) < INT64_MAX then Some(rdb.Value("walletcursor:" + key) + 1)
      else None
    }

    method NextIndexLocal(key: string, n: nat) returns (i: nat)
      requires n > 0
      modifies this
      ensures i == old(Cursor(key)) % n
      ensures cursors == old(cursors)[key := (old(Cursor(key)) + 1) % UINT64]
    {
      var cur := Cursor(key);
      cursors := cursors[key := (cur + 1) % UINT64];
      i := cur % n;
    }

    /**
     * An index is always in range of a pool of n wallets. A failed draw changes nothing; a draw
     * advances exactly one cursor, the server's if there is one.
     */
    method NextIndex(key: string, n: nat, reachable: bool) returns (i: Option<nat>)
      requires n <= INT64_MAX / 2
      modifies this, rdb
      ensures n <= 1 ==> i == Some(0) && cursors == old(cursors) && (rdb != null ==> rdb.counters == old(rdb.counters))
      ensures n > 1 ==> (i.Some? <==> old(Next(key, reachable)).Some?)
      ensures n > 1 && i.Some? ==>
        i.value == WalletIndex(old(Next(key, reachable)), n) == old(Next(key, reachable)).value % n
      ensures n > 1 && rdb == null ==> cursors == old(cursors)[key := (old(Cursor(key)) + 1) % UINT64]
      ensures n > 1 && rdb != null ==>
        && cursors == old(cursors)
        && rdb.counters ==
             if i.Some? then old(rdb.counters)["walletcursor:" + key := old(Next(key, reachable)).value]
             else old(rdb.counters)
    {
      if n <= 1 {
        return Some(0);
      }
      if rdb == null {
        CorrectedIsEuclidean(Cursor(key), n);
        var local := NextIndexLocal(key, n);
        return Some(local);
      }
      var v := rdb.Incr("walletcursor:" + key, reachable);
      if v.None? {
        return None;
      }
      CorrectedIsEuclidean(v.value, n);
      i := Some(Corrected(v.value, n));
    }
  }

  /**
   * Any number of lockers, one per process, draw in any order (turns[k] is the process that draws
   * k-th) from one server that answers. The indices drawn are the same as if one process had drawn them.
   */
  method DrawInTurns(server: Server, lockers: seq<Locker>, turns: seq<nat>, key: string, n: nat)
    returns (drawn: seq<nat>)
    requires 1 < n <= INT64_MAX / 2
    requires forall p :: 0 <= p < |lockers| ==> lockers[p].rdb == server
    requires forall k :: 0 <= k < |turns| ==> turns[k] < |lockers|
    requires server.Value("walletcursor:" + key) + |turns| <= INT64_MAX
    modifies server, lockers
    ensures drawn == Cycle(old(server.Value("walletcursor:" + key)) + 1, |turns|, n)
    ensures server.Value("walletcursor:" + key) == old(server.Value("walletcursor:" + key)) + |turns|
  {
    drawn := [];
    var k := 0;
    ghost var v0 := server.Value("walletcursor:" + key);
    while k < |turns|
      invariant 0 <= k <= |turns|
      invariant server.Value("walletcursor:" + key) == v0 + k
      invariant drawn == Cycle(v0 + 1, k, n)
    {
      var i := lockers[turns[k]].NextIndex(key, n, true);
      drawn := drawn + [i.value];
      k := k + 1;
    }
  }

  /** `count` consecutive draws from a cursor standing at `first`. */
  function Cycle(first: int, count: nat, n: nat): (s: seq<nat>)
    requires n > 0
    ensures |s| == count && forall k :: 0 <= k < count ==> s[k] == (first + k) % n
  {
    if count == 0 then [] else Cycle(first, count - 1, n) + [(first + count - 1) % n]
  }

  function Hits(s: seq<nat>, w: nat): nat {
    if s == [] then 0 else Hits(s[..|s| - 1], w) + (if s[|s| - 1] == w then 1 else 0)
  }

  /** How many integers below m (counted from a fixed far point) are congruent to w. */
  function Below(m: int, n: nat, w: nat): int
    requires w < n
  {
    (m + n - 1 - w) / n
  }

  lemma BelowStep(m: int, n: nat, w: nat)
    requires w < n
    ensures Below(m + 1, n, w) == Below(m, n, w) + (if m % n == w then 1 else 0)
  {
    var q, r := m / n, m % n;
    assert m == q * n + r;
    if r >= w {
      assert m + n - w == (q + 1) * n + (r - w);
      DivModUnique(m + n - w, n, q + 1, r - w);
    } else {
      assert m + n - w == q * n + (r + n - w);
      DivModUnique(m + n - w, n, q, r + n - w);
    }
    if r > w {
      assert m + n - 1 - w == (q + 1) * n + (r - 1 - w);
      DivModUnique(m + n - 1 - w, n, q + 1, r - 1 - w);
    } else {
      assert m + n - 1 - w == q * n + (r + n - 1 - w);
      DivModUnique(m + n - 1 - w, n, q, r + n - 1 - w);
    }
  }

  lemma CycleStep(first: int, count: nat, n: nat, w: nat, k: nat)
    requires w < n && k < count
    ensures Below(first + k + 1, n, w) == Below(first + k, n, w) + (if Cycle(first, count, n)[k] == w then 1 else 0)
  {
    BelowStep(first + k, n, w);
  }

  lemma {:induction false} HitsOfCycle(first: int, count: nat, n: nat, w: nat, marks: seq<int>)
    requires w < n && |marks| == count + 1
    requires forall k :: 0 <= k <= count ==> marks[k] == Below(first + k, n, w)
    ensures Hits(Cycle(first, count, n), w) == marks[count] - marks[0]
  {
    if count == 0 {
    } else {
      var s := Cycle(first, count, n);
      assert s[..count - 1] == Cycle(first, count - 1, n);
      HitsOfCycle(first, count - 1, n, w, marks[..count]);
      CycleStep(first, count, n, w, count - 1);
    }
  }

  lemma QuotientOfSum(x: int, c: nat, n: nat)
    requires n > 0
    ensures c / n <= (x + c) / n - x / n <= c / n + 1
    ensures c % n == 0 ==> (x + c) / n - x / n == c / n
  {
    var q, r, p, t := x / n, x % n, c / n, c % n;
    assert x == q * n + r && c == p * n + t;
    assert (q + p) * n == q * n + p * n;
    if r + t < n {
      DivModUnique(x + c, n, q + p, r + t);
    } else {
      assert (q + p + 1) * n == q * n + p * n + n;
      DivModUnique(x + c, n, q + p + 1, r + t - n);
    }
  }

  /** Over any run of draws every wallet gets its share, rounded down or up. */
  lemma FairShare(first: int, count: nat, n: nat, w: nat)
    requires w < n
    ensures count / n <= Hits(Cycle(first, count, n), w) <= count / n + 1
    ensures count % n == 0 ==> Hits(Cycle(first, count, n), w) == count / n
  {
    HitsOfCycle(first, count, n, w, seq(count + 1, k => Below(first + k, n, w)));
    QuotientOfSum(first + n - 1 - w, count, n);
    assert first + count + n - 1 - w == first + n - 1 - w + count;
  }

  /** Any n consecutive draws hit every wallet exactly once. */
  lemma EachWalletOnce(first: int, n: nat, w: nat)
    requires w < n
    ensures Hits(Cycle(first, n, n), w) == 1
  {
    DivModUnique(n, n, 1, 0);
    FairShare(first, n, n, w);
  }

  /** Over any run, two wallets' counts differ by at most one. */
  lemma Balanced(first: int, count: nat, n: nat, v: nat, w: nat)
    requires v < n && w < n
    ensures -1 <= Hits(Cycle(first, count, n), v) - Hits(Cycle(first, count, n), w) <= 1
  {
    FairShare(first, count, n, v);
    FairShare(first, count, n, w);
  }

  /** A fresh local cursor and a fresh Redis cursor run through the same cycle, one draw apart. */
  lemma LocalIsRedisShifted(count: nat, n: nat)
    requires n > 0
    ensures Cycle(0, count + 1, n)[1..] == Cycle(1, count, n)
  {
  }
}
