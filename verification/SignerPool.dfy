/** The hot-wallet pools (internal/signer/manager.go). */
module SignerPool {
  import opened Common
  import opened LockKeys
  import KeyedSort
  import RoundRobin

  /** A loaded key; its content does not matter here. */
  type Account = nat

  // ---------- Trailing indices ----------

  /** strings.LastIndexByte(name, '_'); -1 if there is none. */
  function LastUnderscore(name: string): (i: int)
    ensures -1 <= i < |name| && (i >= 0 ==> name[i] == '_') && forall k :: i < k < |name| ==> name[k] != '_'
  {
    if name == "" then -1
    else if name[|name| - 1] == '_' then |name| - 1
    else LastUnderscore(name[..|name| - 1])
  }

  predicate AllDigits(s: string) { s != "" && forall i :: 0 <= i < |s| ==> IsDigit(s[i]) }

  /** strconv.Atoi: an optional sign, digits, within int64. */
  function Atoi(s: string): Option<int> {
    var signed := s != "" && (s[0] == '-' || s[0] == '+');
    var digits := if signed then s[1..] else s;
    if !AllDigits(digits) then None
    else
      var n: int := if signed && s[0] == '-' then 0 - ParseNat(digits) else ParseNat(digits);
      if INT64_MIN <= n <= INT64_MAX then Some(n) else None
  }

  function TrailingIndex(name: string): int {
    var i := LastUnderscore(name);
    if i < 0 then 0
    else
      var n := Atoi(name[i + 1..]);
      if n.Some? then n.value else 0
  }

  /** A name built from any prefix and an index is ordered by that index as a number, so _2 comes before _10. */
  lemma IndexOfName(prefix: string, i: nat)
    requires prefix != "" && prefix[|prefix| - 1] == '_' && i <= INT64_MAX
    ensures TrailingIndex(prefix + FormatNat(i)) == i
  {
    Suffix(prefix, FormatNat(i));
    ParseFormatNat(i);
    assert FormatNat(i)[0] != '-' && FormatNat(i)[0] != '+';
  }

  /** The part after the last underscore of a name. */
  lemma Suffix(prefix: string, rest: string)
    requires prefix != "" && prefix[|prefix| - 1] == '_' && '_' !in rest
    ensures LastUnderscore(prefix + rest) == |prefix| - 1
    ensures (prefix + rest)[LastUnderscore(prefix + rest) + 1..] == rest
  {
    var name := prefix + rest;
    assert name[|prefix| - 1] == '_';
    assert forall k :: |prefix| <= k < |name| ==> name[k] == rest[k - |prefix|];
  }

  /** A sign counts: a minus turns the index around. */
  lemma IndexOfSigned(prefix: string, i: nat)
    requires prefix != "" && prefix[|prefix| - 1] == '_' && i <= INT64_MAX
    ensures TrailingIndex(prefix + ("-" + FormatNat(i))) == 0 - i
    ensures TrailingIndex(prefix + ("+" + FormatNat(i))) == i
  {
    ParseFormatNat(i);
    Suffix(prefix, "-" + FormatNat(i));
    Suffix(prefix, "+" + FormatNat(i));
    assert ("-" + FormatNat(i))[1..] == FormatNat(i) == ("+" + FormatNat(i))[1..];
  }

  /** Names without a number after the last underscore, or with one that is too large, count as index 0. */
  lemma IndexWithoutNumber(prefix: string, rest: string)
    requires prefix != "" && prefix[|prefix| - 1] == '_' && '_' !in rest
    requires rest == "" || (!IsDigit(rest[0]) && rest[0] != '-' && rest[0] != '+') ||
             (AllDigits(rest) && ParseNat(rest) > INT64_MAX)
    ensures TrailingIndex(prefix + rest) == 0 && ('_' !in rest ==> TrailingIndex(rest) == 0)
  {
    Suffix(prefix, rest);
  }

  // ---------- Sorting ----------

  ghost predicate DistinctIndices(names: seq<string>) { KeyedSort.DistinctKeys(TrailingIndex, names) }

  /** What sortByTrailingIndex may make of the names. */
  ghost predicate SortOutcome(names: seq<string>, sorted: seq<string>) {
    KeyedSort.Outcome(TrailingIndex, names, sorted)
  }

  // ---------- Building a pool ----------

  datatype Lookup = Found(account: Account) | Missing | Broken(error: string)

  /** The keystore with its decryption: its names for the chain (None on error) and what loading a name gives. */
  datatype Keystore = Keystore(names: Option<seq<string>>, keys: map<string, Lookup>) {
    function TryLoad(name: string): Lookup { if name in keys then keys[name] else Missing }
  }

  /** OWNER_KEY or BUNDLER_PRIVATE_KEY. */
  datatype EnvKey = Unset | Unparsable | Key(account: Account)

  datatype PoolResult = Ok(pool: seq<Account>) | Err

  /** The accounts behind the names in order, unless one of them cannot be loaded. */
  function LoadAll(ks: Keystore, names: seq<string>): PoolResult {
    if names == [] then Ok([])
    else
      var init := LoadAll(ks, names[..|names| - 1]);
      var last := ks.TryLoad(names[|names| - 1]);
      if init.Ok? && last.Found? then Ok(init.pool + [last.account]) else Err
  }

  /** Everything buildPool may return, given that the sort may leave equal indices in any order. */
  ghost predicate PoolOutcome(env: EnvKey, enabled: bool, ks: Keystore, r: PoolResult) {
    if env.Key? then r == Ok([env.account])
    else if env.Unparsable? || !enabled || ks.names.None? then r == Err
    else if ks.names.value != [] then
      exists sorted :: SortOutcome(ks.names.value, sorted) && r == LoadAll(ks, sorted)
    else if ks.TryLoad("owner_key").Found? then r == Ok([ks.TryLoad("owner_key").account])
    else r == Err
  }

  lemma {:induction false} LoadAllShape(ks: Keystore, names: seq<string>)
    ensures LoadAll(ks, names).Ok? <==> forall i :: 0 <= i < |names| ==> ks.TryLoad(names[i]).Found?
    ensures LoadAll(ks, names).Ok? ==>
      |LoadAll(ks, names).pool| == |names| &&
      forall i :: 0 <= i < |names| ==> LoadAll(ks, names).pool[i] == ks.TryLoad(names[i]).account
  {
    if names == [] {
    } else {
      var init := names[..|names| - 1];
      LoadAllShape(ks, init);
      assert forall i :: 0 <= i < |init| ==> init[i] == names[i];
    }
  }

  class Manager {
    const env: EnvKey
    const enabled: bool
    var pools: map<int, seq<Account>>

    constructor (env: EnvKey, enabled: bool)
      ensures this.env == env && this.enabled == enabled && pools == map[] && Valid()
    {
      this.env := env;
      this.enabled := enabled;
      pools := map[];
    }

    /** Every pool that was ever built has a wallet in it. */
    ghost predicate Valid()
      reads this
    {
      forall c :: c in pools ==> pools[c] != []
    }

    method BuildPool(ks: Keystore) returns (r: PoolResult)
      ensures PoolOutcome(env, enabled, ks, r)
      ensures r.Ok? ==> r.pool != []
    {
      match env
      case Key(a) => return Ok([a]);
      case Unparsable => return Err;
      case Unset =>
      if !enabled || ks.names.None? {
        return Err;
      }
      if ks.names.value != [] {
        var sorted := KeyedSort.Sort(TrailingIndex, ks.names.value);
        r := LoadNames(ks, sorted);
        KeyedSort.SameLength(ks.names.value, sorted);
        LoadAllShape(ks, sorted);
        return;
      }
      var owner := ks.TryLoad("owner_key");
      return if owner.Found? then Ok([owner.account]) else Err;
    }

    static method LoadNames(ks: Keystore, names: seq<string>) returns (r: PoolResult)
      ensures r == LoadAll(ks, names)
    {
      var pool := [];
      var k := 0;
      while k < |names|
        invariant 0 <= k <= |names|
        invariant LoadAll(ks, names[..k]) == Ok(pool)
      {
        assert names[..k + 1][..k] == names[..k];
        var acc := ks.TryLoad(names[k]);
        if !acc.Found? {
          LoadAllShape(ks, names);
          return Err;
        }
        pool := pool + [acc.account];
        k := k + 1;
      }
      assert names[..|names|] == names;
      r := Ok(pool);
    }

    /**
     * A chain's pool is built once: later calls return the same wallets whatever the keystore has
     * become. A failure is not remembered, and no other chain is affected.
     */
    method BundlerPool(chain: int, ks: Keystore) returns (r: PoolResult)
      requires Valid()
      modifies this
      ensures Valid()
      ensures chain in old(pools) ==> r == Ok(old(pools)[chain]) && pools == old(pools)
      ensures chain !in old(pools) ==> PoolOutcome(env, enabled, ks, r)
      ensures chain !in old(pools) ==> pools == if r.Ok? then old(pools)[chain := r.pool] else old(pools)
      ensures r.Ok? ==> r.pool != []
    {
      if chain in pools {
        return Ok(pools[chain]);
      }
      r := BuildPool(ks);
      if r.Ok? {
        pools := pools[chain := r.pool];
      }
    }

    /** The first wallet of the pool. */
    method PrimaryBundler(chain: int, ks: Keystore) returns (a: Option<Account>)
      requires Valid()
      modifies this
      ensures Valid()
      ensures a.Some? <==> chain in pools
      ensures a.Some? ==> a.value == pools[chain][0]
      ensures chain in old(pools) ==> pools == old(pools)
      ensures chain !in old(pools) && a.Some? ==> PoolOutcome(env, enabled, ks, Ok(pools[chain]))
    {
      var r := BundlerPool(chain, ks);
      a := if r.Ok? then Some(r.pool[0]) else None;
    }

    /** The wallet at the cursor; the cursor always points into the pool. */
    method SelectBundler(chain: int, ks: Keystore, locker: RoundRobin.Locker, reachable: bool)
      returns (a: Option<Account>)
      requires Valid() && forall c :: c in pools ==> |pools[c]| <= INT64_MAX / 2
      requires ks.names.Some? ==> |ks.names.value| <= INT64_MAX / 2
      modifies this, locker, locker.rdb
      ensures Valid()
      ensures a.Some? ==> chain in pools
      ensures chain in pools ==>
        var pool, next := pools[chain], old(locker.Next(FormatInt(chain), reachable));
        |pool| > 0 && a == if |pool| > 1 && next.None? then None else Some(pool[RoundRobin.WalletIndex(next, |pool|)])
    {
      var r := BundlerPool(chain, ks);
      if r.Err? {
        return None;
      }
      if |r.pool| == 1 {
        return Some(r.pool[0]);
      }
      PoolSize(env, enabled, ks, r);
      var i := locker.NextIndex(FormatInt(chain), |r.pool|, reachable);
      a := if i.Some? then Some(r.pool[i.value]) else None;
    }

    /**
     * The wallet of the next batch (queueFor and dispatch of internal/userop/batcher.go): the pool is not
     * empty, so the index is in range even when the cursor fails and wallet 0 is used.
     */
    method DispatchWallet(chain: int, ks: Keystore, locker: RoundRobin.Locker, reachable: bool)
      returns (r: PoolResult, i: nat)
      requires Valid() && forall c :: c in pools ==> |pools[c]| <= INT64_MAX / 2
      requires ks.names.Some? ==> |ks.names.value| <= INT64_MAX / 2
      modifies this, locker, locker.rdb
      ensures Valid() && (r.Ok? <==> chain in pools) && (r.Ok? ==> r.pool == pools[chain])
      ensures r.Ok? ==> i < |r.pool|
      ensures r.Ok? ==> i == RoundRobin.WalletIndex(old(locker.Next(FormatInt(chain), reachable)), |r.pool|)
    {
      r := BundlerPool(chain, ks);
      if r.Err? {
        return r, 0;
      }
      PoolSize(env, enabled, ks, r);
      var drawn := locker.NextIndex(FormatInt(chain), |r.pool|, reachable);
      i := if drawn.Some? then drawn.value else 0;
    }
  }

  lemma PoolSize(env: EnvKey, enabled: bool, ks: Keystore, r: PoolResult)
    ensures PoolOutcome(env, enabled, ks, r) && r.Ok? ==>
      |r.pool| == 1 || (ks.names.Some? && |r.pool| == |ks.names.value|)
  {
    if PoolOutcome(env, enabled, ks, r) && r.Ok? && env.Unset? && enabled && ks.names.value != [] {
      var sorted :| SortOutcome(ks.names.value, sorted) && r == LoadAll(ks, sorted);
      KeyedSort.SameLength(ks.names.value, sorted);
      LoadAllShape(ks, sorted);
    }
  }

  /**
   * Determinism: whatever order the keystore lists its names in and however the sort treats them, as
   * long as the trailing indices are distinct the pool is the same.
   */
  lemma PoolDeterministic(env: EnvKey, enabled: bool, a: Keystore, b: Keystore, r: PoolResult, t: PoolResult)
    requires a.names.Some? && b.names.Some? && a.keys == b.keys
    requires multiset(a.names.value) == multiset(b.names.value) && DistinctIndices(a.names.value)
    requires PoolOutcome(env, enabled, a, r) && PoolOutcome(env, enabled, b, t)
    ensures r == t
  {
    KeyedSort.SameLength(a.names.value, b.names.value);
    if env.Unset? && enabled && a.names.value != [] {
      var x :| SortOutcome(a.names.value, x) && r == LoadAll(a, x);
      var y :| SortOutcome(b.names.value, y) && t == LoadAll(b, y);
      KeyedSort.DistinctInAnyOrder(TrailingIndex, a.names.value, x);
      KeyedSort.SortUnique(TrailingIndex, x, y);
      SameLoads(a, b, x);
    }
  }

  lemma SameLoads(a: Keystore, b: Keystore, names: seq<string>)
    requires a.keys == b.keys
    ensures LoadAll(a, names) == LoadAll(b, names)
  {
    LoadAllShape(a, names);
    LoadAllShape(b, names);
    assert forall i :: 0 <= i < |names| ==> a.TryLoad(names[i]) == b.TryLoad(names[i]);
  }

  /**
   * When there is a pool at all, and whose wallets it has: the environment's key alone; or, with the keystore in
   * use, one wallet for each name, provided that all of them load, and the owner's key if there are no names.
   */
  lemma PoolExistsIff(env: EnvKey, enabled: bool, ks: Keystore, r: PoolResult)
    requires PoolOutcome(env, enabled, ks, r)
    ensures r.Ok? <==>
      || env.Key?
      || (env.Unset? && enabled && ks.names.Some? &&
          forall name :: name in (if ks.names.value == [] then ["owner_key"] else ks.names.value) ==>
            name in ks.keys && ks.keys[name].Found?)
    ensures r.Ok? && env.Key? ==> r.pool == [env.account]
    ensures r.Ok? && env.Unset? ==>
      forall a :: a in r.pool <==>
        exists name :: name in (if ks.names.value == [] then ["owner_key"] else ks.names.value) &&
                       name in ks.keys && ks.keys[name] == Found(a)
  {
    if env.Unset? && enabled && ks.names.Some? {
      if ks.names.value == [] {
        assert "owner_key" in ["owner_key"];
      } else {
        var sorted :| SortOutcome(ks.names.value, sorted) && r == LoadAll(ks, sorted);
        SameNames(ks.names.value, sorted);
        LoadAllShape(ks, sorted);
        LoadedFrom(ks, sorted);
      }
    }
  }

  lemma SameNames(names: seq<string>, sorted: seq<string>)
    requires SortOutcome(names, sorted)
    ensures forall name :: name in names <==> name in sorted
  {
    assert forall name :: name in names <==> multiset(names)[name] > 0;
    assert forall name :: name in sorted <==> multiset(sorted)[name] > 0;
  }

  lemma LoadedFrom(ks: Keystore, names: seq<string>)
    ensures LoadAll(ks, names).Ok? <==> forall name :: name in names ==> name in ks.keys && ks.keys[name].Found?
    ensures LoadAll(ks, names).Ok? ==>
      forall a :: a in LoadAll(ks, names).pool <==>
        exists name :: name in names && name in ks.keys && ks.keys[name] == Found(a)
  {
    LoadAllShape(ks, names);
    var r := LoadAll(ks, names);
    if r.Ok? {
      forall a | a in r.pool
        ensures exists name :: name in names && name in ks.keys && ks.keys[name] == Found(a)
      {
        var i :| 0 <= i < |r.pool| && r.pool[i] == a;
        assert names[i] in names && ks.TryLoad(names[i]).Found?;
      }
      forall a | exists name :: name in names && name in ks.keys && ks.keys[name] == Found(a)
        ensures a in r.pool
      {
        var name :| name in names && name in ks.keys && ks.keys[name] == Found(a);
        var i :| 0 <= i < |names| && names[i] == name;
        assert r.pool[i] == a;
      }
    }
  }

  /** The primary wallet of a keystore pool is the account of a name with the smallest trailing index. */
  lemma PrimaryIsSmallestIndex(ks: Keystore, r: PoolResult) returns (name: string)
    requires ks.names.Some? && ks.names.value != [] && PoolOutcome(Unset, true, ks, r) && r.Ok?
    ensures r.pool != [] && name in ks.names.value && ks.TryLoad(name) == Found(r.pool[0])
    ensures forall other :: other in ks.names.value ==> TrailingIndex(name) <= TrailingIndex(other)
  {
    var sorted :| SortOutcome(ks.names.value, sorted) && r == LoadAll(ks, sorted);
    KeyedSort.SameLength(ks.names.value, sorted);
    LoadAllShape(ks, sorted);
    name := sorted[0];
    assert name in multiset(ks.names.value);
    forall other | other in ks.names.value
      ensures TrailingIndex(name) <= TrailingIndex(other)
    {
      assert other in multiset(sorted);
      var k :| 0 <= k < |sorted| && sorted[k] == other;
    }
  }
}
