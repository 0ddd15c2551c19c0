/** Fee arithmetic (internal/evm/gas.go, internal/transfer/gas.go). All amounts are wei. */
module Fees {
  import opened Common

  function Gwei(n: nat): nat { n * 1_000_000_000 }

  function Bump180(x: nat): nat { x * 180 / 100 }

  /** evm.Fees: either the EIP-1559 pair or a legacy gas price. */
  datatype Fees = Dynamic(maxFee: nat, maxPriority: nat) | Legacy(gasPrice: nat)

  /** What the node said: None stands for an RPC error or a missing field. */
  datatype NodeFees = NodeFees(tip: Option<int>, baseFee: Option<int>, gasPrice: Option<int>)

  predicate Positive(x: Option<int>) { x.Some? && x.value > 0 }

  function MaxPriority(tip: nat): nat {
    if Bump180(tip) < Gwei(2) then Gwei(2) else Bump180(tip)
  }

  /** The fee cap before the correction. */
  function RawMaxFee(baseFee: nat, tip: nat): nat { Bump180(baseFee * 2 + tip) }

  function MinMax(baseFee: nat, tip: nat): nat { baseFee * 125 / 100 * 2 + MaxPriority(tip) }

  predicate Corrects(baseFee: nat, tip: nat) { RawMaxFee(baseFee, tip) < MinMax(baseFee, tip) }

  function MaxFee(baseFee: nat, tip: nat): nat {
    if Corrects(baseFee, tip) then MinMax(baseFee, tip) * 110 / 100 else RawMaxFee(baseFee, tip)
  }

  /** FeeFromProvider. */
  function FeeFromProvider(node: NodeFees): Fees {
    if Positive(node.tip) && Positive(node.baseFee) then
      Dynamic(MaxFee(node.baseFee.value, node.tip.value), MaxPriority(node.tip.value))
    else if Positive(node.gasPrice) then Legacy(Bump180(node.gasPrice.value))
    else Dynamic(Gwei(150), Gwei(5))
  }

  // ---------- Base-fee headroom ----------

  /** The largest base fee the next block may have under EIP-1559. */
  function Raised(b: nat): nat { b + if b / 8 > 1 then b / 8 else 1 }

  /** A base-fee history allowed by the Specification section of EIP-1559. */
  ghost predicate Allowed(fees: seq<nat>) {
    forall i :: 0 <= i < |fees| - 1 ==> fees[i + 1] <= Raised(fees[i])
  }

  function Peak(b: nat, blocks: nat): nat {
    if blocks == 0 then b else Raised(Peak(b, blocks - 1))
  }

  lemma RaisedMonotone(a: nat, b: nat)
    requires a <= b
    ensures Raised(a) <= Raised(b)
  {
  }

  lemma {:induction false} PeakBounds(fees: seq<nat>, i: nat)
    requires Allowed(fees) && i < |fees|
    ensures fees[i] <= Peak(fees[0], i)
  {
    if i == 0 {
    } else {
      PeakBounds(fees, i - 1);
      RaisedMonotone(fees[i - 1], Peak(fees[0], i - 1));
    }
  }

  lemma {:induction false} PeakGrows(b: nat, i: nat, j: nat)
    requires i <= j
    ensures Peak(b, i) <= Peak(b, j)
  {
    if i == j {
    } else {
      PeakGrows(b, i, j - 1);
    }
  }

  lemma RaiseByAnEighth(b: nat)
    requires b >= 8
    ensures 8 <= Raised(b) && 8 * Raised(b) <= 9 * b
  {
  }

  /** Seven rises multiply a base fee of at least 8 by less than 2.2807. */
  lemma SevenRises(b: nat)
    requires b >= 8
    ensures 2097152 * Peak(b, 7) <= 4782969 * b
  {
    var p1 := Raised(b);
    var p2 := Raised(p1);
    var p3 := Raised(p2);
    var p4 := Raised(p3);
    var p5 := Raised(p4);
    var p6 := Raised(p5);
    RaiseByAnEighth(b);
    RaiseByAnEighth(p1);
    RaiseByAnEighth(p2);
    RaiseByAnEighth(p3);
    RaiseByAnEighth(p4);
    RaiseByAnEighth(p5);
    RaiseByAnEighth(p6);
    assert Peak(b, 1) == Raised(Peak(b, 0)) && Peak(b, 2) == Raised(Peak(b, 1)) && Peak(b, 3) == Raised(Peak(b, 2));
    assert Peak(b, 4) == p4 && Peak(b, 5) == p5 && Peak(b, 6) == p6;
  }

  lemma PeakFromSmall()
    ensures Peak(5, 7) == 12 && Peak(6, 7) == 13 && Peak(7, 7) == 14
    ensures Peak(1, 7) == 8 && Peak(2, 7) == 9 && Peak(3, 7) == 10 && Peak(4, 7) == 11
  {
    assert Peak(5, 3) == 8 && Peak(6, 3) == 9 && Peak(7, 3) == 10;
    assert Peak(1, 3) == 4 && Peak(2, 3) == 5 && Peak(3, 3) == 6 && Peak(4, 3) == 7;
    assert Peak(5, 5) == 10 && Peak(6, 5) == 11 && Peak(7, 5) == 12;
    assert Peak(1, 5) == 6 && Peak(2, 5) == 7 && Peak(3, 5) == 8 && Peak(4, 5) == 9;
  }

  /** The room between cap and priority is at least twice the base fee plus a quarter, rounded down. */
  lemma RoomAtLeast(b: nat, tip: nat)
    requires b > 0 && tip > 0
    ensures MaxFee(b, tip) >= MaxPriority(tip) + b * 125 / 100 * 2
  {
  }

  lemma RoomCoversPeak(b: nat)
    requires b >= 5
    ensures Peak(b, 7) <= b * 125 / 100 * 2
  {
    if b >= 8 {
      SevenRises(b);
    } else {
      PeakFromSmall();
    }
  }

  /**
   * For every tip and every allowed history that starts at b, the cap pays base fee and priority in
   * each of the next 7 blocks.
   */
  ghost predicate Covered(b: nat) {
    forall tip: nat, fees: seq<nat>, i: nat ::
      tip > 0 && Allowed(fees) && i < |fees| && i <= 7 && fees[0] == b ==>
        fees[i] + MaxPriority(tip) <= MaxFee(b, tip)
  }

  /** The steepest allowed history. */
  function Steepest(b: nat, blocks: nat): (fees: seq<nat>)
    ensures |fees| == blocks + 1
    ensures forall i :: 0 <= i <= blocks ==> fees[i] == Peak(b, i)
  {
    if blocks == 0 then [b] else Steepest(b, blocks - 1) + [Peak(b, blocks)]
  }

  /** Headroom for 7 blocks is guaranteed exactly for base fees of 5 wei and more. */
  lemma HeadroomIffFive(b: nat)
    requires b > 0
    ensures Covered(b) <==> b >= 5
  {
    if b >= 5 {
      forall tip: nat, fees: seq<nat>, i: nat | tip > 0 && Allowed(fees) && i < |fees| && i <= 7 && fees[0] == b
        ensures fees[i] + MaxPriority(tip) <= MaxFee(b, tip)
      {
        PeakBounds(fees, i);
        PeakGrows(b, i, 7);
        RoomCoversPeak(b);
        RoomAtLeast(b, tip);
      }
    } else {
      var tip := if b >= 3 then 1111111109 else 1111111111;
      var fees := Steepest(b, 7);
      assert Allowed(fees) && fees[0] == b;
      ShortRoom(b, tip);
      assert fees[7] == Peak(b, 7);
    }
  }

  /** Tips whose bump falls just short of 2 gwei leave the least room. */
  lemma ShortRoom(b: nat, tip: nat)
    requires 0 < b < 5 && tip == if b >= 3 then 1111111109 else 1111111111
    ensures MaxFee(b, tip) < Peak(b, 7) + MaxPriority(tip)
  {
    PeakFromSmall();
  }

  /** Seven is the most that can be promised: here the eighth block is out of reach. */
  lemma EighthBlockNotCovered()
    ensures Covered(1818181818)
    ensures Peak(1818181818, 8) + MaxPriority(1) > MaxFee(1818181818, 1)
  {
    HeadroomIffFive(1818181818);
    var b := 1818181818;
    assert Peak(b, 1) == 2045454545;
    assert Peak(b, 2) == 2301136363;
    assert Peak(b, 3) == 2588778408;
    assert Peak(b, 4) == 2912375709;
    assert Peak(b, 5) == 3276422672;
    assert Peak(b, 6) == 3685975506;
    assert Peak(b, 7) == 4146722444;
    assert Peak(b, 8) == 4665062749;
  }

  /**
   * The correction of the cap happens only when the bumped tip is below the minimum of 2 gwei, and it
   * ends above the minimum cap.
   */
  lemma CorrectionNeedsLowTip(b: nat, tip: nat)
    requires b > 0 && tip > 0
    ensures Corrects(b, tip) ==> Bump180(tip) < Gwei(2)
    ensures MaxFee(b, tip) >= MinMax(b, tip)
  {
  }

  // ---------- User-operation fees ----------

  const FLOORED: set<int> := {11155111, 43113, 56357}

  /** applySepoliaFujiKcpFloor. */
  method ApplyFloor(chain: int, inF: nat, inP: nat) returns (maxF: nat, maxP: nat)
    ensures chain !in FLOORED ==> maxF == inF && maxP == inP
    ensures chain in FLOORED ==>
      && maxF == Max(inF, Gwei(500))
      && Gwei(50) <= maxP <= maxF
      && maxP == (if Max(inP, Gwei(50)) <= maxF then Max(inP, Gwei(50)) else maxF / 2)
  {
    maxF, maxP := inF, inP;
    if chain !in FLOORED {
      return;
    }
    if maxF < Gwei(500) {
      maxF := Gwei(500);
    }
    if maxP < Gwei(50) {
      maxP := Gwei(50);
    }
    if maxP > maxF {
      var half := maxF / 2;
      if half > 0 {
        maxP := half;
      } else {
        maxP := Gwei(50);
      }
    }
  }

  function Max(a: nat, b: nat): nat { if a < b then b else a }

  /** The environment overrides: parseUserOpGweiEnv yields nothing or a positive amount. */
  predicate EnvAmount(x: Option<int>) { x.Some? ==> x.value > 0 }

  function First(a: Option<int>, b: Option<int>): Option<int> { if a.Some? then a else b }

  datatype FeeResult = Ok(maxFee: nat, maxPriority: nat) | PriorityAboveMax

  /** The chains with a floor: Sepolia, Fuji and KCP. */
  predicate HasFloor(chain: int) { chain == 11155111 || chain == 43113 || chain == 56357 }

  /** A complete override is taken as it is, unless it is inverted. */
  ghost predicate Overridden(r: FeeResult, max: int, pri: int) {
    if pri > max then r == PriorityAboveMax else max > 0 && pri > 0 && r == Ok(max, pri)
  }

  /** Node-derived fees, raised to the floors where there are any. */
  ghost predicate Floored(r: FeeResult, chain: int, maxF: nat, maxP: nat) {
    r == if HasFloor(chain) then Ok(Max(maxF, 500_000_000_000), Max(maxP, 50_000_000_000)) else Ok(maxF, maxP)
  }

  /** The fees are not below what the node asked for. */
  ghost predicate AtLeastNode(o: Fees, r: FeeResult)
    requires r.Ok?
  {
    match o
    case Dynamic(f, p) => r.maxFee >= f && r.maxPriority >= p
    case Legacy(g) => r.maxFee >= 2 * g && r.maxPriority >= g
  }

  /**
   * userOpMaxFeeFields. An override for the chain goes before the general one, for each of the two amounts; if
   * both amounts are overridden they are taken, unless the priority is above the maximum. Otherwise the fees are
   * the node's, or twice its gas price and that price, raised to the floors on the three floored chains.
   */
  method UserOpMaxFeeFields(chain: int, maxChain: Option<int>, maxAll: Option<int>,
                            priChain: Option<int>, priAll: Option<int>, node: NodeFees) returns (r: FeeResult)
    requires EnvAmount(maxChain) && EnvAmount(maxAll) && EnvAmount(priChain) && EnvAmount(priAll)
    ensures maxChain.Some? && priChain.Some? ==> Overridden(r, maxChain.value, priChain.value)
    ensures maxChain.Some? && priChain.None? && priAll.Some? ==> Overridden(r, maxChain.value, priAll.value)
    ensures maxChain.None? && maxAll.Some? && priChain.Some? ==> Overridden(r, maxAll.value, priChain.value)
    ensures maxChain.None? && maxAll.Some? && priChain.None? && priAll.Some? ==>
      Overridden(r, maxAll.value, priAll.value)
    ensures (maxChain.None? && maxAll.None?) || (priChain.None? && priAll.None?) ==>
      match FeeFromProvider(node)
      case Dynamic(f, p) => Floored(r, chain, f, p)
      case Legacy(g) => Floored(r, chain, 2 * g, g)
    ensures (maxChain.None? && maxAll.None?) || (priChain.None? && priAll.None?) ==>
      r.Ok? && AtLeastNode(FeeFromProvider(node), r)
    ensures r.Ok? ==> 0 < r.maxPriority <= r.maxFee
  {
    ProviderOrdered(node);
    var envMax, envPri := First(maxChain, maxAll), First(priChain, priAll);
    if envMax.Some? && envPri.Some? {
      if envPri.value > envMax.value {
        return PriorityAboveMax;
      }
      return Ok(envMax.value, envPri.value);
    }
    r := FieldsFrom(chain, FeeFromProvider(node));
  }

  /**
   * The part after FeeFromProvider, for any fees it might return: an inverted pair gets half the maximum as
   * priority, and without usable fees there is a fixed pair.
   */
  method FieldsFrom(chain: int, o: Fees) returns (r: FeeResult)
    ensures r.Ok? && r.maxPriority <= r.maxFee
    ensures match o
      case Dynamic(f, p) =>
        if f > 0 && p > 0 then Floored(r, chain, f, if p <= f then p else f / 2)
        else r == if HasFloor(chain) then Ok(2000_000_000_000, 100_000_000_000) else Ok(150_000_000_000, 5_000_000_000)
      case Legacy(g) =>
        if g > 0 then Floored(r, chain, 2 * g, g)
        else r == if HasFloor(chain) then Ok(2000_000_000_000, 100_000_000_000) else Ok(150_000_000_000, 5_000_000_000)
  {
    if o.Dynamic? && o.maxFee > 0 && o.maxPriority > 0 {
      var maxF, maxP := o.maxFee, o.maxPriority;
      if maxP > maxF {
        maxP := maxF / 2;
      }
      maxF, maxP := ApplyFloor(chain, maxF, maxP);
      return Ok(maxF, maxP);
    }
    if o.Legacy? && o.gasPrice > 0 {
      var maxF, maxP := ApplyFloor(chain, o.gasPrice * 2, o.gasPrice);
      return Ok(maxF, maxP);
    }
    if chain in FLOORED {
      return Ok(Gwei(2000), Gwei(100));
    }
    return Ok(Gwei(150), Gwei(5));
  }

  /** x is 180% of y, rounded down. */
  ghost predicate Is180(x: int, y: int) { 100 * x <= 180 * y < 100 * x + 100 }

  /**
   * What FeeFromProvider makes of the node's word. With a tip and a base fee: the priority is 180% of the tip but
   * at least 2 gwei, and the cap is 180% of twice the base fee plus the tip, or 110% of the least cap if that is
   * more. Without them: 180% of the gas price; without that too: 150 and 5 gwei.
   */
  lemma ProviderBumps(node: NodeFees) returns (raw: nat, quarter: nat)
    ensures var fees := FeeFromProvider(node);
      if node.tip.Some? && node.tip.value > 0 && node.baseFee.Some? && node.baseFee.value > 0 then
        && fees.Dynamic?
        && (if 180 * node.tip.value < 200_000_000_000 then fees.maxPriority == 2_000_000_000
            else Is180(fees.maxPriority, node.tip.value))
        && Is180(raw, 2 * node.baseFee.value + node.tip.value)
        && 4 * quarter <= 5 * node.baseFee.value < 4 * quarter + 4
        && var least := 2 * quarter + fees.maxPriority;
           if raw >= least then fees.maxFee == raw else 10 * fees.maxFee <= 11 * least < 10 * fees.maxFee + 10
      else if node.gasPrice.Some? && node.gasPrice.value > 0 then
        fees.Legacy? && Is180(fees.gasPrice, node.gasPrice.value)
      else fees == Dynamic(150_000_000_000, 5_000_000_000)
  {
    raw, quarter := 0, 0;
    if Positive(node.tip) && Positive(node.baseFee) {
      raw := RawMaxFee(node.baseFee.value, node.tip.value);
      quarter := node.baseFee.value * 125 / 100;
    }
  }

  /** The node's fees never invert: the two repairs in userOpMaxFeeFields that follow them are never needed. */
  lemma ProviderOrdered(node: NodeFees)
    ensures match FeeFromProvider(node)
      case Dynamic(f, p) => 0 < p <= f
      case Legacy(g) => g > 0
  {
    if Positive(node.tip) && Positive(node.baseFee) {
      RoomAtLeast(node.baseFee.value, node.tip.value);
    }
  }

  // ---------- Gas limits ----------

  /** BumpGasLimit, with the wrap-around of uint64. */
  function BumpGasLimit(estimated: nat, min: nat, cap: nat): nat
    requires estimated < UINT64 && min < UINT64 && cap < UINT64
  {
    var bumped := (estimated * 130 % UINT64 / 100 + 8000) % UINT64;
    if bumped < min then min else if bumped > cap then cap else bumped
  }

  /**
   * For caps far enough below 2^64 (every caller's is at most 3,000,000), the limit stays within its
   * bounds, it covers the estimate exactly when the estimate is within the cap (the wrap-around never
   * produces a limit that is too low by accident), and it has the full margin whenever the cap allows.
   */
  lemma GasLimitCoversIffWithinCap(estimated: nat, min: nat, cap: nat)
    requires estimated < UINT64 && min <= cap <= UINT64 / 130
    ensures min <= BumpGasLimit(estimated, min, cap) <= cap
    ensures BumpGasLimit(estimated, min, cap) >= estimated <==> estimated <= cap
    ensures estimated * 13 / 10 + 8000 <= cap ==>
      BumpGasLimit(estimated, min, cap) == Max(min, estimated * 13 / 10 + 8000)
    ensures cap < estimated * 13 / 10 + 8000 && estimated <= UINT64 / 130 ==> BumpGasLimit(estimated, min, cap) == cap
  {
  }
}
