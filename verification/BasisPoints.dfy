/**
 Basis-point arithmetic on `i128` amounts: the checked helpers of crates/protocol-math
 and the fee breakdown of contracts/invoice/src/refund.rs.
 */
module BasisPoints {
  import opened Common

  const BPS_DENOMINATOR: u32 := 10_000

  datatype RefundError = BadAmount | FeeTooHigh | FeeOverflow

  datatype NetRefund = NetRefund(grossAmount: i128, processingFee: i128, networkFee: i128, netAmount: i128)

  function CheckedMul(a: i128, b: i128): Option<i128> {
    if I128_MIN <= a * b <= I128_MAX then Some(a * b) else None
  }

  function CheckedAdd(a: i128, b: i128): Option<i128> {
    if I128_MIN <= a + b <= I128_MAX then Some(a + b) else None
  }

  function CheckedSub(a: i128, b: i128): Option<i128> {
    if I128_MIN <= a - b <= I128_MAX then Some(a - b) else None
  }

  /** Division by the denominator, truncating toward zero as Rust's `/` does. */
  function PerDenominator(a: int): int {
    if a >= 0 then a / BPS_DENOMINATOR else -((-a) / BPS_DENOMINATOR)
  }

  predicate IsValidBps(bps: u32) { bps <= BPS_DENOMINATOR }

  function ApplyBps(amount: i128, bps: u32): Option<i128> {
    match CheckedMul(amount, bps)
    case None => None
    case Some(product) => Some(PerDenominator(product))
  }

  function SplitBps(amount: i128, bps: u32): Option<(i128, i128)> {
    match ApplyBps(amount, bps)
    case None => None
    case Some(first) =>
      match CheckedSub(amount, first)
      case None => None
      case Some(rest) => Some((first, rest))
  }

  /** The fee, from the quotient and the remainder separately, so that the full product is never formed. */
  function ProcessingFee(gross: i128, bps: u32): Option<i128>
    requires gross > 0
  {
    match CheckedMul(gross / 10_000, bps)
    case None => None
    case Some(whole) =>
      match CheckedMul(gross % 10_000, bps)
      case None => None
      case Some(scaled) => CheckedAdd(whole, PerDenominator(scaled))
  }

  /** The fee breakdown of a refund, with every product and sum checked as the source checks it. */
  function NetRefundOf(gross: i128, bps: u32, network: i128): Result<NetRefund, RefundError> {
    if network < 0 then Err(BadAmount)
    else if bps > BPS_DENOMINATOR then Err(FeeTooHigh)
    else if gross <= 0 then Err(BadAmount)
    else
      match ProcessingFee(gross, bps)
      case None => Err(FeeOverflow)
      case Some(fee) => Breakdown(gross, fee, Min(gross, network))
  }

  /** The two deductions, applied one after the other and each floored at zero. */
  function Breakdown(gross: i128, fee: i128, networkFee: i128): Result<NetRefund, RefundError>
    requires gross > 0 && networkFee >= 0
  {
    var afterFee := if fee >= gross then 0 else gross - fee;
    var net := if networkFee >= afterFee then 0 else afterFee - networkFee;
    if I128_MIN <= net <= I128_MAX then Ok(NetRefund(gross, fee, networkFee, net)) else Err(FeeOverflow)
  }

  /** floor((q*D + r)*b / D) = q*b + floor(r*b / D): the decomposition that never forms the oversized product. */
  lemma FloorDecomposes(gross: int, bps: int)
    ensures gross * bps / 10_000 == (gross / 10_000) * bps + (gross % 10_000) * bps / 10_000
  {
    var q, r := gross / 10_000, gross % 10_000;
    var whole, scaled := q * bps, r * bps;
    calc {
      gross * bps;
      (q * 10_000 + r) * bps;
      whole * 10_000 + scaled;
    }
  }

  lemma ProductBounds(x: int, y: int, top: int)
    requires x >= 0 && 0 <= y <= top
    ensures 0 <= x * y <= x * top
  {
  }

  lemma ShareBounds(gross: int, bps: int)
    requires gross >= 0 && 0 <= bps <= 10_000
    ensures 0 <= gross * bps / 10_000 <= gross
  {
    ProductBounds(gross, bps, 10_000);
  }

  lemma ProcessingFeeIsFloor(gross: i128, bps: u32)
    requires gross > 0 && IsValidBps(bps)
    ensures 0 <= gross * bps / 10_000 <= gross
    ensures ProcessingFee(gross, bps) == Some(gross * bps / 10_000)
  {
    var q, r := gross / 10_000, gross % 10_000;
    FloorDecomposes(gross, bps);
    ShareBounds(gross, bps);
    ProductBounds(q, bps, 10_000);
    ProductBounds(r, bps, 10_000);
    var whole, scaled := q * bps, r * bps;
    assert CheckedMul(q, bps) == Some(whole) && CheckedMul(r, bps) == Some(scaled);
    assert CheckedAdd(whole, scaled / 10_000) == Some(gross * bps / 10_000);
  }

  /** Every refund that passes the range guards has the documented breakdown; the overflow errors are unreachable. */
  lemma NetRefundIsExact(gross: i128, bps: u32, network: i128)
    ensures NetRefundOf(gross, bps, network).Ok? <==> gross > 0 && bps <= BPS_DENOMINATOR && network >= 0
    ensures NetRefundOf(gross, bps, network) != Err(FeeOverflow)
    ensures NetRefundOf(gross, bps, network).Ok? ==>
              var r := NetRefundOf(gross, bps, network).value;
              && r.grossAmount == gross
              && r.processingFee == gross * bps / 10_000
              && 0 <= r.processingFee <= gross
              && r.networkFee == Min(gross, network)
              && r.netAmount == Max(0, gross - r.processingFee - r.networkFee)
  {
    if gross > 0 && bps <= BPS_DENOMINATOR {
      ProcessingFeeIsFloor(gross, bps);
    }
  }

  /** Wherever the direct product fits, the decomposed fee is the shared helper's share. */
  lemma NetRefundAgreesWithApplyBps(gross: i128, bps: u32, network: i128)
    requires NetRefundOf(gross, bps, network).Ok?
    ensures ApplyBps(gross, bps).Some? <==> gross * bps <= I128_MAX
    ensures ApplyBps(gross, bps).Some? ==>
              NetRefundOf(gross, bps, network).value.processingFee == ApplyBps(gross, bps).value
  {
    NetRefundIsExact(gross, bps, network);
    ProductBounds(gross, bps, 10_000);
  }

  /** A split of a non-negative amount succeeds unless the product overflows, and loses nothing. */
  lemma SplitIsExact(amount: i128, bps: u32)
    requires amount >= 0 && IsValidBps(bps)
    ensures SplitBps(amount, bps).Some? <==> amount * bps <= I128_MAX
    ensures SplitBps(amount, bps).Some? ==>
              var (first, rest) := SplitBps(amount, bps).value;
              && first == amount * bps / 10_000
              && 0 <= first <= amount && 0 <= rest <= amount
              && first + rest == amount
  {
    ShareBounds(amount, bps);
    ProductBounds(amount, bps, 10_000);
  }

  /** The whole-amount and zero ratios, and monotonicity in the ratio: a larger share never pays less. */
  lemma SplitIsMonotone(amount: i128, low: u32, high: u32)
    requires amount >= 0 && low <= high && IsValidBps(high)
    requires SplitBps(amount, high).Some?
    ensures SplitBps(amount, low).Some?
    ensures SplitBps(amount, low).value.0 <= SplitBps(amount, high).value.0
    ensures high == BPS_DENOMINATOR ==> SplitBps(amount, high).value == (amount, 0)
    ensures low == 0 ==> SplitBps(amount, low).value == (0, amount)
  {
    ProductBounds(amount, low, high);
    SplitIsExact(amount, low);
    SplitIsExact(amount, high);
  }
}
