/** Premiums in parts per million (premium/premium.go) and the negotiation built on them
    (swap/service.go, swap/actions.go, swap/swap.go). */
module Premium {
  import opened Base
  import opened SwapData
  import opened Actions

  const PARTS := 1_000_000

  /** Two's complement wrap-around of a 64-bit product. */
  function WrapI64(n: int): i64 {
    var m := n % TWO_64;
    if m < TWO_63 then m else m - TWO_64
  }

  /** Division that truncates toward zero. */
  function TruncDiv(n: int, d: int): int
    requires d > 0
  {
    if n >= 0 then n / d else -(-n / d)
  }

  /** `PPM.Compute`. */
  function Compute(amount: u64, ppm: i64): i64 {
    TruncDiv(WrapI64(WrapI64(amount) * ppm), PARTS)
  }

  /** Neither the conversion of the amount nor the product wraps. */
  predicate InDomain(amount: u64, ppm: i64) {
    amount < TWO_63 && -TWO_63 <= amount * ppm < TWO_63
  }

  lemma ComputeInDomain(amount: u64, ppm: i64)
    requires InDomain(amount, ppm)
    ensures Compute(amount, ppm) == TruncDiv(amount * ppm, PARTS)
  {
    NoWrap(amount);
    NoWrap(amount * ppm);
  }

  lemma NoWrap(n: int)
    requires -TWO_63 <= n < TWO_63
    ensures WrapI64(n) == n
  {
    if n < 0 {
      assert n % TWO_64 == n + TWO_64;
    } else {
      assert n % TWO_64 == n;
    }
  }

  lemma TruncDivMonotone(a: int, b: int)
    requires a <= b
    ensures TruncDiv(a, PARTS) <= TruncDiv(b, PARTS)
  {
  }

  lemma MulMonotone(a: nat, x: int, y: int)
    requires x <= y
    ensures a * x <= a * y
  {
    assert a * (y - x) >= 0;
  }

  /** For every amount, a higher rate never gives a lower premium, negative rates included. */
  lemma ComputeMonotone(amount: u64, low: i64, high: i64)
    requires low <= high && InDomain(amount, low) && InDomain(amount, high)
    ensures Compute(amount, low) <= Compute(amount, high)
  {
    ComputeInDomain(amount, low);
    ComputeInDomain(amount, high);
    hide Compute, TruncDiv;
    MulMonotone(amount, low, high);
    TruncDivMonotone(amount * low, amount * high);
  }

  /** Outside that domain the product wraps, and a higher rate can turn the premium negative. */
  lemma WrappedPremiumDrops()
    ensures var amount: u64, low: i64, high: i64 := 0x4000_0000_0000_0000, 1, 2;
            !InDomain(amount, high) && Compute(amount, low) > 0 > Compute(amount, high)
  {
    assert WrapI64(0x4000_0000_0000_0000) == 0x4000_0000_0000_0000;
    assert WrapI64(0x8000_0000_0000_0000) == -0x8000_0000_0000_0000;
  }

  /** The premium is parts per million of the amount, rounded toward zero on either side. */
  lemma PremiumIsPartsPerMillion(amount: u64, ppm: i64)
    requires amount < 0x8000_0000_0000_0000
    requires -0x8000_0000_0000_0000 <= amount * ppm < 0x8000_0000_0000_0000
    ensures var p := Compute(amount, ppm);
            && (ppm >= 0 ==> p * 1_000_000 <= amount * ppm < (p + 1) * 1_000_000)
            && (ppm < 0 ==> (p - 1) * 1_000_000 < amount * ppm <= p * 1_000_000)
  {
    ComputeInDomain(amount, ppm);
    if ppm >= 0 { MulMonotone(amount, 0, ppm); } else { MulMonotone(amount, ppm, 0); }
    hide Compute;
    TruncDivBounds(amount * ppm);
  }

  lemma TruncDivBounds(n: int)
    ensures var p := TruncDiv(n, PARTS);
            && (n >= 0 ==> p * 1_000_000 <= n < (p + 1) * 1_000_000)
            && (n <= 0 ==> (p - 1) * 1_000_000 < n <= p * 1_000_000)
  {
  }

  /** A rate of at least -100 % never asks for more than the amount back. */
  lemma PremiumAtLeastMinusAmount(amount: u64, ppm: i64)
    requires InDomain(amount, ppm) && -1_000_000 <= ppm
    ensures 0 <= amount + Compute(amount, ppm)
  {
    PremiumIsPartsPerMillion(amount, ppm);
    MulMonotone(amount, -1_000_000, ppm);
    hide Compute;
  }

  // ------------------------------------------------------------- negotiation

  /** The receiver's check on an incoming request. */
  predicate Refuses(rate: i64, r: Request) {
    Compute(r.amount, rate) > r.premiumLimit
  }

  /** The exact bound on the rate beyond which a request is refused. */
  lemma RefusesExactlyWhen(rate: i64, r: Request)
    requires InDomain(r.amount, rate)
    ensures Refuses(rate, r) <==> if rate >= 0 then (r.premiumLimit + 1) * 1_000_000 <= r.amount * rate
                                  else r.premiumLimit * 1_000_000 < r.amount * rate
  {
    PremiumIsPartsPerMillion(r.amount, rate);
    hide Compute;
  }

  /** What a swap costs its initiator: a swap-in sender funds the opening output and gets the
      claim amount, a swap-out sender pays the claim amount and gets the opening output. */
  function InitiatorCost(d: Data): int
    requires d.AmountsKnown()
  {
    if d.swapInRequest.Some? then d.GetOpeningTxAmount() - d.GetClaimAmount()
    else d.GetClaimAmount() - d.GetOpeningTxAmount()
  }

  function PremiumOf(d: Data): int
    requires d.AmountsKnown() && d.GetRequest().Some?
  {
    if d.swapInRequest.Some? then d.swapInAgreement.value.premium else d.swapOutAgreement.value.premium
  }

  /** The initiator pays exactly the premium if and only if the sum does not wrap: premiums
      reach down to minus the amount and no further. */
  lemma CostIsPremium(d: Data)
    requires d.AmountsKnown() && d.GetRequest().Some?
    ensures InitiatorCost(d) == PremiumOf(d) <==> 0 <= d.GetRequest().value.amount + PremiumOf(d) < TWO_64
  {
    var sum := d.GetRequest().value.amount + PremiumOf(d);
    if 0 <= sum < TWO_64 {
      assert sum % TWO_64 == sum;
    }
  }

  /** A receiver whose rate is at most the initiator's limit rate never refuses for premium;
      its agreement passes the initiator's check; and the swap then costs the initiator just
      the premium, at most its limit, unless the premium goes below minus the amount, which
      takes a rate below minus one million. */
  lemma NegotiationSucceeds(d: Data, rate: i64, limitRate: i64)
    requires d.AmountsKnown() && d.GetRequest().Some?
    requires (d.swapInRequest.Some? <==> d.swapOutRequest.None?) && (d.swapInRequest.None? ==> d.swapInAgreement.None?)
    requires var r := d.GetRequest().value;
             && rate <= limitRate && InDomain(r.amount, rate) && InDomain(r.amount, limitRate)
             && r.premiumLimit == Compute(r.amount, limitRate)
             && PremiumOf(d) == Compute(r.amount, rate)
    ensures !Refuses(rate, d.GetRequest().value)
    ensures CheckPremium(d).Passed?
    ensures PremiumOf(d) <= d.GetRequest().value.premiumLimit
    ensures InitiatorCost(d) == PremiumOf(d) <==> 0 <= d.GetRequest().value.amount + PremiumOf(d)
    ensures -1_000_000 <= rate ==> InitiatorCost(d) == PremiumOf(d)
  {
    var amount := d.GetRequest().value.amount;
    ComputeMonotone(amount, rate, limitRate);
    if -1_000_000 <= rate { PremiumAtLeastMinusAmount(amount, rate); }
    CostIsPremium(d);
  }

  /** Whatever the peer agrees to, the initiator goes on only if the premium is within its limit. */
  lemma PassedCheckBoundsCost(d: Data)
    requires d.AmountsKnown() && d.GetRequest().Some? && CheckPremium(d).Passed?
    requires d.swapInRequest.None? || d.swapOutRequest.None?
    requires 0 <= d.GetRequest().value.amount + PremiumOf(d) < TWO_64
    ensures InitiatorCost(d) == PremiumOf(d) <= d.GetRequest().value.premiumLimit
  {
    CostIsPremium(d);
  }
}
