/** Timelock policies (swap/timelock.go) and the two places that enforce the
    total CLTV limit on the claim payment (clightning/clightning.go, lnd/client.go). */
module Timelock {
  import opened Base

  datatype Chain = Btc | Lbtc | Unknown

  const LEGACY_VERSION := 6
  const PROTOCOL_VERSION := 7

  const BITCOIN_CSV: u32 := 1008
  const LEGACY_LIQUID_CSV: u32 := 60
  const LIQUID_CSV: u32 := 7 * 24 * 60
  const LIQUID_PAYMENT_WINDOW: u32 := 60
  const LIQUID_MAX_TOTAL_CLTV: u32 := 32

  datatype Policy = Policy(
    csv: u32,
    paymentWindow: u32,
    invoiceFinalCltv: u64,
    maxTotalCltvDelta: u32,
    allowNewClaimPayment: bool)

  /** None is the error for an unsupported chain or protocol version. */
  function PolicyFor(chain: Chain, version: nat): Option<Policy> {
    match chain
    case Btc =>
      if version != LEGACY_VERSION && version != PROTOCOL_VERSION then None
      else Some(Policy(BITCOIN_CSV, BITCOIN_CSV / 2, BITCOIN_CSV / 2 - 1, 0, true))
    case Lbtc =>
      if version == LEGACY_VERSION
      then Some(Policy(LEGACY_LIQUID_CSV, LEGACY_LIQUID_CSV / 2, LEGACY_LIQUID_CSV / 2 - 1, 0, false))
      else if version == PROTOCOL_VERSION
      then Some(Policy(LIQUID_CSV, LIQUID_PAYMENT_WINDOW, 29, LIQUID_MAX_TOTAL_CLTV, true))
      else None
    case Unknown => None
  }

  /** An invoice as `DecodePayreq` reports it. */
  datatype Invoice = Invoice(hash: Bytes32, amountMsat: u64, finalCltv: i64)

  /** `Validator.GetCSVHeight`: the Bitcoin lock, used only on the Bitcoin paths. */
  const BITCOIN_SAFETY_LIMIT: u32 := BITCOIN_CSV / 2

  function Msat(sat: u64): u64 {
    (sat * 1000) % TWO_64
  }

  /** The checks of `AwaitTxConfirmationAction` on the claim invoice. */
  predicate InvoiceAcceptable(chain: Chain, policy: Policy, invoice: Invoice, claimAmount: u64) {
    match chain
    case Btc => invoice.finalCltv <= BITCOIN_SAFETY_LIMIT && invoice.amountMsat == Msat(claimAmount)
    case _ =>
      && 0 <= invoice.finalCltv <= policy.invoiceFinalCltv
      && invoice.amountMsat == Msat(claimAmount)
  }

  /** `checkPaymentWindow`, on 64-bit sums so that the deadline never wraps. */
  predicate InPaymentWindow(anchor: u32, anchorSet: bool, height: u32, policy: Policy) {
    anchorSet && anchor <= height && height < anchor + policy.paymentWindow
  }

  function ValidateTotalCltvDelta(required: u32, limit: u32): (ok: bool)
    ensures ok <==> (limit == 0 || required <= limit)
  {
    !(limit != 0 && required > limit)
  }

  function WrapU32(n: int): u32 { n % TWO_32 }

  function WrapI32(n: int): int {
    var m := n % TWO_32;
    if m < 0x8000_0000 then m else m - TWO_32
  }

  /** The delay of the single hop Core Lightning pays over, or None when a limit is
      set and the hop does not fit. */
  function ClnDelay(minFinalCltv: i64, maxTotal: u32): Option<u32> {
    if maxTotal == 0 then Some(WrapU32(minFinalCltv + 1))
    else if 0 <= minFinalCltv && minFinalCltv + 1 <= maxTotal then Some(minFinalCltv + 1)
    else None
  }

  method BuildDirectClaimRoute(minFinalCltv: i64, maxTotal: u32) returns (delay: Option<u32>)
    ensures delay == ClnDelay(minFinalCltv, maxTotal)
  {
    var d := WrapU32(minFinalCltv + 1);
    if maxTotal != 0 {
      if minFinalCltv < 0 || minFinalCltv >= TWO_32 - 1 {
        return None;
      }
      d := minFinalCltv + 1;
      if !ValidateTotalCltvDelta(d, maxTotal) {
        return None;
      }
    }
    return Some(d);
  }

  /** LND's padding on the final hop. */
  const BLOCK_PADDING := 3

  /** The CLTV limit handed to LND's router, or None when a limit is set and the
      padded final hop does not fit. */
  function LndCltvLimit(finalCltv: i64, maxTotal: u32): Option<int> {
    if maxTotal == 0 then Some(WrapI32(finalCltv + BLOCK_PADDING + 1))
    else if 0 <= finalCltv && finalCltv + BLOCK_PADDING <= maxTotal < 0x7FFF_FFFF then Some(maxTotal + 1)
    else None
  }

  method BuildDirectClaimPaymentRequest(destinationIsPeer: bool, finalCltv: i64, maxTotal: u32)
    returns (limit: Option<int>)
    ensures limit == if destinationIsPeer then LndCltvLimit(finalCltv, maxTotal) else None
  {
    if !destinationIsPeer {
      return None;
    }
    var cltvLimit := WrapI32(finalCltv + BLOCK_PADDING + 1);
    if maxTotal != 0 {
      if finalCltv < 0 {
        return None;
      }
      var required := finalCltv + BLOCK_PADDING;
      if required > TWO_32 - 1 {
        return None;
      }
      if !ValidateTotalCltvDelta(required, maxTotal) {
        return None;
      }
      if maxTotal >= 0x7FFF_FFFF {
        return None;
      }
      cltvLimit := maxTotal + 1;
    }
    return Some(cltvLimit);
  }

  /** The invoice an honest maker issues: its policy's CLTV delta and the claim amount
      the two sides computed. */
  function IssuedInvoice(hash: Bytes32, claimAmount: u64, policy: Policy): Invoice
    requires policy.invoiceFinalCltv < TWO_63
  {
    Invoice(hash, Msat(claimAmount), policy.invoiceFinalCltv)
  }

  /** Whatever invoice passes a v7 Liquid taker, both lightning backends route it inside
      the 32-block limit, LND with its padding counted. */
  lemma AcceptedInvoicesRoute(policy: Policy, invoice: Invoice, claimAmount: u64)
    requires PolicyFor(Lbtc, PROTOCOL_VERSION) == Some(policy)
    requires InvoiceAcceptable(Lbtc, policy, invoice, claimAmount)
    ensures ClnDelay(invoice.finalCltv, policy.maxTotalCltvDelta) == Some(invoice.finalCltv + 1)
    ensures LndCltvLimit(invoice.finalCltv, policy.maxTotalCltvDelta) == Some(33)
    ensures invoice.finalCltv + 1 <= 32 && invoice.finalCltv + BLOCK_PADDING <= 32
  {
  }

  /** A claim payment inside the v7 Liquid window is over, with its whole CLTV budget
      and 9900 blocks to spare, before the maker can refund an output that confirmed at
      or after the anchor. */
  lemma PaymentEndsBeforeRefund(anchor: u32, height: u32, confirmed: nat, policy: Policy)
    requires Some(policy) == PolicyFor(Lbtc, PROTOCOL_VERSION)
    requires InPaymentWindow(anchor, true, height, policy)
    requires anchor <= confirmed
    ensures height + 10020 < confirmed + policy.csv
    ensures height + policy.maxTotalCltvDelta < confirmed + policy.csv
  {
  }

  /** The policies in numbers: a week of Liquid blocks against a window of sixty and a cap of 32
      for v7, half of 1008 blocks for Bitcoin, and no new payments for legacy Liquid. */
  lemma PoliciesAre(version: nat)
    ensures PolicyFor(Lbtc, 7) == Some(Policy(10080, 60, 29, 32, true))
    ensures PolicyFor(Lbtc, 6) == Some(Policy(60, 30, 29, 0, false))
    ensures PolicyFor(Btc, 6) == PolicyFor(Btc, 7) == Some(Policy(1008, 504, 503, 0, true))
    ensures PolicyFor(Unknown, version).None?
    ensures version != 6 && version != 7 ==> PolicyFor(Btc, version).None? && PolicyFor(Lbtc, version).None?
  {
  }

  /** Without a limit, as for every Bitcoin payment, Core Lightning adds one block to the
      invoice's delta and LND four. */
  lemma UnlimitedRoute(finalCltv: i64)
    ensures ClnDelay(finalCltv, 0) == Some((finalCltv + 1) % 0x1_0000_0000)
    ensures 0 <= finalCltv < 0x7FFF_FFFC ==>
            ClnDelay(finalCltv, 0) == Some(finalCltv + 1) && LndCltvLimit(finalCltv, 0) == Some(finalCltv + 4)
  {
  }

  /** With a limit the route is refused if and only if the delta does not fit it. */
  lemma LimitedRoute(finalCltv: i64, maxTotal: u32)
    requires 0 < maxTotal < 0x7FFF_FFFF
    ensures ClnDelay(finalCltv, maxTotal)
            == if 0 <= finalCltv < maxTotal then Some(finalCltv + 1) else None
    ensures LndCltvLimit(finalCltv, maxTotal)
            == if 0 <= finalCltv && finalCltv + 3 <= maxTotal then Some(maxTotal + 1) else None
  {
  }

  /** Which claim invoices a taker accepts, in numbers. */
  lemma InvoiceLimits(chain: Chain, version: nat, invoice: Invoice, claimAmount: u64)
    requires PolicyFor(chain, version).Some?
    ensures InvoiceAcceptable(chain, PolicyFor(chain, version).value, invoice, claimAmount) <==>
            && invoice.amountMsat == (claimAmount * 1000) % 0x1_0000_0000_0000_0000
            && (chain.Btc? ==> invoice.finalCltv <= 504)
            && (chain.Lbtc? ==> 0 <= invoice.finalCltv <= 29)
  {
  }
}
