/** What each state's action does to the swap data, which event it returns and which
    external calls it makes (swap/actions.go). Everything a service may answer is a field
    of `Outcome`; a missing message that the code dereferences is a `Panic`. */
module Actions {
  import opened Base
  import opened Timelock
  import opened SwapData
  import opened OnChain
  import opened States

  /** A transaction id; never empty. */
  type TxId = b: Bytes | b != [] witness [0]

  /** A serialized private key; never empty. */
  type Key = b: Bytes | b != [] witness [0]

  /** A raw transaction; never empty. */
  type RawTx = b: Bytes | b != [] witness [0]

  /** The opening transaction as the wallet reports it. */
  datatype Funding = Funding(txHex: RawTx, txid: Bytes, vout: u32)

  /** One round of the claim payment loop. */
  datatype Tick = Tick(height: Option<u32>, preimage: Option<Bytes>)

  datatype Outcome = Outcome(
    requestAllowed: bool,          // node policy, enabled chains, amount, asset and network
    height: Option<u32>,           // GetBlockHeight
    premium: Option<i64>,          // premium setting
    newKey: Option<Key>,           // fresh blinding key
    flatFee: Option<u64>,          // GetFlatOpeningTXFee
    balance: Option<u64>,          // GetOnchainBalance
    preimage: Option<Bytes32>,     // fresh preimage
    payreq: Option<Bytes>,         // GetPayreq
    funded: Option<Funding>,       // CreateOpeningTransaction
    sent: bool,                    // messenger accepted the message
    scriptOk: bool,                // GetOutputScript
    spendable: Option<u64>,        // SpendableMsat
    probeOk: bool,                 // ProbePayment
    feePayment: Option<Bytes>,     // PayInvoiceViaChannel
    ticks: seq<Tick>,              // rounds until the retry time is over
    recovered: Option<Bytes>,      // RecoverClaimPayment
    spent: Option<TxId>)           // Create...SpendingTransaction

  datatype SpendKind = ByPreimage | ByCsv | ByCoop

  /** The history of a machine: its moves and the external effects of its actions. */
  datatype Entry =
    | Moved(from: State, to: State, event: Event)
    | Anchored(height: u32)
    | Sent(message: Message)
    | Registered(id: nat)
    | Stopped(id: nat)
    | Funded(params: OpeningParams, txid: Bytes, txHex: Bytes, usable: bool)
    | ClaimPayment(params: OpeningParams, txHex: Bytes, payreq: Bytes,
                   height: u32, anchor: u32, cltvCap: u32, paid: Option<Bytes>)
    | FeePayment(payreq: Bytes, paid: Option<Bytes>)
    | BuiltPrivkeyMessage
    | Spent(kind: SpendKind, params: OpeningParams, txHex: Bytes, preimage: Bytes, claimTxId: TxId)
    | HexDelivered(txHex: Bytes)
    | OpeningHeard(opening: Opening)
    | Crashed(lostSpend: bool, lostOpening: bool, reopens: bool, back: State)

  /** A message with an opening transaction was accepted from the peer. */
  ghost predicate Foreign(log: seq<Entry>) {
    exists i :: 0 <= i < |log| && log[i].OpeningHeard?
  }

  /** A watcher replaced the raw opening transaction. */
  ghost predicate Strayed(log: seq<Entry>) {
    exists i :: 0 <= i < |log| && log[i].HexDelivered?
  }

  datatype Exec =
    | Ran(data: Data, event: Event, log: seq<Entry>, sender: Option<nat>)
    | Panic

  /** Messages, keys and counterparty data that no action touches. */
  predicate SameSwap(a: Data, b: Data) {
    && a.swapInRequest == b.swapInRequest && a.swapOutRequest == b.swapOutRequest
    && a.privkey == b.privkey && a.coopClose == b.coopClose && a.cancel == b.cancel
  }

  predicate SameAgreements(a: Data, b: Data) {
    a.swapInAgreement == b.swapInAgreement && a.swapOutAgreement == b.swapOutAgreement
  }

  predicate SameClaim(a: Data, b: Data) {
    && a.openingTxBroadcasted == b.openingTxBroadcasted && a.openingTxHex == b.openingTxHex
    && a.claimTxId == b.claimTxId && a.claimPaymentHash == b.claimPaymentHash
    && a.claimPreimage == b.claimPreimage
  }

  predicate SameAnchor(a: Data, b: Data) {
    a.startingBlockHeight == b.startingBlockHeight && a.startingBlockHeightSet == b.startingBlockHeightSet
  }

  predicate Reports(x: Exec) {
    x.Ran? ==> x.event.ActionSucceeded? || x.event.ActionFailed?
  }

  predicate Rests(x: Exec) {
    x.Ran? ==> x.event.NoOp? || x.event.ActionFailed?
  }

  // ------------------------------------------------------------- creation

  predicate IsLiquidV7(d: Data) {
    d.GetChain().Lbtc? && d.GetProtocolVersion() == PROTOCOL_VERSION
  }

  /** `setLiquidPaymentWindowAnchor`: the data with the anchor, or None on an error. */
  function WithAnchor(d: Data, o: Outcome): Option<Data> {
    if !IsLiquidV7(d) then Some(d)
    else if o.height.None? then None
    else Some(d.(startingBlockHeight := o.height.value, startingBlockHeightSet := true))
  }

  function AnchorLog(d: Data, o: Outcome): seq<Entry> {
    if IsLiquidV7(d) && o.height.Some? then [Anchored(o.height.value)] else []
  }

  function WithBlindingKey(d: Data, o: Outcome): Option<Data> {
    if !d.GetChain().Lbtc? then Some(d)
    else if o.newKey.None? then None
    else Some(d.(blindingKey := o.newKey.value))
  }

  /** What creating a swap leaves alone. Its only external call reads the anchor. */
  predicate CreationContract(d: Data, snd: Option<nat>, x: Exec) {
    && Reports(x)
    && (x.Ran? ==> SameSwap(d, x.data) && SameClaim(d, x.data) && x.sender == snd
                   && (x.log == [] || (|x.log| == 1 && x.log[0].Anchored?)))
  }

  /** A v7 Liquid swap leaves creation with its anchor set, and logged once. */
  predicate AnchorContract(d: Data, x: Exec) {
    x.Ran? && x.event.ActionSucceeded? && IsLiquidV7(d) ==>
      x.log == [Anchored(x.data.startingBlockHeight)] && x.data.startingBlockHeightSet
  }

  function CreateRequest(d: Data, o: Outcome, snd: Option<nat>): (x: Exec)
    ensures CreationContract(d, snd, x) && AnchorContract(d, x)
    ensures x.Ran? ==> SameAgreements(d, x.data) && x.data.blindingKey == d.blindingKey
    ensures d.GetRequest().Some? ==> x.Ran?
  {
    match WithAnchor(d, o)
    case None => Ran(d, ActionFailed, [], snd)
    case Some(a) =>
      if a.GetRequest().None? then Panic
      else Ran(a.(nextMessage := Some(RequestMessage(a.GetRequest().value))),
               ActionSucceeded, AnchorLog(d, o), snd)
  }

  predicate RequestAccepted(d: Data, o: Outcome) {
    o.requestAllowed && !d.GetChain().Unknown? && d.GetProtocolVersion() == PROTOCOL_VERSION
  }

  /** The responder of a swap-out writes its agreement under its own key. */
  function AgreeSwapOut(w: World, d: Data, o: Outcome, snd: Option<nat>): (x: Exec)
    ensures CreationContract(d, snd, x) && x.Ran?
    ensures x.data.swapInAgreement == d.swapInAgreement && SameAnchor(d, x.data) && x.log == []
    ensures x.data.blindingKey != d.blindingKey ==> d.GetChain().Lbtc?
    ensures x.event.ActionSucceeded? ==>
            && x.data.swapOutAgreement.Some? && x.data.swapOutAgreement.value.pubkey == w.pub(d.privkey)
            && RequestAccepted(d, o)
            && (d.GetChain().Lbtc? ==> o.newKey.Some? && x.data.blindingKey == o.newKey.value)
            && o.flatFee.Some? && o.balance.Some?
            && o.balance.value >= (d.GetRequest().value.amount + o.flatFee.value) % TWO_64
  {
    if !RequestAccepted(d, o) then Ran(d, ActionFailed, [], snd)
    else
      match WithBlindingKey(d, o)
      case None => Ran(d, ActionFailed, [], snd)
      case Some(b) =>
        if o.flatFee.None? || o.balance.None?
           || o.balance.value < (b.GetRequest().value.amount + o.flatFee.value) % TWO_64
           || o.preimage.None? || o.payreq.None? || o.premium.None?
        then Ran(b, ActionFailed, [], snd)
        else
          var a := Agreement(PROTOCOL_VERSION, w.pub(d.privkey), o.payreq.value, o.premium.value);
          Ran(b.(swapOutAgreement := Some(a), nextMessage := Some(AgreementMessage(a))), ActionSucceeded, [], snd)
  }

  /** The responder of a swap-in writes its agreement under its own key. */
  function AgreeSwapIn(w: World, d: Data, o: Outcome, snd: Option<nat>): (x: Exec)
    ensures CreationContract(d, snd, x) && x.Ran? && AnchorContract(d, x)
    ensures x.data.swapOutAgreement == d.swapOutAgreement && x.data.blindingKey == d.blindingKey
    ensures x.event.ActionSucceeded? ==>
            && x.data.swapInAgreement.Some? && x.data.swapInAgreement.value.pubkey == w.pub(d.privkey)
            && RequestAccepted(d, o)
  {
    if !RequestAccepted(d, o) then Ran(d, ActionFailed, [], snd)
    else
      match WithAnchor(d, o)
      case None => Ran(d, ActionFailed, [], snd)
      case Some(b) =>
        if o.premium.None? then Ran(b, ActionFailed, AnchorLog(d, o), snd)
        else
          var a := Agreement(PROTOCOL_VERSION, w.pub(d.privkey), [], o.premium.value);
          Ran(b.(swapInAgreement := Some(a), nextMessage := Some(AgreementMessage(a))),
              ActionSucceeded, AnchorLog(d, o), snd)
  }

  function Create(w: World, t: Table, d: Data, o: Outcome, snd: Option<nat>): Exec {
    match t
    case SwapInSender =>
      (match WithBlindingKey(d, o)
       case None => Ran(d, ActionFailed, [], snd)
       case Some(b) => CreateRequest(b, o, snd))
    case SwapOutSender => CreateRequest(d, o, snd)
    case SwapOutReceiver => AgreeSwapOut(w, d, o, snd)
    case SwapInReceiver => AgreeSwapIn(w, d, o, snd)
  }

  // ------------------------------------------------------------- messages

  function SendMessage(d: Data, o: Outcome, snd: Option<nat>): (x: Exec)
    ensures Reports(x) && x.Ran? && x.data == d && x.sender == snd
    ensures x.log == [] || (|x.log| == 1 && x.log[0].Sent?)
  {
    if d.nextMessage.None? then Ran(d, ActionFailed, [], snd)
    else Ran(d, if o.sent then ActionSucceeded else ActionFailed, [Sent(d.nextMessage.value)], snd)
  }

  /** A redundant sender is registered under the swap id; a second one is refused. */
  function SendWithRetry(d: Data, snd: Option<nat>, id: nat): (x: Exec)
    ensures Reports(x) && x.Ran? && x.data == d
    ensures x.event.ActionFailed? ==> x.log == [] && x.sender == snd
    ensures x.event.ActionSucceeded? ==>
            snd.None? && x.sender == Some(id) && |x.log| == 2 && x.log[0] == Registered(id) && x.log[1].Sent?
  {
    if d.nextMessage.None? || snd.Some? then Ran(d, ActionFailed, [], snd)
    else Ran(d, ActionSucceeded, [Registered(id), Sent(d.nextMessage.value)], Some(id))
  }

  function StopLog(snd: Option<nat>): seq<Entry> {
    if snd.Some? then [Stopped(snd.value)] else []
  }

  /** `StopSendMessageWithRetryWrapperAction`. */
  function Stopping(snd: Option<nat>, inner: Exec): Exec {
    match inner
    case Panic => Panic
    case Ran(d, e, log, s) => Ran(d, e, StopLog(snd) + log, s)
  }

  // -------------------------------------------------------------- premium

  datatype Verdict = Passed | TooHigh | Unexpected | NilRequest

  /** `CheckPremiumAmount`. */
  function CheckPremium(d: Data): Verdict {
    if d.swapInAgreement.Some? then
      if d.swapInRequest.None? then NilRequest
      else if d.swapInAgreement.value.premium > d.swapInRequest.value.premiumLimit then TooHigh
      else Passed
    else if d.swapOutAgreement.Some? then
      if d.swapOutRequest.None? then NilRequest
      else if d.swapOutAgreement.value.premium > d.swapOutRequest.value.premiumLimit then TooHigh
      else Passed
    else Unexpected
  }

  /** The premium is within the limit, the channel holds swap amount and fee, the probe went
      through, and the fee is at most three times what the node itself would expect. */
  predicate MayPayFee(w: World, d: Data, o: Outcome) {
    && CheckPremium(d).Passed? && !d.GetChain().Unknown? && d.swapOutAgreement.Some? && d.swapOutRequest.Some?
    && var invoice := w.decode(d.swapOutAgreement.value.payreq);
       && invoice.Some? && o.spendable.Some? && o.probeOk && o.flatFee.Some?
       && o.spendable.value >= (Msat(d.swapOutRequest.value.amount) + invoice.value.amountMsat) % TWO_64
       && invoice.value.amountMsat / 1000 <= 3 * o.flatFee.value
  }

  function PayFee(w: World, d: Data, o: Outcome, snd: Option<nat>): (x: Exec)
    ensures Reports(x)
    ensures x.Ran? ==> SameSwap(d, x.data) && SameAgreements(d, x.data) && SameClaim(d, x.data)
                       && SameAnchor(d, x.data) && x.data.blindingKey == d.blindingKey && x.sender == snd
    ensures x.Ran? ==> x.log == [] || (|x.log| == 1 && x.log[0].FeePayment?)
    ensures x.Panic? && d.swapOutRequest.Some? ==> d.swapInAgreement.Some?
    ensures x.Ran? ==> (x.log != [] <==> MayPayFee(w, d, o))
    ensures x.Ran? && x.log != [] ==> x.log == [FeePayment(d.swapOutAgreement.value.payreq, o.feePayment)]
    ensures x.Ran? ==> (x.event.ActionSucceeded? <==> x.log != [] && o.feePayment.Some?)
  {
    match CheckPremium(d)
    case NilRequest => Panic
    case TooHigh => Ran(d, ActionFailed, [], snd)
    case Unexpected => Ran(d, ActionFailed, [], snd)
    case Passed =>
      if d.GetChain().Unknown? then Ran(d, ActionFailed, [], snd)
      else if d.swapOutAgreement.None? || d.swapOutRequest.None? then Panic
      else
        var payreq := d.swapOutAgreement.value.payreq;
        match w.decode(payreq)
        case None => Ran(d, ActionFailed, [], snd)
        case Some(invoice) =>
          var required := (Msat(d.swapOutRequest.value.amount) + invoice.amountMsat) % TWO_64;
          if o.spendable.None? || o.spendable.value < required || !o.probeOk
          then Ran(d, ActionFailed, [], snd)
          else
            var b := d.(openingTxFee := invoice.amountMsat / 1000);
            if o.flatFee.None? || b.openingTxFee > 3 * o.flatFee.value then Ran(b, ActionFailed, [], snd)
            else if o.feePayment.None? then Ran(b, ActionFailed, [FeePayment(payreq, None)], snd)
            else Ran(b.(feePreimage := o.feePayment.value), ActionSucceeded,
                     [FeePayment(payreq, o.feePayment)], snd)
  }

  // ------------------------------------------------------ opening transaction

  /** The parameters `CreateOpeningTransaction` is called with. */
  function FundingParams(w: World, d: Data, preimage: Bytes, policy: Policy): OpeningParams
    requires d.AmountsKnown()
  {
    OpeningParams(d.GetTakerPubkey(), d.GetMakerPubkey(), w.sha256(preimage), d.GetOpeningTxAmount(),
                  policy.csv, if d.GetChain().Lbtc? then d.GetBlindingKey() else [])
  }

  /** `CreateAndBroadcastOpeningTransaction`. The wallet has already funded the output when
      the block height is asked for, so a failure there abandons it. */
  function OpenSwap(w: World, d: Data, o: Outcome, snd: Option<nat>): (x: Exec)
    ensures OpeningContract(d, snd, x)
    ensures d.openingTxBroadcasted.Some? && !d.GetChain().Unknown? ==> x == Ran(d, ActionSucceeded, [], snd)
    ensures d.AmountsKnown() && (d.GetChain().Lbtc? ==> d.GetBlindingKey() != []) ==> x.Ran?
  {
    if d.GetChain().Unknown? then Ran(d, ActionFailed, [], snd)
    else if d.openingTxBroadcasted.Some? then Ran(d, ActionSucceeded, [], snd)
    else if o.preimage.None? then Ran(d, ActionFailed, [], snd)
    else
      var b := d.(claimPreimage := o.preimage.value);
      if b.GetPolicy().None? then Ran(b, ActionFailed, [], snd)
      else if !b.AmountsKnown() then Panic
      else if o.payreq.None? then Ran(b, ActionFailed, [], snd)
      else if b.GetChain().Lbtc? && b.GetBlindingKey() == [] then Panic
      else if o.funded.None? then Ran(b, ActionFailed, [], snd)
      else Opened(w, b, o, snd)
  }

  /** An opening transaction is funded at most once per execution, never when the opening
      message is already there, and the message is there exactly when the action succeeds. */
  predicate OpeningContract(d: Data, snd: Option<nat>, x: Exec) {
    && Reports(x)
    && (x.Ran? ==>
          && SameSwap(d, x.data) && SameAgreements(d, x.data) && x.sender == snd
          && x.data.claimTxId == d.claimTxId && x.data.claimPaymentHash == d.claimPaymentHash
          && x.data.blindingKey == d.blindingKey
          && (x.log == [] || (|x.log| == 1 && x.log[0].Funded? && x.log[0].usable == x.event.ActionSucceeded?))
          && (d.openingTxBroadcasted.Some? ==> x.data == d && x.log == [])
          && (x.event.ActionSucceeded? ==> x.data.openingTxBroadcasted.Some? && !d.GetChain().Unknown?)
          && (x.event.ActionSucceeded? && d.openingTxBroadcasted.None? ==>
                |x.log| == 1 && d.AmountsKnown() && d.GetPolicy().Some?)
          && (x.event.ActionFailed? ==>
                x.data.openingTxBroadcasted == d.openingTxBroadcasted && x.data.openingTxHex == d.openingTxHex))
  }

  function Opened(w: World, b: Data, o: Outcome, snd: Option<nat>): Exec
    requires b.GetPolicy().Some? && b.AmountsKnown()
    requires o.preimage.Some? && o.payreq.Some? && o.funded.Some?
  {
    var params := FundingParams(w, b, o.preimage.value, b.GetPolicy().value);
    var txid := o.funded.value.txid;
    if o.height.None? then Ran(b, ActionFailed, [Funded(params, txid, o.funded.value.txHex, false)], snd)
    else
      var message := Opening(o.payreq.value, txid, o.funded.value.vout, params.blindingKey);
      Ran(b.(startingBlockHeight := o.height.value,
             startingBlockHeightSet := b.startingBlockHeightSet || IsLiquidV7(b),
             openingTxHex := o.funded.value.txHex,
             openingTxBroadcasted := Some(message),
             nextMessage := Some(OpeningMessage(message))),
          ActionSucceeded, [Funded(params, txid, o.funded.value.txHex, true)], snd)
  }

  function Broadcast(w: World, t: Table, d: Data, o: Outcome, snd: Option<nat>): (x: Exec)
    ensures OpeningContract(d, snd, x)
    ensures x.Ran? && x.event.ActionSucceeded? && t.SwapInSender? ==> CheckPremium(d).Passed?
    ensures d.openingTxBroadcasted.Some? && !d.GetChain().Unknown? && (t.SwapInSender? ==> CheckPremium(d).Passed?)
            ==> x == Ran(d, ActionSucceeded, [], snd)
    ensures && (t.SwapInSender? ==> d.swapInRequest.Some? && d.swapInAgreement.Some?)
            && d.AmountsKnown()
            && (d.GetChain().Lbtc? ==> d.GetBlindingKey() != [])
            ==> x.Ran?
  {
    if t.SwapInSender? then
      match CheckPremium(d)
      case NilRequest => Panic
      case TooHigh => Ran(d, ActionFailed, [], snd)
      case Unexpected => Ran(d, ActionFailed, [], snd)
      case Passed => OpenSwap(w, d, o, snd)
    else OpenSwap(w, d, o, snd)
  }

  // -------------------------------------------------------------- watching

  /** `AwaitPaymentOrCsvAction` and `AwaitCsvAction`. */
  function AwaitPaymentOrCsv(d: Data, o: Outcome, snd: Option<nat>): (x: Exec)
    ensures Rests(x) && (x.Ran? ==> x.data == d && x.log == [] && x.sender == snd)
    ensures d.openingTxBroadcasted.Some? && d.AmountsKnown() ==> x.Ran?
  {
    if d.GetChain().Unknown? then Ran(d, ActionFailed, [], snd)
    else if d.openingTxBroadcasted.None? then Panic
    else if d.GetPolicy().None? then Ran(d, ActionFailed, [], snd)
    else if !d.AmountsKnown() then Panic
    else Ran(d, if o.scriptOk then NoOp else ActionFailed, [], snd)
  }

  function AwaitCsv(d: Data, o: Outcome, snd: Option<nat>): (x: Exec)
    ensures Rests(x) && (x.Ran? ==> x.data == d && x.log == [] && x.sender == snd)
    ensures d.openingTxBroadcasted.Some? && d.AmountsKnown() ==> x.Ran?
  {
    if d.GetChain().Unknown? || d.GetPolicy().None? then Ran(d, ActionFailed, [], snd)
    else if !d.AmountsKnown() then Panic
    else if !o.scriptOk then Ran(d, ActionFailed, [], snd)
    else if d.openingTxBroadcasted.None? then Panic
    else Ran(d, NoOp, [], snd)
  }

  // ---------------------------------------------------------------- claims

  /** The three claim actions differ in what a failure returns. */
  function Claim(w: World, kind: SpendKind, d: Data, o: Outcome, snd: Option<nat>): (x: Exec)
    ensures x.Ran? ==>
            x.sender == snd && (x.data == d || (d.claimTxId == [] && x.data == d.(claimTxId := x.data.claimTxId)))
    ensures x.Ran? ==> x.event.ActionSucceeded? || x.event == (if kind.ByCoop? then ActionFailed else OnRetry)
                       || (d.GetChain().Unknown? && x.event.ActionFailed?)
    ensures x.Ran? && x.data.claimTxId == d.claimTxId ==> x.log == []
    ensures x.Ran? && x.data.claimTxId != d.claimTxId ==>
            && d.claimTxId == [] && x.data.claimTxId != [] && d.AmountsKnown() && x.event.ActionSucceeded?
            && Spendable(w, d.GetChain(), d.GetOpeningParams(w), d.openingTxHex)
            && x.log == [Spent(kind, d.GetOpeningParams(w), d.openingTxHex, d.claimPreimage, x.data.claimTxId)]
    ensures d.AmountsKnown() && (kind.ByCoop? ==> d.coopClose.Some?) ==> x.Ran?
  {
    if d.GetChain().Unknown? then Ran(d, if kind.ByCsv? then OnRetry else ActionFailed, [], snd)
    else if kind.ByCoop? && d.coopClose.None? then Panic
    else if d.claimTxId != [] then Ran(d, ActionSucceeded, [], snd)
    else if !d.AmountsKnown() then Panic
    else if o.spent.None? || !Spendable(w, d.GetChain(), d.GetOpeningParams(w), d.openingTxHex)
    then Ran(d, if kind.ByCoop? then ActionFailed else OnRetry, [], snd)
    else Ran(d.(claimTxId := o.spent.value), ActionSucceeded,
             [Spent(kind, d.GetOpeningParams(w), d.openingTxHex, d.claimPreimage, o.spent.value)], snd)
  }

  // ------------------------------------------------------------- the taker

  /** `GetCSVHeight() / 2` of the chain's validator. */
  function SafetyLimit(chain: Chain): u32 {
    if chain.Btc? then BITCOIN_SAFETY_LIMIT else LEGACY_LIQUID_CSV / 2
  }

  function SetStartingHeight(d: Data, o: Outcome, snd: Option<nat>): (x: Exec)
    ensures x.Ran? && Rests(x) && x.log == [] && x.sender == snd
    ensures x.data == d.(startingBlockHeight := x.data.startingBlockHeight)
    ensures IsLiquidV7(d) || d.startingBlockHeight != 0 ==> x.data == d
    ensures IsLiquidV7(d) && x.event.NoOp? ==>
            && o.height.Some?
            && InPaymentWindow(d.startingBlockHeight, d.startingBlockHeightSet, o.height.value, d.GetPolicy().value)
    ensures !IsLiquidV7(d) && x.event.NoOp? ==>
            if d.startingBlockHeight == 0 then o.height == Some(x.data.startingBlockHeight)
            else o.height.Some? && o.height.value < WrapU32(d.startingBlockHeight + SafetyLimit(d.GetChain()))
  {
    if d.GetChain().Unknown? || o.height.None? then Ran(d, ActionFailed, [], snd)
    else if IsLiquidV7(d) then
      Ran(d, if InPaymentWindow(d.startingBlockHeight, d.startingBlockHeightSet, o.height.value, d.GetPolicy().value)
             then NoOp else ActionFailed, [], snd)
    else if d.startingBlockHeight == 0 then Ran(d.(startingBlockHeight := o.height.value), NoOp, [], snd)
    else Ran(d, if o.height.value >= WrapU32(d.startingBlockHeight + SafetyLimit(d.GetChain()))
                then ActionFailed else NoOp, [], snd)
  }

  /** Whether the taker may still start waiting at this height. */
  predicate MayAwait(d: Data, height: u32, policy: Policy) {
    if d.GetChain().Btc?
    then d.startingBlockHeight != 0 && height < WrapU32(d.startingBlockHeight + BITCOIN_SAFETY_LIMIT)
    else InPaymentWindow(d.startingBlockHeight, d.startingBlockHeightSet, height, policy)
  }

  /** The claim invoice has been decoded, checked, and its hash bound to the swap. */
  predicate InvoiceBound(w: World, d: Data) {
    && d.openingTxBroadcasted.Some? && d.GetPolicy().Some? && d.AmountsKnown()
    && var invoice := w.decode(d.openingTxBroadcasted.value.payreq);
       && invoice.Some? && invoice.value.hash == d.claimPaymentHash
       && InvoiceAcceptable(d.GetChain(), d.GetPolicy().value, invoice.value, d.GetClaimAmount())
  }

  /** `AwaitTxConfirmationAction`. */
  function AwaitConfirmation(w: World, d: Data, o: Outcome, snd: Option<nat>): (x: Exec)
    ensures x.Ran? ==>
            && x.log == [] && x.sender == snd
            && x.data == d.(claimPaymentHash := x.data.claimPaymentHash, claimPreimage := x.data.claimPreimage)
            && (x.event.NoOp? || x.event.ActionFailed? || x.event.OnTxConfirmed?)
    ensures x.Ran? && d.AllowsNewPayment() ==> x.data.claimPreimage == d.claimPreimage && !x.event.OnTxConfirmed?
    ensures x.Ran? && x.event.NoOp? ==> InvoiceBound(w, x.data)
    ensures x.Ran? && x.event.NoOp? ==> o.height.Some? && MayAwait(d, o.height.value, d.GetPolicy().value)
    ensures x.Ran? && d.AllowsNewPayment() && InvoiceBound(w, d) ==> x.data == d
    ensures d.openingTxBroadcasted.Some? && d.AmountsKnown() ==> x.Ran?
  {
    if d.GetChain().Unknown? || d.GetPolicy().None? then Ran(d, ActionFailed, [], snd)
    else
      var policy := d.GetPolicy().value;
      if !policy.allowNewClaimPayment then
        if d.openingTxHex == [] then Ran(d, ActionFailed, [], snd)
        else if d.openingTxBroadcasted.None? then Panic
        else if o.recovered.None? then Ran(d, ActionFailed, [], snd)
        else Ran(d.(claimPreimage := o.recovered.value), OnTxConfirmed, [], snd)
      else if d.openingTxBroadcasted.None? then Panic
      else
        match w.decode(d.openingTxBroadcasted.value.payreq)
        case None => Ran(d, ActionFailed, [], snd)
        case Some(invoice) =>
          if !d.AmountsKnown() then Panic
          else if !InvoiceAcceptable(d.GetChain(), policy, invoice, d.GetClaimAmount())
          then Ran(d, ActionFailed, [], snd)
          else
            var b := d.(claimPaymentHash := invoice.hash);
            if o.height.None? || !MayAwait(d, o.height.value, policy) || !o.scriptOk
            then Ran(b, ActionFailed, [], snd)
            else Ran(b, NoOp, [], snd)
  }

  /** Whether the payment loop may pay at this height: the Bitcoin difference is taken
      in 32 bits, so a height below the start counts as far above it. */
  predicate MayPay(d: Data, height: u32, policy: Policy) {
    match d.GetChain()
    case Btc => WrapU32(height - d.startingBlockHeight) <= BITCOIN_SAFETY_LIMIT
    case Lbtc => InPaymentWindow(d.startingBlockHeight, d.startingBlockHeightSet, height, policy)
    case Unknown => true
  }

  function PaymentEntry(w: World, d: Data, height: u32, policy: Policy, paid: Option<Bytes>): Entry
    requires d.AmountsKnown() && d.openingTxBroadcasted.Some?
  {
    ClaimPayment(d.GetOpeningParams(w), d.openingTxHex, d.openingTxBroadcasted.value.payreq,
                 height, d.startingBlockHeight, policy.maxTotalCltvDelta, paid)
  }

  /** A payment attempt of this swap at a height the policy allows. */
  predicate FailedRound(w: World, d: Data, policy: Policy, e: Entry)
    requires d.AmountsKnown() && d.openingTxBroadcasted.Some?
  {
    e.ClaimPayment? && MayPay(d, e.height, policy) && e == PaymentEntry(w, d, e.height, policy, None)
  }

  predicate PaidRound(w: World, d: Data, policy: Policy, e: Entry, preimage: Bytes)
    requires d.AmountsKnown() && d.openingTxBroadcasted.Some?
  {
    e.ClaimPayment? && MayPay(d, e.height, policy) && e == PaymentEntry(w, d, e.height, policy, Some(preimage))
  }

  /** The payment loop: pay until it works, a height is missing or out of range, or time is up. */
  function PayRounds(w: World, d: Data, policy: Policy, ticks: seq<Tick>): (r: (Option<Bytes>, seq<Entry>))
    requires d.AmountsKnown() && d.openingTxBroadcasted.Some?
    ensures r.0.None? ==> forall i :: 0 <= i < |r.1| ==> FailedRound(w, d, policy, r.1[i])
    ensures r.0.Some? ==> |r.1| > 0 && PaidRound(w, d, policy, r.1[|r.1| - 1], r.0.value)
                          && forall i :: 0 <= i < |r.1| - 1 ==> FailedRound(w, d, policy, r.1[i])
  {
    if ticks == [] || ticks[0].height.None? || !MayPay(d, ticks[0].height.value, policy) then (None, [])
    else
      var entry := PaymentEntry(w, d, ticks[0].height.value, policy, ticks[0].preimage);
      if ticks[0].preimage.Some? then (ticks[0].preimage, [entry])
      else
        var (paid, log) := PayRounds(w, d, policy, ticks[1..]);
        (paid, [entry] + log)
  }

  /** `ValidateTxAndPayClaimInvoiceAction`. */
  function ValidateAndPay(w: World, d: Data, o: Outcome, snd: Option<nat>): (x: Exec)
    ensures Reports(x)
    ensures x.Ran? ==> x.sender == snd && x.data == d.(claimPreimage := x.data.claimPreimage)
    ensures x.Ran? && !d.AllowsNewPayment() ==> x.log == []
    ensures x.Ran? && d.AllowsNewPayment() && (x.log != [] || x.event.ActionSucceeded?) ==>
            && d.AmountsKnown() && d.openingTxBroadcasted.Some?
            && ValidateTx(w, d.GetChain(), d.GetOpeningParams(w), d.openingTxHex)
    ensures x.Ran? && d.AllowsNewPayment() && x.event.ActionFailed? ==>
            forall i :: 0 <= i < |x.log| ==> FailedRound(w, d, d.GetPolicy().value, x.log[i])
    ensures x.Ran? && d.AllowsNewPayment() && x.event.ActionSucceeded? ==>
            && |x.log| > 0 && PaidRound(w, d, d.GetPolicy().value, x.log[|x.log| - 1], x.data.claimPreimage)
            && forall i :: 0 <= i < |x.log| - 1 ==> FailedRound(w, d, d.GetPolicy().value, x.log[i])
    ensures d.openingTxBroadcasted.Some? && d.AmountsKnown() ==> x.Ran?
  {
    if d.GetChain().Unknown? || d.GetPolicy().None? then Ran(d, ActionFailed, [], snd)
    else if !d.AmountsKnown() then Panic
    else if !ValidateTx(w, d.GetChain(), d.GetOpeningParams(w), d.openingTxHex) then Ran(d, ActionFailed, [], snd)
    else
      var policy := d.GetPolicy().value;
      if !policy.allowNewClaimPayment then
        if d.claimPreimage != [] then Ran(d, ActionSucceeded, [], snd)
        else if d.openingTxBroadcasted.None? then Panic
        else if o.recovered.None? then Ran(d, ActionFailed, [], snd)
        else Ran(d.(claimPreimage := o.recovered.value), ActionSucceeded, [], snd)
      else if d.openingTxBroadcasted.None? then Panic
      else
        match PayRounds(w, d, policy, o.ticks)
        case (None, log) => Ran(d, ActionFailed, log, snd)
        case (Some(p), log) => Ran(d.(claimPreimage := p), ActionSucceeded, log, snd)
  }

  // ---------------------------------------------------------------- dispatch

  /** The action of a state. `id` names a newly created redundant sender. */
  function Execute(w: World, t: Table, s: State, d: Data, snd: Option<nat>, id: nat, o: Outcome): Exec {
    match s
    case CreateSwap => Create(w, t, d, o, snd)
    case PayFeeInvoice => PayFee(w, d, o, snd)
    case BroadcastOpeningTx => Broadcast(w, t, d, o, snd)
    case SendTxBroadcastedMessage => SendWithRetry(d, snd, id)
    case AwaitClaimPayment | ClaimSwapCsv | ClaimSwapCoop | WaitCsv => RefundAction(w, s, d, snd, o)
    case AwaitTxBroadcastedMessage | AwaitTxConfirmation | ValidateTxAndPayClaimInvoice | ClaimSwap =>
      TakerAction(w, t, s, d, snd, o)
    case _ => PlainAction(s, d, snd, o)
  }

  function RefundAction(w: World, s: State, d: Data, snd: Option<nat>, o: Outcome): Exec {
    match s
    case ClaimSwapCsv => Stopping(snd, Claim(w, ByCsv, d, o, None))
    case ClaimSwapCoop => Stopping(snd, Claim(w, ByCoop, d, o, None))
    case WaitCsv => Stopping(snd, AwaitCsv(d, o, None))
    case _ => AwaitPaymentOrCsv(d, o, snd)
  }

  function TakerAction(w: World, t: Table, s: State, d: Data, snd: Option<nat>, o: Outcome): Exec {
    match s
    case AwaitTxBroadcastedMessage => SetStartingHeight(d, o, snd)
    case AwaitTxConfirmation =>
      if t.SwapInReceiver? then Stopping(snd, AwaitConfirmation(w, d, o, None))
      else AwaitConfirmation(w, d, o, snd)
    case ValidateTxAndPayClaimInvoice => ValidateAndPay(w, d, o, snd)
    case _ => Claim(w, ByPreimage, d, o, snd)
  }

  function PlainAction(s: State, d: Data, snd: Option<nat>, o: Outcome): Exec {
    match s
    case SendRequest | SendFeeInvoice | SendAgreement | SendCoopClose => SendMessage(d, o, snd)
    case AwaitFeeInvoicePayment => if d.swapOutAgreement.None? then Panic else Ran(d, NoOp, [], snd)
    case SendPrivkey =>
      Ran(d.(nextMessage := Some(CoopCloseMessage(d.privkey))), ActionSucceeded, [BuiltPrivkeyMessage], snd)
    case SendCancel => Ran(d, if o.sent then ActionSucceeded else ActionFailed, [], snd)
    case SwapCanceled => Ran(d, Done, [], snd)
    case ClaimedPreimage | ClaimedCsv | ClaimedCoop => Ran(d, Done, StopLog(snd), None)
    case _ => Ran(d, NoOp, [], snd)
  }
}
