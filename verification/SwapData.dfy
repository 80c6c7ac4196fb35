/** Peer messages (swap/messages.go), the data of a swap and its getters (swap/swap.go). */
module SwapData {
  import opened Base
  import opened Timelock
  import Script

  /** The pure oracles a node consults. Their results never change during a run. */
  datatype World = World(
    decode: Bytes -> Option<Invoice>,       // DecodePayreq
    pub: Bytes -> Bytes,                    // public half of a private key
    sha256: Bytes -> Bytes32,
    scriptHash: seq<Script.Op> -> Bytes,    // output script paying to a witness script hash
    parse: Bytes -> Option<seq<Output>>,    // outputs of a raw transaction
    unblind: (Output, Bytes) -> Option<u64>,  // value of a policy-asset Liquid output
    scidOk: string -> bool)                 // validateScid

  datatype Output = Output(script: Bytes, value: u64)

  datatype Request = Request(
    version: nat,
    network: string,
    asset: Bytes,
    scid: string,
    amount: u64,
    pubkey: Bytes,
    premiumLimit: i64)

  /** `payreq` is the fee invoice of a swap-out agreement and empty for swap-in. */
  datatype Agreement = Agreement(version: nat, pubkey: Bytes, payreq: Bytes, premium: i64)

  datatype Opening = Opening(payreq: Bytes, txid: Bytes, scriptOut: u32, blindingKey: Bytes)

  datatype Message =
    | RequestMessage(request: Request)
    | AgreementMessage(agreement: Agreement)
    | OpeningMessage(opening: Opening)
    | CoopCloseMessage(privkey: Bytes)

  datatype Data = Data(
    swapInRequest: Option<Request>,
    swapInAgreement: Option<Agreement>,
    swapOutRequest: Option<Request>,
    swapOutAgreement: Option<Agreement>,
    openingTxBroadcasted: Option<Opening>,
    coopClose: Option<Bytes>,
    cancel: Option<string>,
    privkey: Bytes,
    feePreimage: Bytes,
    openingTxFee: u64,
    openingTxHex: Bytes,
    startingBlockHeight: u32,
    startingBlockHeightSet: bool,
    claimTxId: Bytes,
    claimPaymentHash: Bytes,
    claimPreimage: Bytes,
    blindingKey: Bytes,
    nextMessage: Option<Message>)
  {
    /** `GetRequest` with its precedence: swap-in before swap-out. */
    function GetRequest(): Option<Request> {
      if swapInRequest.Some? then swapInRequest else swapOutRequest
    }

    function GetScid(): string {
      match GetRequest()
      case None => ""
      case Some(r) => r.scid
    }

    function GetProtocolVersion(): nat {
      if GetRequest().Some? then GetRequest().value.version
      else if swapInAgreement.Some? then swapInAgreement.value.version
      else if swapOutAgreement.Some? then swapOutAgreement.value.version
      else 0
    }

    function GetChain(): Chain {
      match GetRequest()
      case None => Unknown
      case Some(r) =>
        if r.asset != [] && r.network == "" then Lbtc
        else if r.asset == [] && r.network != "" then Btc
        else Unknown
    }

    function GetPolicy(): Option<Policy> {
      PolicyFor(GetChain(), GetProtocolVersion())
    }

    predicate AllowsNewPayment() {
      GetPolicy().Some? && GetPolicy().value.allowNewClaimPayment
    }

    /** The messages whose fields the amount getters read. */
    predicate AmountsKnown() {
      && (swapInRequest.Some? ==> swapInAgreement.Some?)
      && (swapInRequest.None? && swapOutRequest.Some? ==> swapOutAgreement.Some?)
    }

    function GetClaimAmount(): u64
      requires AmountsKnown()
    {
      if swapInRequest.Some? then swapInRequest.value.amount
      else if swapOutRequest.Some?
      then (swapOutRequest.value.amount + swapOutAgreement.value.premium) % TWO_64
      else 0
    }

    function GetOpeningTxAmount(): u64
      requires AmountsKnown()
    {
      if swapInRequest.Some?
      then (swapInRequest.value.amount + swapInAgreement.value.premium) % TWO_64
      else if swapOutRequest.Some? then swapOutRequest.value.amount
      else 0
    }

    function GetMakerPubkey(): Bytes {
      if swapInRequest.Some? then swapInRequest.value.pubkey
      else if swapOutAgreement.Some? then swapOutAgreement.value.pubkey
      else []
    }

    function GetTakerPubkey(): Bytes {
      if swapOutRequest.Some? then swapOutRequest.value.pubkey
      else if swapInAgreement.Some? then swapInAgreement.value.pubkey
      else []
    }

    function GetPaymentHash(w: World): Bytes {
      if claimPaymentHash != [] then claimPaymentHash
      else if claimPreimage != [] then w.sha256(claimPreimage)
      else []
    }

    /** The key sent with the opening message wins over the locally created one. */
    function GetBlindingKey(): Bytes {
      if openingTxBroadcasted.Some? && openingTxBroadcasted.value.blindingKey != []
      then openingTxBroadcasted.value.blindingKey
      else blindingKey
    }

    function GetOpeningParams(w: World): OpeningParams
      requires AmountsKnown()
    {
      OpeningParams(GetTakerPubkey(), GetMakerPubkey(), GetPaymentHash(w), GetOpeningTxAmount(),
        if GetPolicy().Some? then GetPolicy().value.csv else 0, GetBlindingKey())
    }
  }

  datatype OpeningParams = OpeningParams(
    taker: Bytes,
    maker: Bytes,
    hash: Bytes,
    amount: u64,
    csv: u32,
    blindingKey: Bytes)

  function NewData(privkey: Bytes): Data {
    Data(None, None, None, None, None, None, None, privkey, [], 0, [], 0, false, [], [], [], [], None)
  }

  // ---------------------------------------------------------------- inputs

  /** What reaches a running machine: peer messages, watcher and payment
      notifications, and the timeout. */
  datatype Input =
    | SwapInAgreementReceived(agreement: Agreement)
    | SwapOutAgreementReceived(agreement: Agreement)
    | OpeningReceived(opening: Opening)
    | CancelReceived(text: string)
    | CoopCloseReceived(privkey: Bytes)
    | TxConfirmed(txHex: Bytes)
    | ConfirmationFailed
    | CsvPassed
    | FeeInvoicePaid
    | ClaimInvoicePaid
    | Timeout

  predicate ValidNetwork(network: string) {
    network in {"mainnet", "testnet", "testnet3", "testnet4", "signet", "regtest"}
  }

  predicate ValidRequest(w: World, r: Request) {
    && |r.pubkey| == 33
    && (r.asset == [] <==> r.network != "")
    && (r.asset != [] ==> |r.asset| == 33)
    && (r.network != "" ==> ValidNetwork(r.network))
    && w.scidOk(r.scid)
  }

  predicate ValidInput(d: Data, i: Input) {
    match i
    case SwapInAgreementReceived(a) => |a.pubkey| == 33
    case SwapOutAgreementReceived(a) => |a.pubkey| == 33
    case OpeningReceived(o) => (d.GetChain().Lbtc? ==> |o.blindingKey| == 32) && |o.txid| == 32
    case CoopCloseReceived(k) => |k| == 32
    case _ => true
  }

  /** Peer messages are write-once, and inputs touch nothing the node computed itself. */
  predicate Grows(d: Data, e: Data) {
    && e == d.(swapInAgreement := e.swapInAgreement, swapOutAgreement := e.swapOutAgreement,
               openingTxBroadcasted := e.openingTxBroadcasted, coopClose := e.coopClose,
               cancel := e.cancel, openingTxHex := e.openingTxHex)
    && (d.swapInAgreement.Some? ==> e.swapInAgreement == d.swapInAgreement)
    && (d.swapOutAgreement.Some? ==> e.swapOutAgreement == d.swapOutAgreement)
    && (d.openingTxBroadcasted.Some? ==> e.openingTxBroadcasted == d.openingTxBroadcasted)
    && (d.coopClose.Some? ==> e.coopClose == d.coopClose)
  }

  /** `ApplyToSwapData`: None when the message already exists. A cancel message
      overwrites; a confirmation carries the raw transaction. */
  function ApplyInput(d: Data, i: Input): (r: Option<Data>)
    ensures r.Some? ==> Grows(d, r.value)
  {
    match i
    case SwapInAgreementReceived(a) =>
      if d.swapInAgreement.Some? then None else Some(d.(swapInAgreement := Some(a)))
    case SwapOutAgreementReceived(a) =>
      if d.swapOutAgreement.Some? then None else Some(d.(swapOutAgreement := Some(a)))
    case OpeningReceived(o) =>
      if d.openingTxBroadcasted.Some? then None else Some(d.(openingTxBroadcasted := Some(o)))
    case CancelReceived(text) => Some(d.(cancel := Some(text)))
    case CoopCloseReceived(k) =>
      if d.coopClose.Some? then None else Some(d.(coopClose := Some(k)))
    case TxConfirmed(hex) => Some(d.(openingTxHex := hex))
    case _ => Some(d)
  }

  /** What an accepted input writes is what was received, and it writes nothing else. */
  lemma AppliedExactly(d: Data, i: Input)
    ensures i.SwapInAgreementReceived? ==>
            ApplyInput(d, i) == if d.swapInAgreement.Some? then None else Some(d.(swapInAgreement := Some(i.agreement)))
    ensures i.SwapOutAgreementReceived? ==>
            ApplyInput(d, i) == if d.swapOutAgreement.Some? then None
                                else Some(d.(swapOutAgreement := Some(i.agreement)))
    ensures i.OpeningReceived? ==>
            ApplyInput(d, i) == if d.openingTxBroadcasted.Some? then None
                                else Some(d.(openingTxBroadcasted := Some(i.opening)))
    ensures i.CoopCloseReceived? ==>
            ApplyInput(d, i) == if d.coopClose.Some? then None else Some(d.(coopClose := Some(i.privkey)))
    ensures i.CancelReceived? ==> ApplyInput(d, i) == Some(d.(cancel := Some(i.text)))
    ensures i.TxConfirmed? ==> ApplyInput(d, i) == Some(d.(openingTxHex := i.txHex))
    ensures i.ConfirmationFailed? || i.CsvPassed? || i.FeeInvoicePaid? || i.ClaimInvoicePaid? || i.Timeout? ==>
            ApplyInput(d, i) == Some(d)
  {
  }

  /** A valid request is on exactly one chain, which its data shows, with its version. */
  lemma RequestChain(w: World, d: Data, r: Request)
    requires ValidRequest(w, r) && d.GetRequest() == Some(r)
    ensures d.GetChain().Lbtc? <==> r.asset != []
    ensures d.GetChain().Btc? <==> r.network != ""
    ensures !d.GetChain().Unknown? && |r.pubkey| == 33 && d.GetProtocolVersion() == r.version
  {
  }

  /** The amounts of both directions: the requested amount on one leg, the premium on the other. */
  lemma AmountsAre(d: Data)
    requires d.AmountsKnown()
    ensures d.swapInRequest.Some? ==>
            && d.GetClaimAmount() == d.swapInRequest.value.amount
            && d.GetOpeningTxAmount()
               == (d.swapInRequest.value.amount + d.swapInAgreement.value.premium) % 0x1_0000_0000_0000_0000
    ensures d.swapInRequest.None? && d.swapOutRequest.Some? ==>
            && d.GetOpeningTxAmount() == d.swapOutRequest.value.amount
            && d.GetClaimAmount()
               == (d.swapOutRequest.value.amount + d.swapOutAgreement.value.premium) % 0x1_0000_0000_0000_0000
  {
  }
}
