/** The four transition tables (swap/states.go, swap/swap_in_sender.go,
    swap/swap_out_receiver.go, swap/swap_out_sender.go, swap/swap_in_receiver.go). */
module States {
  import opened Base
  import opened SwapData

  datatype Table = SwapInSender | SwapOutReceiver | SwapOutSender | SwapInReceiver

  predicate IsMaker(t: Table) { t.SwapInSender? || t.SwapOutReceiver? }

  /** State names without the prefix of their table. */
  datatype State =
    | Default
    | CreateSwap
    | SendRequest
    | AwaitAgreement
    | SendFeeInvoice
    | AwaitFeeInvoicePayment
    | SendAgreement
    | PayFeeInvoice
    | BroadcastOpeningTx
    | SendTxBroadcastedMessage
    | AwaitClaimPayment
    | ClaimSwapCsv
    | ClaimSwapCoop
    | WaitCsv
    | AwaitTxBroadcastedMessage
    | AwaitTxConfirmation
    | ValidateTxAndPayClaimInvoice
    | ClaimSwap
    | SendPrivkey
    | SendCoopClose
    | SendCancel
    | SwapCanceled
    | ClaimedPreimage
    | ClaimedCsv
    | ClaimedCoop

  datatype Event =
    | OnStarted                // the request of either direction, local or received
    | OnAgreementReceived      // swap-in agreement
    | OnFeeInvoiceReceived     // swap-out agreement
    | OnTxOpenedMessage
    | OnCancelReceived
    | OnCoopCloseReceived
    | OnTxConfirmed
    | OnCsvPassed
    | OnFeeInvoicePaid
    | OnClaimInvoicePaid
    | OnTimeout
    | OnInvalidMessage
    | ActionSucceeded
    | ActionFailed
    | OnRetry
    | NoOp
    | Done

  function EventOf(i: Input): Event {
    match i
    case SwapInAgreementReceived(_) => OnAgreementReceived
    case SwapOutAgreementReceived(_) => OnFeeInvoiceReceived
    case OpeningReceived(_) => OnTxOpenedMessage
    case CancelReceived(_) => OnCancelReceived
    case CoopCloseReceived(_) => OnCoopCloseReceived
    case TxConfirmed(_) => OnTxConfirmed
    case ConfirmationFailed => ActionFailed
    case CsvPassed => OnCsvPassed
    case FeeInvoicePaid => OnFeeInvoicePaid
    case ClaimInvoicePaid => OnClaimInvoicePaid
    case Timeout => OnTimeout
  }

  predicate IsFinished(s: State) {
    s.ClaimedCsv? || s.SwapCanceled? || s.ClaimedPreimage? || s.ClaimedCoop?
  }

  /** `getNextState`: None is `ErrEventRejected`. */
  function Next(t: Table, s: State, e: Event): Option<State> {
    if s.SendCancel? then
      if e.ActionSucceeded? || e.ActionFailed? then Some(SwapCanceled) else None
    else
      match t
      case SwapInSender => SwapInSenderNext(s, e)
      case SwapOutReceiver => SwapOutReceiverNext(s, e)
      case SwapOutSender => SwapOutSenderNext(s, e)
      case SwapInReceiver => SwapInReceiverNext(s, e)
  }

  /** The part both makers share, from the opening transaction on. */
  function MakerNext(s: State, e: Event): Option<State> {
    match s
    case BroadcastOpeningTx =>
      (match e
       case ActionSucceeded => Some(SendTxBroadcastedMessage)
       case ActionFailed => Some(SendCancel)
       case _ => None)
    case SendTxBroadcastedMessage =>
      (match e
       case ActionSucceeded => Some(AwaitClaimPayment)
       case ActionFailed => Some(WaitCsv)
       case _ => None)
    case AwaitClaimPayment =>
      (match e
       case OnClaimInvoicePaid => Some(ClaimedPreimage)
       case OnCsvPassed => Some(ClaimSwapCsv)
       case OnCancelReceived => Some(WaitCsv)
       case OnCoopCloseReceived => Some(ClaimSwapCoop)
       case OnInvalidMessage => Some(WaitCsv)
       case _ => None)
    case ClaimSwapCsv =>
      (match e
       case ActionSucceeded => Some(ClaimedCsv)
       case OnRetry => Some(ClaimSwapCsv)
       case _ => None)
    case ClaimSwapCoop =>
      (match e
       case ActionSucceeded => Some(ClaimedCoop)
       case ActionFailed => Some(WaitCsv)
       case _ => None)
    case WaitCsv =>
      (match e
       case OnCsvPassed => Some(ClaimSwapCsv)
       case OnCoopCloseReceived => Some(ClaimSwapCoop)
       case _ => None)
    case _ => None
  }

  function SwapInSenderNext(s: State, e: Event): Option<State> {
    match s
    case Default => if e.OnStarted? then Some(CreateSwap) else None
    case CreateSwap =>
      (match e
       case ActionSucceeded => Some(SendRequest)
       case ActionFailed => Some(SwapCanceled)
       case _ => None)
    case SendRequest =>
      (match e
       case ActionSucceeded => Some(AwaitAgreement)
       case ActionFailed => Some(SwapCanceled)
       case _ => None)
    case AwaitAgreement =>
      (match e
       case OnCancelReceived => Some(SwapCanceled)
       case OnTimeout => Some(SendCancel)
       case OnAgreementReceived => Some(BroadcastOpeningTx)
       case OnInvalidMessage => Some(SendCancel)
       case _ => None)
    case _ => MakerNext(s, e)
  }

  function SwapOutReceiverNext(s: State, e: Event): Option<State> {
    match s
    case Default =>
      (match e
       case OnStarted => Some(CreateSwap)
       case OnInvalidMessage => Some(SendCancel)
       case _ => None)
    case CreateSwap =>
      (match e
       case ActionSucceeded => Some(SendFeeInvoice)
       case ActionFailed => Some(SendCancel)
       case _ => None)
    case SendFeeInvoice =>
      (match e
       case ActionSucceeded => Some(AwaitFeeInvoicePayment)
       case ActionFailed => Some(SendCancel)
       case _ => None)
    case AwaitFeeInvoicePayment =>
      (match e
       case OnFeeInvoicePaid => Some(BroadcastOpeningTx)
       case OnCancelReceived => Some(SwapCanceled)
       case ActionFailed => Some(SendCancel)
       case _ => None)
    case _ => MakerNext(s, e)
  }

  /** The part both takers share, from the opening message on. The swap-out sender's
      table has a timeout edge out of `ClaimSwap`, the swap-in receiver's a cancel edge
      out of `AwaitTxConfirmation` and a timeout edge before it. */
  function TakerNext(t: Table, s: State, e: Event): Option<State> {
    match s
    case AwaitTxBroadcastedMessage =>
      (match e
       case OnCancelReceived => Some(SwapCanceled)
       case OnTxOpenedMessage => Some(AwaitTxConfirmation)
       case ActionFailed => Some(SendPrivkey)
       case OnInvalidMessage => Some(SendCancel)
       case OnTimeout => if t.SwapInReceiver? then Some(SendPrivkey) else None
       case _ => None)
    case AwaitTxConfirmation =>
      (match e
       case ActionFailed => Some(SendPrivkey)
       case OnTxConfirmed => Some(ValidateTxAndPayClaimInvoice)
       case OnCancelReceived => if t.SwapInReceiver? then Some(SendPrivkey) else None
       case _ => None)
    case ValidateTxAndPayClaimInvoice =>
      (match e
       case ActionFailed => Some(SendPrivkey)
       case ActionSucceeded => Some(ClaimSwap)
       case _ => None)
    case ClaimSwap =>
      (match e
       case ActionSucceeded => Some(ClaimedPreimage)
       case OnRetry => Some(ClaimSwap)
       case OnTimeout => if t.SwapOutSender? then Some(SendPrivkey) else None
       case _ => None)
    case SendPrivkey =>
      (match e
       case ActionFailed => Some(SendCancel)
       case ActionSucceeded => Some(SendCoopClose)
       case _ => None)
    case SendCoopClose =>
      (match e
       case ActionFailed => Some(SendCancel)
       case ActionSucceeded => Some(ClaimedCoop)
       case _ => None)
    case _ => None
  }

  function SwapOutSenderNext(s: State, e: Event): Option<State> {
    match s
    case Default => if e.OnStarted? then Some(CreateSwap) else None
    case CreateSwap =>
      (match e
       case ActionSucceeded => Some(SendRequest)
       case ActionFailed => Some(SwapCanceled)
       case _ => None)
    case SendRequest =>
      (match e
       case ActionSucceeded => Some(AwaitAgreement)
       case ActionFailed => Some(SwapCanceled)
       case _ => None)
    case AwaitAgreement =>
      (match e
       case OnCancelReceived => Some(SwapCanceled)
       case OnTimeout => Some(SendCancel)
       case OnFeeInvoiceReceived => Some(PayFeeInvoice)
       case OnInvalidMessage => Some(SendCancel)
       case ActionFailed => Some(SwapCanceled)
       case _ => None)
    case PayFeeInvoice =>
      (match e
       case ActionFailed => Some(SendCancel)
       case ActionSucceeded => Some(AwaitTxBroadcastedMessage)
       case _ => None)
    case _ => TakerNext(SwapOutSender, s, e)
  }

  function SwapInReceiverNext(s: State, e: Event): Option<State> {
    match s
    case Default =>
      (match e
       case OnStarted => Some(CreateSwap)
       case OnInvalidMessage => Some(SendCancel)
       case _ => None)
    case CreateSwap =>
      (match e
       case ActionSucceeded => Some(SendAgreement)
       case ActionFailed => Some(SendCancel)
       case _ => None)
    case SendAgreement =>
      (match e
       case ActionSucceeded => Some(AwaitTxBroadcastedMessage)
       case ActionFailed => Some(SendCancel)
       case _ => None)
    case _ => TakerNext(SwapInReceiver, s, e)
  }

  /** `FailOnrecover`. */
  predicate FailOnRecover(t: Table, s: State) {
    match t
    case SwapInSender => s.CreateSwap?
    case SwapOutReceiver => s.CreateSwap? || s.AwaitFeeInvoicePayment?
    case SwapOutSender => s.CreateSwap? || s.SendRequest? || s.AwaitAgreement? || s.PayFeeInvoice?
    case SwapInReceiver => s.CreateSwap?
  }

  /** The states a table declares. */
  predicate InTable(t: Table, s: State) {
    match s
    case Default | CreateSwap | SendCancel | SwapCanceled | ClaimedPreimage | ClaimedCoop => true
    case SendRequest | AwaitAgreement => t.SwapInSender? || t.SwapOutSender?
    case SendFeeInvoice | AwaitFeeInvoicePayment => t.SwapOutReceiver?
    case SendAgreement => t.SwapInReceiver?
    case PayFeeInvoice => t.SwapOutSender?
    case BroadcastOpeningTx | SendTxBroadcastedMessage | AwaitClaimPayment
      | ClaimSwapCsv | ClaimSwapCoop | WaitCsv | ClaimedCsv => IsMaker(t)
    case _ => !IsMaker(t)
  }

  /** Every edge leads to a declared state with an action, so `ErrFsmConfig` cannot
      occur, and finished states have no edges. */
  lemma TablesAreClosed(t: Table, s: State, e: Event)
    requires InTable(t, s)
    ensures Next(t, s, e).Some? ==> InTable(t, Next(t, s, e).value)
    ensures IsFinished(s) ==> Next(t, s, e).None?
  {
    if !s.SendCancel? {
      match t
      case SwapInSender => SwapInSenderClosed(s, e);
      case SwapOutReceiver => SwapOutReceiverClosed(s, e);
      case SwapOutSender => SwapOutSenderClosed(s, e);
      case SwapInReceiver => SwapInReceiverClosed(s, e);
    }
    hide SwapInSenderNext, SwapOutReceiverNext, SwapOutSenderNext, SwapInReceiverNext;
  }

  lemma SwapInSenderClosed(s: State, e: Event)
    requires InTable(SwapInSender, s) && !s.SendCancel?
    ensures var n := SwapInSenderNext(s, e); n.Some? ==> InTable(SwapInSender, n.value) && !IsFinished(s)
  {
  }

  lemma SwapOutReceiverClosed(s: State, e: Event)
    requires InTable(SwapOutReceiver, s) && !s.SendCancel?
    ensures var n := SwapOutReceiverNext(s, e); n.Some? ==> InTable(SwapOutReceiver, n.value) && !IsFinished(s)
  {
  }

  lemma SwapOutSenderClosed(s: State, e: Event)
    requires InTable(SwapOutSender, s) && !s.SendCancel?
    ensures var n := SwapOutSenderNext(s, e); n.Some? ==> InTable(SwapOutSender, n.value) && !IsFinished(s)
  {
  }

  lemma SwapInReceiverClosed(s: State, e: Event)
    requires InTable(SwapInReceiver, s) && !s.SendCancel?
    ensures var n := SwapInReceiverNext(s, e); n.Some? ==> InTable(SwapInReceiver, n.value) && !IsFinished(s)
  {
  }

  lemma NoEdgeToDefault(t: Table, s: State, e: Event)
    ensures Next(t, s, e) != Some(Default)
  {
  }
}
