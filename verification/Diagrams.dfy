/** The state diagrams of the documentation (docs/mmd) against the transition tables of the code:
    the two sets of edges, and exactly where they differ. */
module Diagrams {
  import opened Base
  import opened SwapData
  import opened States

  datatype Edge = Edge(from: State, event: Event, to: State)

  /** docs/mmd/swap-in-sender-states.md. */
  function SwapInSenderDiagram(): set<Edge> {
    {Edge(Default, OnStarted, CreateSwap),
     Edge(CreateSwap, ActionSucceeded, SendRequest),
     Edge(CreateSwap, ActionFailed, SwapCanceled),
     Edge(SendRequest, ActionSucceeded, AwaitAgreement),
     Edge(SendRequest, ActionFailed, SwapCanceled),
     Edge(AwaitAgreement, OnCancelReceived, SwapCanceled),
     Edge(AwaitAgreement, OnTimeout, SendCancel),
     Edge(AwaitAgreement, OnAgreementReceived, BroadcastOpeningTx),
     Edge(AwaitAgreement, OnInvalidMessage, SendCancel)}
    + MakerDiagram() + {Edge(SendTxBroadcastedMessage, ActionFailed, WaitCsv)}
  }

  /** docs/mmd/swap-out-receiver-states.md, without an edge to a state that no table declares:
      a failed announcement leads to an `Aborted` state there. */
  function SwapOutReceiverDiagram(): set<Edge> {
    {Edge(Default, OnStarted, CreateSwap),
     Edge(Default, OnInvalidMessage, SendCancel),
     Edge(CreateSwap, ActionSucceeded, SendFeeInvoice),
     Edge(CreateSwap, ActionFailed, SendCancel),
     Edge(SendFeeInvoice, ActionSucceeded, AwaitFeeInvoicePayment),
     Edge(SendFeeInvoice, ActionFailed, SendCancel),
     Edge(AwaitFeeInvoicePayment, OnFeeInvoicePaid, BroadcastOpeningTx),
     Edge(AwaitFeeInvoicePayment, OnCancelReceived, SwapCanceled)}
    + MakerDiagram()
  }

  /** What the diagrams of the two makers have in common. */
  function MakerDiagram(): set<Edge> {
    {Edge(BroadcastOpeningTx, ActionSucceeded, SendTxBroadcastedMessage),
     Edge(BroadcastOpeningTx, ActionFailed, SendCancel),
     Edge(SendTxBroadcastedMessage, ActionSucceeded, AwaitClaimPayment),
     Edge(AwaitClaimPayment, OnClaimInvoicePaid, ClaimedPreimage),
     Edge(AwaitClaimPayment, OnCsvPassed, ClaimSwapCsv),
     Edge(AwaitClaimPayment, OnCancelReceived, WaitCsv),
     Edge(AwaitClaimPayment, OnInvalidMessage, WaitCsv),
     Edge(AwaitClaimPayment, OnCoopCloseReceived, ClaimSwapCoop),
     Edge(ClaimSwapCsv, ActionSucceeded, ClaimedCsv),
     Edge(ClaimSwapCsv, OnRetry, ClaimSwapCsv),
     Edge(ClaimSwapCoop, ActionSucceeded, ClaimedCoop),
     Edge(ClaimSwapCoop, ActionFailed, WaitCsv),
     Edge(WaitCsv, OnCsvPassed, ClaimSwapCsv),
     Edge(WaitCsv, OnCoopCloseReceived, ClaimSwapCoop)}
  }

  /** docs/mmd/swap-out-sender-states.md. */
  function SwapOutSenderDiagram(): set<Edge> {
    {Edge(Default, OnStarted, CreateSwap),
     Edge(CreateSwap, ActionSucceeded, SendRequest),
     Edge(CreateSwap, ActionFailed, SwapCanceled),
     Edge(SendRequest, ActionSucceeded, AwaitAgreement),
     Edge(SendRequest, ActionFailed, SwapCanceled),
     Edge(AwaitAgreement, OnCancelReceived, SwapCanceled),
     Edge(AwaitAgreement, OnTimeout, SendCancel),
     Edge(AwaitAgreement, OnInvalidMessage, SendCancel),
     Edge(AwaitAgreement, OnFeeInvoiceReceived, PayFeeInvoice),
     Edge(PayFeeInvoice, ActionSucceeded, AwaitTxBroadcastedMessage),
     Edge(PayFeeInvoice, ActionFailed, SendCancel)}
    + TakerDiagram()
  }

  /** docs/mmd/swap-in-receiver-states.md. */
  function SwapInReceiverDiagram(): set<Edge> {
    {Edge(Default, OnStarted, CreateSwap),
     Edge(Default, OnInvalidMessage, SendCancel),
     Edge(CreateSwap, ActionSucceeded, SendAgreement),
     Edge(CreateSwap, ActionFailed, SendCancel),
     Edge(SendAgreement, ActionSucceeded, AwaitTxBroadcastedMessage),
     Edge(SendAgreement, ActionFailed, SendCancel),
     Edge(AwaitTxBroadcastedMessage, OnTimeout, SendPrivkey),
     Edge(AwaitTxConfirmation, OnCancelReceived, SendPrivkey)}
    + TakerDiagram()
  }

  /** What the diagrams of the two takers have in common. */
  function TakerDiagram(): set<Edge> {
    {Edge(AwaitTxBroadcastedMessage, OnTxOpenedMessage, AwaitTxConfirmation),
     Edge(AwaitTxBroadcastedMessage, OnCancelReceived, SwapCanceled),
     Edge(AwaitTxBroadcastedMessage, OnInvalidMessage, SendCancel),
     Edge(AwaitTxBroadcastedMessage, ActionFailed, SendPrivkey),
     Edge(AwaitTxConfirmation, OnTxConfirmed, ValidateTxAndPayClaimInvoice),
     Edge(AwaitTxConfirmation, ActionFailed, SendPrivkey),
     Edge(ValidateTxAndPayClaimInvoice, ActionSucceeded, ClaimSwap),
     Edge(ValidateTxAndPayClaimInvoice, ActionFailed, SendPrivkey),
     Edge(ClaimSwap, ActionSucceeded, ClaimedPreimage),
     Edge(ClaimSwap, OnRetry, ClaimSwap),
     Edge(SendPrivkey, ActionSucceeded, SendCoopClose),
     Edge(SendPrivkey, ActionFailed, SendCancel),
     Edge(SendCoopClose, ActionSucceeded, ClaimedCoop),
     Edge(SendCoopClose, ActionFailed, SendCancel)}
  }

  /** What all four have in common. */
  function CancelDiagram(): set<Edge> {
    {Edge(SendCancel, ActionSucceeded, SwapCanceled),
     Edge(SendCancel, ActionFailed, SwapCanceled)}
  }

  function Diagram(t: Table): set<Edge> {
    CancelDiagram() + SwapDiagram(t)
  }

  function SwapDiagram(t: Table): set<Edge> {
    match t
    case SwapInSender => SwapInSenderDiagram()
    case SwapOutReceiver => SwapOutReceiverDiagram()
    case SwapOutSender => SwapOutSenderDiagram()
    case SwapInReceiver => SwapInReceiverDiagram()
  }

  /** The edges of the code that the diagrams do not show. */
  function Undocumented(t: Table): set<Edge> {
    match t
    case SwapOutReceiver =>
      {Edge(AwaitFeeInvoicePayment, ActionFailed, SendCancel),
       Edge(SendTxBroadcastedMessage, ActionFailed, WaitCsv)}
    case SwapOutSender =>
      {Edge(AwaitAgreement, ActionFailed, SwapCanceled),
       Edge(ClaimSwap, OnTimeout, SendPrivkey)}
    case _ => {}
  }

  /** The states up to the one in which a table joins the part it shares. */
  predicate Early(s: State) {
    || s.Default? || s.CreateSwap? || s.SendRequest? || s.AwaitAgreement? || s.SendFeeInvoice?
    || s.AwaitFeeInvoicePayment? || s.SendAgreement? || s.PayFeeInvoice?
  }

  lemma MakerEdgesAre(s: State, e: Event, n: State)
    ensures Edge(s, e, n) in MakerDiagram() <==>
            MakerNext(s, e) == Some(n) && !(s.SendTxBroadcastedMessage? && e.ActionFailed?)
    ensures s.SendTxBroadcastedMessage? && e.ActionFailed? ==> MakerNext(s, e) == Some(WaitCsv)
    ensures Early(s) || s.SendCancel? ==> MakerNext(s, e).None?
  {
  }

  lemma TakerEdgesAre(t: Table, s: State, e: Event, n: State)
    requires !IsMaker(t)
    ensures Edge(s, e, n) in TakerDiagram() <==>
            && TakerNext(t, s, e) == Some(n)
            && !(s.AwaitTxBroadcastedMessage? && e.OnTimeout?) && !(s.AwaitTxConfirmation? && e.OnCancelReceived?)
            && !(s.ClaimSwap? && e.OnTimeout?)
    ensures (s.AwaitTxBroadcastedMessage? && e.OnTimeout?) || (s.AwaitTxConfirmation? && e.OnCancelReceived?) ==>
            TakerNext(t, s, e) == if t.SwapInReceiver? then Some(SendPrivkey) else None
    ensures s.ClaimSwap? && e.OnTimeout? ==> TakerNext(t, s, e) == if t.SwapOutSender? then Some(SendPrivkey) else None
    ensures Early(s) || s.SendCancel? ==> TakerNext(t, s, e).None?
  {
  }

  lemma SwapInSenderEdgesAre(s: State, e: Event, n: State)
    requires !s.SendCancel?
    ensures SwapInSenderNext(s, e) == Some(n) <==> Edge(s, e, n) in SwapInSenderDiagram()
  {
    hide MakerNext, MakerDiagram;
    MakerEdgesAre(s, e, n);
  }

  lemma SwapOutReceiverEdgesAre(s: State, e: Event, n: State)
    requires !s.SendCancel?
    ensures SwapOutReceiverNext(s, e) == Some(n) <==>
            Edge(s, e, n) in SwapOutReceiverDiagram() + Undocumented(SwapOutReceiver)
  {
    hide MakerNext, MakerDiagram;
    MakerEdgesAre(s, e, n);
  }

  lemma SwapOutSenderEdgesAre(s: State, e: Event, n: State)
    requires !s.SendCancel?
    ensures SwapOutSenderNext(s, e) == Some(n) <==>
            Edge(s, e, n) in SwapOutSenderDiagram() + Undocumented(SwapOutSender)
  {
    hide TakerNext, TakerDiagram;
    TakerEdgesAre(SwapOutSender, s, e, n);
  }

  lemma SwapInReceiverEdgesAre(s: State, e: Event, n: State)
    requires !s.SendCancel?
    ensures SwapInReceiverNext(s, e) == Some(n) <==> Edge(s, e, n) in SwapInReceiverDiagram()
  {
    hide TakerNext, TakerDiagram;
    TakerEdgesAre(SwapInReceiver, s, e, n);
  }

  /** Cancelling is part of no other diagram. */
  lemma NoOtherCancel(t: Table, e: Event, n: State)
    ensures Edge(SendCancel, e, n) !in SwapDiagram(t) + Undocumented(t)
  {
    hide MakerDiagram, TakerDiagram, MakerNext, TakerNext;
    MakerEdgesAre(SendCancel, e, n);
    TakerEdgesAre(SwapOutSender, SendCancel, e, n);
  }

  lemma SwapEdgesAre(t: Table, s: State, e: Event, n: State)
    requires !s.SendCancel?
    ensures Next(t, s, e) == Some(n) <==> Edge(s, e, n) in SwapDiagram(t) + Undocumented(t)
  {
    hide SwapInSenderNext, SwapOutReceiverNext, SwapOutSenderNext, SwapInReceiverNext;
    hide SwapInSenderDiagram, SwapOutReceiverDiagram, SwapOutSenderDiagram, SwapInReceiverDiagram;
    match t
    case SwapInSender => SwapInSenderEdgesAre(s, e, n);
    case SwapOutReceiver => SwapOutReceiverEdgesAre(s, e, n); hide Undocumented;
    case SwapOutSender => SwapOutSenderEdgesAre(s, e, n); hide Undocumented;
    case SwapInReceiver => SwapInReceiverEdgesAre(s, e, n);
  }

  /** The transition tables of the code are the documented diagrams and the undocumented edges,
      and no more. */
  lemma TablesFollowDiagrams(t: Table, s: State, e: Event, n: State)
    ensures Next(t, s, e) == Some(n) <==> Edge(s, e, n) in Diagram(t) + Undocumented(t)
  {
    hide SwapDiagram, Undocumented;
    if s.SendCancel? {
      NoOtherCancel(t, e, n);
    } else {
      SwapEdgesAre(t, s, e, n);
      hide Next;
    }
  }

  /** Where a cancel message leads: before anything is funded the swap is cancelled, a maker waits
      for its lock, and the responder of a swap-in gives its key away. */
  lemma CancelLeads(t: Table, s: State, text: string)
    ensures var n := Next(t, s, EventOf(CancelReceived(text)));
            n == if s.AwaitAgreement? && (t.SwapInSender? || t.SwapOutSender?) then Some(SwapCanceled)
                 else if s.AwaitFeeInvoicePayment? && t.SwapOutReceiver? then Some(SwapCanceled)
                 else if s.AwaitTxBroadcastedMessage? && !IsMaker(t) then Some(SwapCanceled)
                 else if s.AwaitClaimPayment? && IsMaker(t) then Some(WaitCsv)
                 else if s.AwaitTxConfirmation? && t.SwapInReceiver? then Some(SendPrivkey)
                 else None
  {
  }

  /** Where the watcher and a cooperative close lead. */
  lemma WatcherLeads(t: Table, s: State, k: Bytes)
    ensures s.AwaitTxConfirmation? && !IsMaker(t) ==> Next(t, s, EventOf(ConfirmationFailed)) == Some(SendPrivkey)
    ensures var n := Next(t, s, EventOf(CoopCloseReceived(k)));
            n == if IsMaker(t) && (s.AwaitClaimPayment? || s.WaitCsv?) then Some(ClaimSwapCoop) else None
    ensures var n := Next(t, s, EventOf(CsvPassed));
            n == if IsMaker(t) && (s.AwaitClaimPayment? || s.WaitCsv?) then Some(ClaimSwapCsv) else None
  {
  }

  /** Where the timeout leads. */
  lemma TimeoutLeads(t: Table, s: State)
    ensures var n := Next(t, s, EventOf(Timeout));
            n == if s.AwaitAgreement? && (t.SwapInSender? || t.SwapOutSender?) then Some(SendCancel)
                 else if s.AwaitTxBroadcastedMessage? && t.SwapInReceiver? then Some(SendPrivkey)
                 else if s.ClaimSwap? && t.SwapOutSender? then Some(SendPrivkey)
                 else None
  {
  }
}
