/** The taker's side: what is known when the claim invoice is paid, and what follows. */
module Takers {
  import opened Base
  import opened SwapData
  import opened States
  import opened Actions
  import opened Effects
  import opened Fsm
  import opened Presence
  import Progress

  // ------------------------------------------------- own key and bound invoice

  /** The taker's place in the script is held by its own key. */
  predicate OwnKey(w: World, t: Table, s: State, d: Data) {
    && (t.SwapOutSender? && d.swapOutRequest.Some? ==> d.swapOutRequest.value.pubkey == w.pub(d.privkey))
    && (t.SwapInReceiver? && NeedsAgreement(s) ==>
          d.swapInAgreement.Some? && d.swapInAgreement.value.pubkey == w.pub(d.privkey))
  }

  /** Points at which the claim invoice has been checked. */
  predicate Checked(s: State, p: Phase) {
    || s.ValidateTxAndPayClaimInvoice? || s.ClaimSwap?
    || (s.AwaitTxConfirmation?
        && (match p
            case Idle => true
            case Pending(e) => !e.ActionFailed?
            case Executed(e) => !e.ActionFailed?
            case Recovered(e) => !e.ActionFailed?
            case Down => false))
  }

  ghost predicate Bound(w: World, s: Sys) {
    && OwnKey(w, s.table, s.current, s.data)
    && (s.current.CreateSwap? && Reported(s.phase) && s.table.SwapInReceiver? ==>
          OwnKey(w, s.table, AwaitTxBroadcastedMessage, s.data))
    && (s.data.AllowsNewPayment() && Checked(s.current, s.phase) ==> InvoiceBound(w, s.data))
    && (s.stored.Some? ==>
          && OwnKey(w, s.table, s.stored.value.current, s.stored.value.data)
          && (s.stored.value.data.AllowsNewPayment() && Checked(s.stored.value.current, Down) ==>
                InvoiceBound(w, s.stored.value.data)))
  }

  predicate TakerEdge(s: State, e: Event, n: Option<State>) {
    && (n == Some(ValidateTxAndPayClaimInvoice) ==> s.AwaitTxConfirmation? && e.OnTxConfirmed?)
    && (n == Some(ClaimSwap) ==>
          (s.ValidateTxAndPayClaimInvoice? && e.ActionSucceeded?) || (s.ClaimSwap? && e.OnRetry?))
    && (n == Some(CreateSwap) ==> s.Default? && e.OnStarted?)
    && (s.AwaitTxConfirmation? && e.ActionFailed? ==> n == Some(SendPrivkey))
  }

  lemma SwapOutSenderEdges(s: State, e: Event)
    requires !s.SendCancel?
    ensures TakerEdge(s, e, SwapOutSenderNext(s, e))
  {
  }

  lemma SwapInReceiverEdges(s: State, e: Event)
    requires !s.SendCancel?
    ensures TakerEdge(s, e, SwapInReceiverNext(s, e))
  {
  }

  lemma TakerEdges(t: Table, s: State, e: Event)
    requires !IsMaker(t)
    ensures TakerEdge(s, e, Next(t, s, e))
  {
    hide SwapInSenderNext, SwapOutReceiverNext, SwapOutSenderNext, SwapInReceiverNext;
    if !s.SendCancel? {
      if t.SwapOutSender? { SwapOutSenderEdges(s, e); } else { SwapInReceiverEdges(s, e); }
    }
  }

  /** Messages cannot disturb a bound invoice. */
  lemma BoundGrows(w: World, d: Data, e: Data)
    requires Grows(d, e) && InvoiceBound(w, d)
    ensures InvoiceBound(w, e) && e.AllowsNewPayment() == d.AllowsNewPayment()
  {
  }

  /** Actions other than creation and opening cannot either, except to bind anew. */
  lemma BoundKept(w: World, d: Data, e: Data)
    requires SameSwap(d, e) && SameAgreements(d, e) && d.openingTxBroadcasted == e.openingTxBroadcasted
    requires d.claimPaymentHash == e.claimPaymentHash
    ensures InvoiceBound(w, d) == InvoiceBound(w, e) && e.AllowsNewPayment() == d.AllowsNewPayment()
  {
  }

  lemma SamePolicy(d: Data, e: Data)
    requires SameSwap(d, e) && d.GetRequest().Some?
    ensures d.AllowsNewPayment() == e.AllowsNewPayment() && d.GetPolicy() == e.GetPolicy()
    ensures d.GetChain() == e.GetChain()
  {
  }

  lemma ActionBound(w: World, s: Sys, n: State, x: Exec)
    requires !IsMaker(s.table) && Acts(w, s, n, x) && InTable(s.table, n)
    requires OwnKey(w, s.table, n, s.data)
    requires NeedsRequest(n) ==> s.data.GetRequest().Some?
    requires s.data.AllowsNewPayment() && (n.ValidateTxAndPayClaimInvoice? || n.ClaimSwap?) ==> InvoiceBound(w, s.data)
    ensures OwnKey(w, s.table, n, x.data)
    ensures n.CreateSwap? && x.event.ActionSucceeded? && s.table.SwapInReceiver? ==>
            OwnKey(w, s.table, AwaitTxBroadcastedMessage, x.data)
    ensures x.data.AllowsNewPayment() && Checked(n, Executed(x.event)) ==> InvoiceBound(w, x.data)
    ensures x.data.AllowsNewPayment() && Checked(n, Recovered(x.event)) ==> InvoiceBound(w, x.data)
  {
    hide InvoiceBound, SenderEffect, OpeningContract, PaymentDetails, ClaimDetails;
    if s.data.GetRequest().Some? { SamePolicy(s.data, x.data); }
    if n.ValidateTxAndPayClaimInvoice? || n.ClaimSwap? { BoundKept(w, s.data, x.data); }
  }

  lemma MoveBound(w: World, s: Sys, n: State, x: Exec)
    requires Bound(w, s) && InSync(s) && Holds(s) && !IsMaker(s.table) && s.phase.Pending?
    requires Next(s.table, s.current, s.phase.event) == Some(n) && Acts(w, s, n, x)
    ensures Bound(w, Move(s, n, x))
  {
    TablesAreClosed(s.table, s.current, s.phase.event);
    EdgesSupply(s.table, s.current, s.phase.event);
    Entering(s.table, s.current, s.phase.event, n, s.data);
    TakerEdges(s.table, s.current, s.phase.event);
    hide Next, InvoiceBound, Summary, Details;
    ActionBound(w, s, n, x);
  }

  lemma ResumeBound(w: World, s: Sys, x: Exec)
    requires Bound(w, s) && InSync(s) && Holds(s) && !IsMaker(s.table) && s.phase.Down?
    requires Acts(w, s, s.current, x)
    ensures Bound(w, Resume(s, x))
  {
    hide InvoiceBound, Summary, Details;
    ActionBound(w, s, s.current, x);
  }

  lemma DispatchBound(w: World, s: Sys, o: Outcome)
    requires Bound(w, s) && InSync(s) && Holds(s) && !IsMaker(s.table)
    ensures Bound(w, ApplyDispatch(w, s, o))
  {
    CrashBound(w, s);
    var n, x := DispatchCases(w, s, o);
    if s.phase.Pending? {
      DispatchIdles(w, s, o);
      TakerEdges(s.table, s.current, s.phase.event);
      if Next(s.table, s.current, s.phase.event) == Some(n) && Acts(w, s, n, x) { MoveBound(w, s, n, x); }
    }
    hide ApplyCrash, ApplyDispatch, Move, Acts, Next, InvoiceBound, OwnKey;
  }

  lemma CrashBound(w: World, s: Sys)
    requires Bound(w, s)
    ensures Bound(w, ApplyCrash(s))
  {
    hide InvoiceBound, OwnKey;
  }

  lemma DeliverBound(w: World, s: Sys, i: Input)
    requires Bound(w, s) && InSync(s) && Holds(s)
    ensures Bound(w, ApplyDeliver(s, i))
  {
    if s.stored.Some? && ApplyInput(s.data, i).Some? {
      KeyGrows(w, s.table, s.current, s.data, ApplyInput(s.data, i).value);
    }
    hide ApplyInput, ValidInput, InvoiceBound, OwnKey;
  }

  lemma KeyGrows(w: World, t: Table, s: State, d: Data, e: Data)
    requires Grows(d, e) && OwnKey(w, t, s, d) && Ready(t, s, d)
    ensures OwnKey(w, t, s, e)
    ensures NeedsRequest(s) ==> e.AllowsNewPayment() == d.AllowsNewPayment()
    ensures InvoiceBound(w, d) ==> InvoiceBound(w, e)
  {
    if InvoiceBound(w, d) { BoundGrows(w, d, e); }
    hide InvoiceBound;
  }

  lemma PersistBound(w: World, s: Sys)
    requires Bound(w, s) && InSync(s)
    ensures Bound(w, ApplyPersist(s))
  {
    hide InvoiceBound, OwnKey;
  }

  lemma RestartBound(w: World, s: Sys, o: Outcome)
    requires Bound(w, s) && InSync(s) && Holds(s) && !IsMaker(s.table)
    ensures Bound(w, ApplyRestart(w, s, o))
  {
    CrashBound(w, s);
    var x := RestartCases(w, s, o);
    if s.phase.Down? && Acts(w, s, s.current, x) { ResumeBound(w, s, x); }
    hide ApplyRestart, ApplyCrash, Acts, Resume, InvoiceBound, OwnKey;
  }

  lemma StepBound(w: World, s: Sys, l: Label)
    requires Bound(w, s) && InSync(s) && Holds(s) && !IsMaker(s.table)
    ensures Bound(w, Apply(w, s, l))
  {
    match l
    case Start(q) => hide InvoiceBound;
    case Deliver(i) => hide ApplyDeliver, Bound; DeliverBound(w, s, i);
    case Dispatch(o) => hide ApplyDispatch, Bound; DispatchBound(w, s, o);
    case Persist => hide ApplyPersist, Bound; PersistBound(w, s);
    case Crash => hide ApplyCrash, Bound; CrashBound(w, s);
    case Restart(o) => hide ApplyRestart, Bound; RestartBound(w, s, o);
  }

  lemma {:induction false} AlwaysBound(w: World, t: Table, key: Bytes, labels: seq<Label>)
    requires !IsMaker(t)
    ensures Bound(w, Run(w, New(t, key), labels))
  {
    if labels != [] {
      var before := labels[..|labels| - 1];
      AlwaysBound(w, t, key, before);
      AlwaysInSync(w, t, key, before);
      AlwaysHolds(w, t, key, before);
      Progress.TableIsFixed(w, New(t, key), before);
      StepBound(w, Run(w, New(t, key), before), labels[|labels| - 1]);
    }
    hide Apply, Holds, InSync;
  }
}
