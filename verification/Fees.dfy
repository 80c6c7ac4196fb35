/** The swap-out sender pays the fee invoice at most once, wherever the process crashes. */
module Fees {
  import opened Base
  import opened SwapData
  import opened States
  import opened Actions
  import opened Effects
  import opened Fsm
  import Progress

  predicate IsFee(e: Entry) { e.FeePayment? }

  /** States from which the paying state cannot be reached again. */
  predicate AfterFee(s: State) {
    !s.Default? && !s.CreateSwap? && !s.SendRequest? && !s.AwaitAgreement?
  }

  /** After the first attempt the machine is past the fee, or was thrown back by a crash to
      the state it was stored in and is about to fail. */
  ghost predicate FeeSpent(s: Sys) {
    && (AfterFee(s.current) || (s.current.AwaitAgreement? && (s.phase.Down? || s.phase == Pending(ActionFailed))))
    && s.stored.Some? && (AfterFee(s.stored.value.current) || s.stored.value.current.AwaitAgreement?)
  }

  ghost predicate FeeOnce(s: Sys) {
    Count(s.log, IsFee) <= 1 && (Count(s.log, IsFee) > 0 ==> FeeSpent(s))
  }

  predicate FeeEdge(s: State, e: Event, n: Option<State>) {
    && (n == Some(PayFeeInvoice) ==> s.AwaitAgreement? && e.OnFeeInvoiceReceived?)
    && (AfterFee(s) && n.Some? ==> AfterFee(n.value))
    && (s.AwaitAgreement? && e.ActionFailed? ==> n == Some(SwapCanceled))
  }

  lemma FeeEdges(s: State, e: Event)
    ensures FeeEdge(s, e, Next(SwapOutSender, s, e))
  {
    hide SwapInSenderNext, SwapOutReceiverNext, SwapInReceiverNext;
  }

  lemma OneMore(log: seq<Entry>, more: seq<Entry>)
    requires |more| <= 1 || forall i :: 0 <= i < |more| ==> !more[i].FeePayment?
    ensures Count(log, IsFee) <= Count(log + more, IsFee) <= Count(log, IsFee) + 1
    ensures (forall i :: 0 <= i < |more| ==> !more[i].FeePayment?) ==> Count(log + more, IsFee) == Count(log, IsFee)
  {
    CountAppend(log, more, IsFee);
    if forall i :: 0 <= i < |more| ==> !more[i].FeePayment? {
      CountNone(more, IsFee);
    } else {
      assert more[..0] == [] && Count(more[..0], IsFee) == 0;
    }
  }

  lemma ActionFees(w: World, s: Sys, n: State, x: Exec)
    requires Acts(w, s, n, x)
    ensures x.Ran? && (n.PayFeeInvoice? ==> |x.log| <= 1)
    ensures !n.PayFeeInvoice? ==> forall i :: 0 <= i < |x.log| ==> !x.log[i].FeePayment?
  {
    hide SenderEffect, Keeps, PaymentDetails, ClaimDetails, ConfirmationDetails, OpeningContract, CreateDetails;
  }

  lemma MoveFeeOnce(w: World, s: Sys, n: State, x: Exec)
    requires FeeOnce(s) && InSync(s) && s.table.SwapOutSender? && s.phase.Pending? && x.Ran?
    requires Next(s.table, s.current, s.phase.event) == Some(n) && Acts(w, s, n, x)
    ensures FeeOnce(Move(s, n, x))
  {
    var move := [Moved(s.current, n, s.phase.event)];
    FeeEdges(s.current, s.phase.event);
    ActionFees(w, s, n, x);
    hide Next, Acts, Count;
    OneMore(s.log, move);
    OneMore(s.log + move, x.log);
  }

  lemma CrashFeeOnce(s: Sys)
    requires FeeOnce(s)
    ensures FeeOnce(ApplyCrash(s))
  {
    hide Count;
    if s.stored.Some? { OneMore(s.log, [ApplyCrash(s).log[|s.log|]]); }
  }

  lemma DispatchFeeOnce(w: World, s: Sys, o: Outcome)
    requires FeeOnce(s) && InSync(s) && s.table.SwapOutSender?
    ensures FeeOnce(ApplyDispatch(w, s, o))
  {
    CrashFeeOnce(s);
    var n, x := DispatchCases(w, s, o);
    if s.phase.Pending? {
      FeeEdges(s.current, s.phase.event);
      DispatchIdles(w, s, o);
      if Next(s.table, s.current, s.phase.event) == Some(n) && Acts(w, s, n, x) { MoveFeeOnce(w, s, n, x); }
    }
    hide ApplyDispatch, ApplyCrash, Move, Acts, Next, Count;
  }

  lemma RestartFeeOnce(w: World, s: Sys, o: Outcome)
    requires FeeOnce(s) && InSync(s) && s.table.SwapOutSender?
    ensures FeeOnce(ApplyRestart(w, s, o))
  {
    CrashFeeOnce(s);
    var x := RestartCases(w, s, o);
    if s.phase.Down? && !FailOnRecover(s.table, s.current) && Acts(w, s, s.current, x) {
      ActionFees(w, s, s.current, x);
      OneMore(s.log, x.log);
    }
    hide ApplyRestart, ApplyCrash, Acts, Count;
  }

  lemma DeliverFeeOnce(s: Sys, i: Input)
    requires FeeOnce(s) && InSync(s)
    ensures FeeOnce(ApplyDeliver(s, i))
  {
    OneMore(s.log, InputLog(i));
    hide Count, ApplyInput, ValidInput, EventOf;
  }

  lemma StepFeeOnce(w: World, s: Sys, l: Label)
    requires FeeOnce(s) && InSync(s) && s.table.SwapOutSender?
    ensures FeeOnce(Apply(w, s, l))
  {
    hide Count;
    match l
    case Start(r) => hide ValidRequest;
    case Deliver(i) => hide ApplyDeliver, FeeOnce; DeliverFeeOnce(s, i);
    case Dispatch(o) => hide ApplyDispatch, FeeOnce; DispatchFeeOnce(w, s, o);
    case Persist =>
    case Crash => hide ApplyCrash, FeeOnce; CrashFeeOnce(s);
    case Restart(o) => hide ApplyRestart, FeeOnce; RestartFeeOnce(w, s, o);
  }

  lemma {:induction false} AlwaysFeeOnce(w: World, key: Bytes, labels: seq<Label>)
    ensures FeeOnce(Run(w, New(SwapOutSender, key), labels))
  {
    if labels != [] {
      var before := labels[..|labels| - 1];
      AlwaysFeeOnce(w, key, before);
      AlwaysInSync(w, SwapOutSender, key, before);
      Progress.TableIsFixed(w, New(SwapOutSender, key), before);
      hide Apply, InSync;
      StepFeeOnce(w, Run(w, New(SwapOutSender, key), before), labels[|labels| - 1]);
    }
  }

  /** On every run of the swap-out sender, with crashes between any two steps, the fee
      payment is attempted at most once. */
  lemma {:induction false} FeeIsPaidAtMostOnce(w: World, key: Bytes, labels: seq<Label>)
    ensures Count(Run(w, New(SwapOutSender, key), labels).log, IsFee) <= 1
  {
    AlwaysFeeOnce(w, key, labels);
    hide Run;
  }
}
