/** A maker whose claim invoice was paid is done and does not refund itself, unless a crash made
    it forget the payment before it was stored. */
module Receipts {
  import opened Base
  import opened SwapData
  import opened States
  import opened Actions
  import opened Effects
  import opened Fsm
  import Progress

  predicate IsReceipt(e: Entry) { e.Moved? && e.event.OnClaimInvoicePaid? }

  /** A crash that throws the maker back to waiting for the payment. */
  predicate IsForgotten(e: Entry) { e.Crashed? && e.back.AwaitClaimPayment? }

  ghost predicate ForgottenBetween(log: seq<Entry>, i: nat, j: nat) {
    exists k :: i < k < j <= |log| && IsForgotten(log[k])
  }

  /** Between a payment and a later refund the payment was forgotten. */
  ghost predicate Apart(log: seq<Entry>) {
    forall i, j :: 0 <= i < j < |log| && IsReceipt(log[i]) && log[j].Spent? ==> ForgottenBetween(log, i, j)
  }

  /** Some payment has not been forgotten. */
  ghost predicate Standing(log: seq<Entry>) {
    exists i :: 0 <= i < |log| && IsReceipt(log[i]) && forall k :: i < k < |log| ==> !IsForgotten(log[k])
  }

  ghost predicate RefundAfterPayment(log: seq<Entry>) {
    exists i, j :: 0 <= i < j < |log| && IsReceipt(log[i]) && log[j].Spent?
  }

  ghost predicate RefundAfterForgotten(log: seq<Entry>) {
    exists i, k, j :: 0 <= i < k < j < |log| && IsReceipt(log[i]) && IsForgotten(log[k]) && log[j].Spent?
  }

  // ---------------------------------------------------------------- histories

  lemma OneMore(log: seq<Entry>, e: Entry)
    ensures Standing(log + [e]) <==> IsReceipt(e) || (Standing(log) && !IsForgotten(e))
    ensures Apart(log) && (e.Spent? ==> !Standing(log)) ==> Apart(log + [e])
  {
    var all := log + [e];
    assert all[|log|] == e && forall i :: 0 <= i < |log| ==> all[i] == log[i];
    if Standing(log) && !IsForgotten(e) {
      var i :| 0 <= i < |log| && IsReceipt(log[i]) && forall k :: i < k < |log| ==> !IsForgotten(log[k]);
      assert IsReceipt(all[i]) && forall k :: i < k < |all| ==> !IsForgotten(all[k]);
    }
    if Standing(all) && !IsReceipt(e) {
      var i :| 0 <= i < |all| && IsReceipt(all[i]) && forall k :: i < k < |all| ==> !IsForgotten(all[k]);
      assert IsReceipt(log[i]) && forall k :: i < k < |log| ==> !IsForgotten(log[k]);
    }
    if Apart(log) && (e.Spent? ==> !Standing(log)) {
      forall i, j | 0 <= i < j < |all| && IsReceipt(all[i]) && all[j].Spent? ensures ForgottenBetween(all, i, j) {
        assert IsReceipt(log[i]);
        if j < |log| { assert log[j].Spent? && ForgottenBetween(log, i, j); }
        var k :| i < k < j && IsForgotten(log[k]);
        assert IsForgotten(all[k]);
      }
    }
  }

  /** Entries of one action: no payment and no crash, and no refund while a payment stands. */
  lemma {:induction false} ManyMore(log: seq<Entry>, more: seq<Entry>)
    requires Apart(log) && forall i :: 0 <= i < |more| ==> !IsReceipt(more[i]) && !IsForgotten(more[i])
    requires Standing(log) ==> forall i :: 0 <= i < |more| ==> !more[i].Spent?
    ensures Apart(log + more) && (Standing(log + more) <==> Standing(log))
  {
    hide Apart, Standing;
    if more == [] {
      assert log + more == log;
    } else {
      var init, last := more[..|more| - 1], more[|more| - 1];
      ManyMore(log, init);
      OneMore(log + init, last);
      assert log + more == log + init + [last];
    }
  }

  // ------------------------------------------------------------- the invariant

  ghost predicate ReceiptKept(s: Sys) {
    && Apart(s.log)
    && (Standing(s.log) ==>
          && s.current.ClaimedPreimage? && s.stored.Some?
          && (s.stored.value.current.ClaimedPreimage? || s.stored.value.current.AwaitClaimPayment?))
  }

  /** The claim invoice is paid while the maker waits for it, and that finishes the swap. */
  lemma ReceiptEdge(t: Table, s: State, e: Event)
    requires IsMaker(t)
    ensures e.OnClaimInvoicePaid? && Next(t, s, e).Some? ==>
            s.AwaitClaimPayment? && Next(t, s, e).value.ClaimedPreimage?
    ensures s.AwaitClaimPayment? && e.OnClaimInvoicePaid? ==> Next(t, s, e) == Some(ClaimedPreimage)
    ensures s.ClaimedPreimage? ==> Next(t, s, e).None?
  {
  }

  lemma ActionReceipts(w: World, s: Sys, n: State, x: Exec)
    requires Acts(w, s, n, x)
    ensures x.Ran? && forall i :: 0 <= i < |x.log| ==> !IsReceipt(x.log[i]) && !IsForgotten(x.log[i])
    ensures n.ClaimedPreimage? ==> forall i :: 0 <= i < |x.log| ==> !x.log[i].Spent?
  {
    hide Details, SenderEffect, Keeps;
  }

  lemma MoveReceipts(w: World, s: Sys, n: State, x: Exec)
    requires ReceiptKept(s) && InSync(s) && IsMaker(s.table) && s.phase.Pending? && x.Ran?
    requires Next(s.table, s.current, s.phase.event) == Some(n) && Acts(w, s, n, x)
    ensures ReceiptKept(Move(s, n, x))
  {
    hide Acts, Next, Apart, Standing;
    ReceiptEdge(s.table, s.current, s.phase.event);
    ActionReceipts(w, s, n, x);
    var m := Moved(s.current, n, s.phase.event);
    OneMore(s.log, m);
    ManyMore(s.log + [m], x.log);
  }

  lemma ResumeReceipts(w: World, s: Sys, x: Exec)
    requires ReceiptKept(s) && InSync(s) && s.phase.Down? && Acts(w, s, s.current, x) && !IsFinished(s.current)
    ensures ReceiptKept(Resume(s, x))
  {
    hide Acts, Apart, Standing;
    ActionReceipts(w, s, s.current, x);
    ManyMore(s.log, x.log);
  }

  lemma CrashReceipts(s: Sys)
    requires ReceiptKept(s)
    ensures ReceiptKept(ApplyCrash(s))
  {
    hide Apart, Standing;
    if s.stored.Some? { OneMore(s.log, CrashEntry(s, s.stored.value)); }
  }

  lemma DispatchReceipts(w: World, s: Sys, o: Outcome)
    requires ReceiptKept(s) && InSync(s) && IsMaker(s.table)
    ensures ReceiptKept(ApplyDispatch(w, s, o))
  {
    hide ApplyCrash, ApplyDispatch, Move, Summary, Details, Next, Apart, Standing;
    CrashReceipts(s);
    var n, x := DispatchCases(w, s, o);
    if s.phase.Pending? && Next(s.table, s.current, s.phase.event) == Some(n) && Acts(w, s, n, x) {
      MoveReceipts(w, s, n, x);
    }
  }

  lemma RestartReceipts(w: World, s: Sys, o: Outcome)
    requires ReceiptKept(s) && InSync(s)
    ensures ReceiptKept(ApplyRestart(w, s, o))
  {
    hide ApplyCrash, ApplyRestart, Resume, Summary, Details, Apart, Standing;
    CrashReceipts(s);
    var x := RestartCases(w, s, o);
    if s.phase.Down? && !IsFinished(s.current) && Acts(w, s, s.current, x) { ResumeReceipts(w, s, x); }
  }

  lemma DeliverReceipts(s: Sys, i: Input)
    requires ReceiptKept(s) && InSync(s)
    ensures ReceiptKept(ApplyDeliver(s, i))
  {
    hide ApplyInput, ValidInput, EventOf, Apart, Standing;
    ManyMore(s.log, InputLog(i));
    hide InputLog;
  }

  lemma StepReceipts(w: World, s: Sys, l: Label)
    requires ReceiptKept(s) && InSync(s) && IsMaker(s.table)
    ensures ReceiptKept(Apply(w, s, l))
  {
    match l
    case Deliver(i) => hide ApplyDeliver, ReceiptKept; DeliverReceipts(s, i);
    case Dispatch(o) => hide ApplyDispatch, ReceiptKept; DispatchReceipts(w, s, o);
    case Crash => hide ApplyCrash, ReceiptKept; CrashReceipts(s);
    case Restart(o) => hide ApplyRestart, ReceiptKept; RestartReceipts(w, s, o);
    case _ => hide ApplyDispatch, ApplyRestart, ValidRequest, Apart, Standing;
  }

  lemma {:induction false} AlwaysReceipts(w: World, t: Table, key: Bytes, labels: seq<Label>)
    requires IsMaker(t)
    ensures ReceiptKept(Run(w, New(t, key), labels))
  {
    if labels != [] {
      var before := labels[..|labels| - 1];
      AlwaysReceipts(w, t, key, before);
      AlwaysInSync(w, t, key, before);
      Progress.TableIsFixed(w, New(t, key), before);
      hide Apply, InSync, ReceiptKept;
      StepReceipts(w, Run(w, New(t, key), before), labels[|labels| - 1]);
    }
  }

  // ------------------------------------------------------------ main results

  /** In every maker run, crashes included, a refund follows a payment of the claim invoice if
      and only if a crash between the two threw the maker back to waiting for the payment, before
      the finished swap was stored. Without a crash a paid maker never refunds. */
  lemma {:induction false} PaidMakerRefundsExactlyWhen(w: World, t: Table, key: Bytes, labels: seq<Label>)
    requires IsMaker(t)
    ensures var log := Run(w, New(t, key), labels).log;
            && (RefundAfterPayment(log) <==> RefundAfterForgotten(log))
            && (CrashFree(log) ==> !RefundAfterPayment(log))
  {
    AlwaysReceipts(w, t, key, labels);
    var log := Run(w, New(t, key), labels).log;
    hide Run;
    if RefundAfterPayment(log) {
      var i, j :| 0 <= i < j < |log| && IsReceipt(log[i]) && log[j].Spent?;
      assert ForgottenBetween(log, i, j);
    }
  }

  lemma FinishingRuns(w: World, t: Table, d: Data, snd: Option<nat>, id: nat, o: Outcome)
    ensures Execute(w, t, ClaimedPreimage, d, snd, id, o) == Ran(d, Done, StopLog(snd), None)
  {
    hide Create, PayFee, Broadcast, SendWithRetry, RefundAction, TakerAction;
  }

  /** A maker at rest that is told its claim invoice was paid finishes at once: it stops its
      sender, makes no transaction, and the finished swap is stored. */
  lemma PaidMakerIsDone(w: World, t: Table, key: Bytes, labels: seq<Label>, o: Outcome)
    requires IsMaker(t)
    requires var s := Run(w, New(t, key), labels); s.phase.Idle? && s.current.AwaitClaimPayment?
    ensures var s := Run(w, New(t, key), labels);
            var r := Run(w, s, [Deliver(ClaimInvoicePaid), Dispatch(o), Persist]);
            && r.phase.Idle? && r.current.ClaimedPreimage? && r.stored == Some(Snapshot(ClaimedPreimage, s.data))
            && r.sender.None? && r.data == s.data
            && r.log == s.log + [Moved(AwaitClaimPayment, ClaimedPreimage, OnClaimInvoicePaid)] + StopLog(s.sender)
  {
    AlwaysInSync(w, t, key, labels);
    Progress.TableIsFixed(w, New(t, key), labels);
    var s := Run(w, New(t, key), labels);
    RunThree(w, s, Deliver(ClaimInvoicePaid), Dispatch(o), Persist);
    hide Run, Next, Execute;
    ReceiptEdge(s.table, AwaitClaimPayment, OnClaimInvoicePaid);
    FinishingRuns(w, s.table, s.data, s.sender, |s.log|, o);
    assert ApplyDeliver(s, ClaimInvoicePaid).log == s.log;
  }
}
