/** When a maker funds an opening output a second time: only after a crash that finds it stored
    in the opening state without an opening. And what a foreign opening message does to the
    first time. */
module Fundings {
  import opened Base
  import opened SwapData
  import opened States
  import opened Actions
  import opened Effects
  import opened Fsm
  import opened Presence
  import opened Makers
  import Progress

  predicate IsReopening(e: Entry) { e.Crashed? && e.reopens }

  ghost predicate FundedEver(log: seq<Entry>) {
    exists i :: 0 <= i < |log| && log[i].Funded?
  }

  /** Some funding has no reopening crash after it. */
  ghost predicate Unreopened(log: seq<Entry>) {
    exists i :: 0 <= i < |log| && log[i].Funded? && forall k :: i < k < |log| ==> !IsReopening(log[k])
  }

  /** Between any two fundings lies a reopening crash. */
  ghost predicate Separated(log: seq<Entry>) {
    forall i, j :: 0 <= i < j < |log| && log[i].Funded? && log[j].Funded? ==> ReopenedBetween(log, i, j)
  }

  ghost predicate ReopenedBetween(log: seq<Entry>, i: nat, j: nat) {
    exists k :: i < k < j <= |log| && IsReopening(log[k])
  }

  // ---------------------------------------------------------------- histories

  lemma QuietGrowth(log: seq<Entry>, more: seq<Entry>)
    requires forall i :: 0 <= i < |more| ==> !more[i].Funded?
    ensures FundedEver(log + more) <==> FundedEver(log)
    ensures Unreopened(log + more) ==> Unreopened(log)
    ensures Separated(log) ==> Separated(log + more)
  {
    var all := log + more;
    assert forall i :: 0 <= i < |all| ==> all[i] == if i < |log| then log[i] else more[i - |log|];
    if FundedEver(log) { var i :| 0 <= i < |log| && log[i].Funded?; assert all[i].Funded?; }
    if Unreopened(all) {
      var i :| 0 <= i < |all| && all[i].Funded? && forall k :: i < k < |all| ==> !IsReopening(all[k]);
      assert forall k :: i < k < |log| ==> log[k] == all[k];
      assert log[i].Funded?;
    }
    if Separated(log) {
      forall i, j | 0 <= i < j < |all| && all[i].Funded? && all[j].Funded? ensures ReopenedBetween(all, i, j) {
        assert ReopenedBetween(log, i, j);
        var k :| i < k < j && IsReopening(log[k]);
        assert IsReopening(all[k]);
      }
    }
  }

  /** A new funding is separated from the old ones if all of those are reopened. */
  lemma FundingGrowth(log: seq<Entry>, f: Entry)
    requires Separated(log) && !Unreopened(log) && f.Funded?
    ensures Separated(log + [f])
  {
    var all := log + [f];
    assert forall i :: 0 <= i < |log| ==> all[i] == log[i];
    forall i, j | 0 <= i < j < |all| && all[i].Funded? && all[j].Funded? ensures ReopenedBetween(all, i, j) {
      if j < |log| {
        assert ReopenedBetween(log, i, j);
        var k :| i < k < j && IsReopening(log[k]);
        assert IsReopening(all[k]);
      } else {
        assert log[i].Funded?;
        var k :| i < k < |log| && IsReopening(log[k]);
        assert IsReopening(all[k]);
      }
    }
  }

  lemma ReopeningGrowth(log: seq<Entry>, e: Entry)
    requires IsReopening(e)
    ensures !Unreopened(log + [e])
  {
    var all := log + [e];
    assert IsReopening(all[|log|]);
  }

  /** Separated fundings are at most one more than the reopening crashes. */
  lemma {:induction false} SeparatedCounts(log: seq<Entry>)
    requires Separated(log)
    ensures Count(log, IsFunded) <= Count(log, IsReopening) + (if Unreopened(log) then 1 else 0)
  {
    if log != [] {
      var init, e := log[..|log| - 1], log[|log| - 1];
      assert log == init + [e];
      forall i, j | 0 <= i < j < |init| && init[i].Funded? && init[j].Funded? ensures ReopenedBetween(init, i, j) {
        assert log[i].Funded? && log[j].Funded?;
        assert ReopenedBetween(log, i, j);
        var k :| i < k < j && IsReopening(log[k]);
        assert IsReopening(init[k]);
      }
      SeparatedCounts(init);
      if e.Funded? {
        LastFunding(init, e);
      } else if !IsReopening(e) {
        LastQuiet(init, e);
      }
    }
  }

  lemma LastFunding(init: seq<Entry>, e: Entry)
    requires e.Funded? && Separated(init + [e])
    ensures Unreopened(init + [e]) && !Unreopened(init)
  {
    var log := init + [e];
    assert log[|init|].Funded?;
    forall i | 0 <= i < |init| && init[i].Funded? ensures exists k :: i < k < |init| && IsReopening(init[k]) {
      assert log[i] == init[i];
      assert ReopenedBetween(log, i, |init|);
      var k :| i < k < |init| && IsReopening(log[k]);
      assert init[k] == log[k];
    }
  }

  lemma LastQuiet(init: seq<Entry>, e: Entry)
    requires !IsReopening(e)
    ensures Unreopened(init) ==> Unreopened(init + [e])
  {
    var log := init + [e];
    if Unreopened(init) {
      var i :| 0 <= i < |init| && init[i].Funded? && forall k :: i < k < |init| ==> !IsReopening(init[k]);
      assert log[i].Funded?;
      assert forall k :: i < k < |log| ==> !IsReopening(log[k]);
    }
  }

  // ------------------------------------------------------------- the invariant

  predicate Canceled(c: State) { c.SendCancel? || c.SwapCanceled? }

  predicate Past(c: State) { InRefundZone(c) || Canceled(c) }

  predicate Stranded(c: State, d: Data, p: Phase) {
    c.AwaitAgreement? && d.swapInAgreement.Some? && p != Pending(OnAgreementReceived)
  }

  /** Where a machine can be that has funded an output: in or past the opening action, or thrown
      back by a crash to a state that does not lead there again. */
  predicate Lodged(c: State, d: Data, p: Phase) {
    || Past(c) || c.BroadcastOpeningTx? || Stranded(c, d, p)
    || (c.AwaitFeeInvoicePayment? && (p.Down? || p == Pending(ActionFailed)))
  }

  predicate LodgedInStore(c: State, d: Data) {
    Past(c) || c.BroadcastOpeningTx? || (c.AwaitAgreement? && d.swapInAgreement.Some?) || c.AwaitFeeInvoicePayment?
  }

  /** Where a foreign opening message can be accepted after a funding: nowhere that matters. */
  predicate Dead(c: State, d: Data, p: Phase) { Canceled(c) || Stranded(c, d, p) }

  predicate DeadInStore(c: State, d: Data) { Canceled(c) || (c.AwaitAgreement? && d.swapInAgreement.Some?) }

  /** About to run the opening action on an unopened swap. */
  predicate Reopening(s: Sys) {
    s.current.BroadcastOpeningTx? && s.phase.Down? && s.data.openingTxBroadcasted.None?
  }

  predicate OpenedIn(c: State, d: Data) { InRefundZone(c) ==> d.openingTxBroadcasted.Some? }

  ghost predicate FundingsKept(s: Sys) {
    && Separated(s.log)
    && OpenedIn(s.current, s.data) && (s.stored.Some? ==> OpenedIn(s.stored.value.current, s.stored.value.data))
    && (Unreopened(s.log) ==> !Reopening(s))
    && (FundedEver(s.log) ==>
          && Lodged(s.current, s.data, s.phase) && s.stored.Some?
          && LodgedInStore(s.stored.value.current, s.stored.value.data))
    && (Foreign(s.log) ==> HasOpening(s))
    && (Foreign(s.log) && FundedEver(s.log) ==>
          && Dead(s.current, s.data, s.phase)
          && DeadInStore(s.stored.value.current, s.stored.value.data))
  }

  /** How the opening action and the refund zone are reached, and where the lodged states lead. */
  predicate FundingEdge(s: State, e: Event, n: Option<State>) {
    && (n == Some(BroadcastOpeningTx) ==>
          (s.AwaitAgreement? && e.OnAgreementReceived?) || (s.AwaitFeeInvoicePayment? && e.OnFeeInvoicePaid?))
    && (n.Some? && (Past(s) || s.BroadcastOpeningTx?) ==> Past(n.value))
    && (n.Some? && (Canceled(s) || (s.AwaitAgreement? && !e.OnAgreementReceived?)) ==> Canceled(n.value))
    && (s.AwaitFeeInvoicePayment? && e.ActionFailed? ==> n == Some(SendCancel))
    && (n.Some? && InRefundZone(n.value) ==> InRefundZone(s) || (s.BroadcastOpeningTx? && e.ActionSucceeded?))
  }

  lemma SwapInSenderFunding(s: State, e: Event)
    requires !s.SendCancel? && InTable(SwapInSender, s)
    ensures FundingEdge(s, e, SwapInSenderNext(s, e))
  {
  }

  lemma SwapOutReceiverFunding(s: State, e: Event)
    requires !s.SendCancel? && InTable(SwapOutReceiver, s)
    ensures FundingEdge(s, e, SwapOutReceiverNext(s, e))
  {
  }

  lemma FundingEdges(t: Table, s: State, e: Event)
    requires IsMaker(t) && InTable(t, s)
    ensures FundingEdge(s, e, Next(t, s, e))
  {
    hide SwapInSenderNext, SwapOutReceiverNext, SwapOutSenderNext, SwapInReceiverNext;
    if !s.SendCancel? {
      if t.SwapInSender? { SwapInSenderFunding(s, e); } else { SwapOutReceiverFunding(s, e); }
    }
  }

  /** One action funds at most once, and only an unopened swap in the opening state. */
  lemma ActionLog(w: World, s: Sys, n: State, x: Exec)
    requires Acts(w, s, n, x)
    ensures x.Ran? && forall i :: 0 <= i < |x.log| ==> !x.log[i].Crashed? && !x.log[i].OpeningHeard?
    ensures || (n.BroadcastOpeningTx? && s.data.openingTxBroadcasted.None? && |x.log| == 1)
            || (forall i :: 0 <= i < |x.log| ==> !x.log[i].Funded?)
    ensures s.data.openingTxBroadcasted.Some? ==> x.data.openingTxBroadcasted.Some?
    ensures !n.CreateSwap? ==> x.data.swapInAgreement == s.data.swapInAgreement
  {
    hide SenderEffect, PaymentDetails, ClaimDetails, ConfirmationDetails, CreateDetails, FundedAs, OpeningDone;
  }

  /** What an action adds to the history of fundings. */
  lemma ActionFunds(w: World, s: Sys, n: State, x: Exec, pre: seq<Entry>)
    requires x.Ran? && Acts(w, s, n, x) && Separated(s.log) && forall i :: 0 <= i < |pre| ==> pre[i].Moved?
    requires n.BroadcastOpeningTx? && s.data.openingTxBroadcasted.None? ==> !Unreopened(s.log)
    ensures var all := s.log + pre + x.log;
            && Separated(all) && (Foreign(all) ==> Foreign(s.log))
            && (FundedEver(all) ==> FundedEver(s.log) || (n.BroadcastOpeningTx? && s.data.openingTxBroadcasted.None?))
            && (Unreopened(all) ==> Unreopened(s.log) || n.BroadcastOpeningTx?)
  {
    hide Acts, Separated, Unreopened, FundedEver, Foreign;
    ActionLog(w, s, n, x);
    QuietGrowth(s.log, pre);
    HistoryGrows(s.log, pre);
    HistoryGrows(s.log + pre, x.log);
    if forall i :: 0 <= i < |x.log| ==> !x.log[i].Funded? {
      QuietGrowth(s.log + pre, x.log);
    } else {
      assert x.log == [x.log[0]];
      FundingGrowth(s.log + pre, x.log[0]);
    }
  }

  lemma MoveFundings(w: World, s: Sys, n: State, x: Exec)
    requires FundingsKept(s) && InSync(s) && Holds(s) && IsMaker(s.table) && s.phase.Pending? && x.Ran?
    requires Next(s.table, s.current, s.phase.event) == Some(n) && Acts(w, s, n, x)
    ensures FundingsKept(Move(s, n, x))
  {
    hide Next, Acts, Ready, Separated, Unreopened, FundedEver, Foreign;
    FundingEdges(s.table, s.current, s.phase.event);
    NeverFunded(s.log);
    ActionLog(w, s, n, x);
    NoEdgeToCreation(w, s, n);
    ActionFunds(w, s, n, x, [Moved(s.current, n, s.phase.event)]);
  }

  lemma NeverFunded(log: seq<Entry>)
    ensures Unreopened(log) ==> FundedEver(log)
  {
  }

  lemma NoEdgeToCreation(w: World, s: Sys, n: State)
    requires Holds(s) && s.phase.Pending? && Next(s.table, s.current, s.phase.event) == Some(n)
    ensures n.CreateSwap? ==> s.current.Default?
  {
    hide Next, Ready, Succeeded, Heard;
    EdgesSupply(s.table, s.current, s.phase.event);
  }

  lemma ResumeFundings(w: World, s: Sys, x: Exec)
    requires FundingsKept(s) && InSync(s) && s.phase.Down? && s.stored.Some? && x.Ran?
    requires Acts(w, s, s.current, x) && !FailOnRecover(s.table, s.current) && InTable(s.table, s.current)
    ensures FundingsKept(Resume(s, x))
  {
    hide Acts, Separated, Unreopened, FundedEver, Foreign;
    ActionLog(w, s, s.current, x);
    ActionFunds(w, s, s.current, x, []);
    assert s.log + [] + x.log == s.log + x.log;
  }

  lemma CrashFundings(s: Sys)
    requires FundingsKept(s)
    ensures FundingsKept(ApplyCrash(s))
  {
    hide Separated, Unreopened, FundedEver, Foreign;
    if s.stored.Some? {
      var e := CrashEntry(s, s.stored.value);
      QuietGrowth(s.log, [e]);
      HistoryGrows(s.log, [e]);
      if IsReopening(e) { ReopeningGrowth(s.log, e); }
    }
  }

  lemma InputOnce(d: Data, i: Input)
    requires ApplyInput(d, i).Some?
    ensures EventOf(i).OnAgreementReceived? ==> d.swapInAgreement.None?
    ensures i.OpeningReceived? ==> d.openingTxBroadcasted.None? && ApplyInput(d, i).value.openingTxBroadcasted.Some?
    ensures d.swapInAgreement.Some? ==> ApplyInput(d, i).value.swapInAgreement.Some?
    ensures !i.OpeningReceived? ==> forall k :: 0 <= k < |InputLog(i)| ==> !InputLog(i)[k].OpeningHeard?
  {
  }

  lemma DeliverFundings(s: Sys, i: Input)
    requires FundingsKept(s) && InSync(s) && NoWayBack(s)
    ensures FundingsKept(ApplyDeliver(s, i))
  {
    hide Separated, Unreopened, FundedEver, Foreign, ApplyInput, ValidInput, EventOf, Committed, Announced;
    if ApplyInput(s.data, i).Some? { InputOnce(s.data, i); }
    QuietGrowth(s.log, InputLog(i));
    if !i.OpeningReceived? { HistoryGrows(s.log, InputLog(i)); }
    hide InputLog;
  }

  lemma PersistFundings(s: Sys)
    requires FundingsKept(s) && InSync(s)
    ensures FundingsKept(ApplyPersist(s))
  {
    hide Separated, Unreopened, FundedEver, Foreign;
  }

  lemma DispatchFundings(w: World, s: Sys, o: Outcome)
    requires FundingsKept(s) && InSync(s) && Holds(s) && IsMaker(s.table)
    ensures FundingsKept(ApplyDispatch(w, s, o))
  {
    hide ApplyCrash, ApplyDispatch, Move, Summary, Details, Next, Separated, Unreopened, FundedEver, Foreign;
    CrashFundings(s);
    var n, x := DispatchCases(w, s, o);
    if s.phase.Pending? {
      FundingEdges(s.table, s.current, s.phase.event);
      DispatchIdles(w, s, o);
      if x.Ran? && Next(s.table, s.current, s.phase.event) == Some(n) && Acts(w, s, n, x) { MoveFundings(w, s, n, x); }
    }
  }

  lemma RestartFundings(w: World, s: Sys, o: Outcome)
    requires FundingsKept(s) && InSync(s) && Holds(s) && IsMaker(s.table) && s.stored.Some?
    ensures FundingsKept(ApplyRestart(w, s, o))
  {
    hide ApplyCrash, ApplyRestart, Resume, Summary, Details, Separated, Unreopened, FundedEver, Foreign;
    CrashFundings(s);
    var x := RestartCases(w, s, o);
    if x.Ran? && s.phase.Down? && !FailOnRecover(s.table, s.current) && Acts(w, s, s.current, x) {
      ResumeFundings(w, s, x);
    }
  }

  lemma StartFundings(w: World, s: Sys, r: Request)
    requires FundingsKept(s) && InSync(s)
    ensures FundingsKept(ApplyStart(w, s, r))
  {
    hide ValidRequest;
  }

  lemma StepFundings(w: World, s: Sys, l: Label)
    requires FundingsKept(s) && InSync(s) && Holds(s) && NoWayBack(s) && IsMaker(s.table)
    ensures FundingsKept(Apply(w, s, l))
  {
    hide FundingsKept, Holds, NoWayBack;
    match l
    case Start(r) => hide ApplyStart; StartFundings(w, s, r);
    case Deliver(i) => hide ApplyDeliver; DeliverFundings(s, i);
    case Dispatch(o) => hide ApplyDispatch; DispatchFundings(w, s, o);
    case Persist => hide ApplyPersist; PersistFundings(s);
    case Crash => hide ApplyCrash; CrashFundings(s);
    case Restart(o) =>
      if s.phase.Down? { hide ApplyRestart; RestartFundings(w, s, o); }
  }

  lemma {:induction false} AlwaysFundings(w: World, t: Table, key: Bytes, labels: seq<Label>)
    requires IsMaker(t)
    ensures FundingsKept(Run(w, New(t, key), labels))
  {
    if labels != [] {
      var before := labels[..|labels| - 1];
      AlwaysFundings(w, t, key, before);
      AlwaysInSync(w, t, key, before);
      AlwaysHolds(w, t, key, before);
      AlwaysNoWayBack(w, t, key, before);
      Progress.TableIsFixed(w, New(t, key), before);
      hide Apply, InSync, Holds, NoWayBack;
      StepFundings(w, Run(w, New(t, key), before), labels[|labels| - 1]);
    }
  }

  // ------------------------------------------------------------- main results

  /** On every maker run, with a crash allowed between any two steps, the wallet funds a second
      output only after a crash that finds the swap stored in the opening state without an
      opening: one that strikes after a failed opening was stored and before it is cancelled,
      or during or right after the recovery from such a crash. Without one it funds at most
      once. */
  lemma {:induction false} FundsAtMostOnce(w: World, t: Table, key: Bytes, labels: seq<Label>)
    requires IsMaker(t)
    ensures var log := Run(w, New(t, key), labels).log;
            && (forall i, j :: 0 <= i < j < |log| && log[i].Funded? && log[j].Funded? ==> ReopenedBetween(log, i, j))
            && Count(log, IsFunded) <= Count(log, IsReopening) + (if Unreopened(log) then 1 else 0)
  {
    AlwaysFundings(w, t, key, labels);
    hide Run;
    SeparatedCounts(Run(w, New(t, key), labels).log);
  }

  /** The opening action funds an output exactly when all its checks and services let it. */
  predicate CanOpen(t: Table, d: Data, o: Outcome) {
    && d.openingTxBroadcasted.None? && d.AmountsKnown() && d.GetPolicy().Some?
    && (d.GetChain().Lbtc? ==> d.GetBlindingKey() != []) && (t.SwapInSender? ==> CheckPremium(d).Passed?)
    && o.preimage.Some? && o.payreq.Some? && o.funded.Some?
  }

  lemma OpeningFunds(w: World, t: Table, d: Data, snd: Option<nat>, id: nat, o: Outcome)
    ensures var x := Execute(w, t, BroadcastOpeningTx, d, snd, id, o);
            && (CanOpen(t, d, o) <==> x.Ran? && x.log != [])
            && (CanOpen(t, d, o) ==> |x.log| == 1 && x.log[0].Funded? && x.log[0].usable == o.height.Some?)
  {
    hide Create, PayFee, SendWithRetry, RefundAction, TakerAction, PlainAction;
  }

  lemma OneFunding(log: seq<Entry>, f: Entry)
    requires f.Funded?
    ensures Count(log + [f], IsFunded) == Count(log, IsFunded) + 1
  {
    CountAppend(log, [f], IsFunded);
    assert [f][..0] == [] && Count([f][..0], IsFunded) == 0;
  }

  lemma NoFundings(log: seq<Entry>, more: seq<Entry>)
    requires forall i :: 0 <= i < |more| ==> !more[i].Funded?
    ensures Count(log + more, IsFunded) == Count(log, IsFunded)
  {
    CountAppend(log, more, IsFunded);
    CountNone(more, IsFunded);
  }

  predicate FundsAgain(s: Sys, l: Label) {
    l.Restart? && Reopening(s) && CanOpen(s.table, s.data, l.outcome)
  }

  lemma RestartFundsAgain(w: World, s: Sys, o: Outcome)
    requires InTable(s.table, s.current) && s.stored.Some?
    ensures Count(ApplyRestart(w, s, o).log, IsFunded)
            == Count(s.log, IsFunded) + (if FundsAgain(s, Restart(o)) then 1 else 0)
  {
    hide Count, CanOpen;
    NoFundings(s.log, [CrashEntry(s, s.stored.value)]);
    if s.phase.Down? && s.current.BroadcastOpeningTx? {
      var x := Execute(w, s.table, s.current, s.data, s.sender, |s.log|, o);
      OpeningFunds(w, s.table, s.data, s.sender, |s.log|, o);
      hide Execute;
      OnlyUnopened(s.table, s.data, o);
      if CanOpen(s.table, s.data, o) {
        assert x.log == [x.log[0]];
        OneFunding(s.log, x.log[0]);
      } else if x.Ran? {
        assert s.log + x.log == s.log;
      }
    } else {
      var x := RestartCases(w, s, o);
      hide ApplyRestart;
      if s.phase.Down? && Acts(w, s, s.current, x) {
        ActionLog(w, s, s.current, x);
        NoFundings(s.log, x.log);
      }
    }
  }

  lemma OnlyUnopened(t: Table, d: Data, o: Outcome)
    ensures CanOpen(t, d, o) ==> d.openingTxBroadcasted.None?
  {
  }

  lemma DispatchFundsNothingMore(w: World, s: Sys, o: Outcome)
    requires FundingsKept(s) && FundedEver(s.log) && IsMaker(s.table) && InTable(s.table, s.current)
    ensures Count(ApplyDispatch(w, s, o).log, IsFunded) == Count(s.log, IsFunded)
  {
    hide Count, ApplyDispatch, Next, Summary, Details, Separated, Unreopened, FundedEver, Foreign;
    var n, x := DispatchCases(w, s, o);
    NoFundings(s.log, [CrashEntry(s, s.stored.value)]);
    if s.phase.Pending? {
      var move := [Moved(s.current, n, s.phase.event)];
      FundingEdges(s.table, s.current, s.phase.event);
      NoFundings(s.log, move);
      if Next(s.table, s.current, s.phase.event) == Some(n) && Acts(w, s, n, x) {
        ActionLog(w, s, n, x);
        NoFundings(s.log + move, x.log);
      }
    }
  }

  /** Exactly what makes a maker that has funded an output fund another: the recovery of a swap
      whose stored opening had failed, with wallet and lightning node willing. */
  lemma {:induction false} FundsAgainExactlyWhen(w: World, t: Table, key: Bytes, labels: seq<Label>, l: Label)
    requires IsMaker(t) && FundedEver(Run(w, New(t, key), labels).log)
    ensures var s := Run(w, New(t, key), labels);
            Count(Apply(w, s, l).log, IsFunded) == Count(s.log, IsFunded) + (if FundsAgain(s, l) then 1 else 0)
  {
    var s := Run(w, New(t, key), labels);
    AlwaysFundings(w, t, key, labels);
    AlwaysHolds(w, t, key, labels);
    Progress.TableIsFixed(w, New(t, key), labels);
    hide Run, Count, FundedEver, Ready, Separated, Unreopened, Foreign;
    match l
    case Start(r) => hide ValidRequest;
    case Deliver(i) => hide ApplyInput, ValidInput, EventOf; NoFundings(s.log, InputLog(i));
    case Dispatch(o) => hide ApplyDispatch; DispatchFundsNothingMore(w, s, o);
    case Persist =>
    case Crash => NoFundings(s.log, [CrashEntry(s, s.stored.value)]);
    case Restart(o) => hide ApplyRestart; RestartFundsAgain(w, s, o);
  }
}
