/** The maker's side: once the opening transaction is announced there is no way back to a
    cancelled swap; a stored opening is final; and what becomes of a funded output. */
module Makers {
  import opened Base
  import opened SwapData
  import opened States
  import opened Actions
  import opened Effects
  import opened Fsm
  import opened Presence
  import Progress

  // ---------------------------------------------------------- point of no return

  ghost predicate Announced(log: seq<Entry>) {
    exists i :: 0 <= i < |log| && log[i].Moved? && log[i].to.SendTxBroadcastedMessage?
  }

  predicate InRefundZone(s: State) {
    || s.SendTxBroadcastedMessage? || s.AwaitClaimPayment? || s.ClaimSwapCsv? || s.ClaimSwapCoop? || s.WaitCsv?
    || s.ClaimedPreimage? || s.ClaimedCsv? || s.ClaimedCoop?
  }

  /** In the refund zone, or stored just before it with nothing left to fail. */
  predicate Committed(t: Table, s: State, d: Data) {
    InRefundZone(s) || (s.BroadcastOpeningTx? && OpeningDone(t, d))
  }

  /** States that never wait: their action reports, and both reports have an edge. */
  predicate Passing(s: State) {
    s.BroadcastOpeningTx? || s.SendTxBroadcastedMessage? || s.ClaimSwapCoop?
  }

  predicate OnlyReports(p: Phase) {
    match p
    case Idle => false
    case Pending(e) => e.ActionSucceeded? || e.ActionFailed?
    case Executed(e) => e.ActionSucceeded? || e.ActionFailed?
    case Recovered(e) => e.ActionSucceeded? || e.ActionFailed?
    case Down => true
  }

  ghost predicate NoWayBack(s: Sys) {
    && (Passing(s.current) ==> OnlyReports(s.phase))
    && (Announced(s.log) ==>
          && Committed(s.table, s.current, s.data) && s.stored.Some?
          && Committed(s.table, s.stored.value.current, s.stored.value.data)
          && (s.current.BroadcastOpeningTx? ==> s.phase.Down? || Reported(s.phase)))
  }

  lemma AnnouncedAppend(log: seq<Entry>, more: seq<Entry>)
    ensures Announced(log) ==> Announced(log + more)
    ensures (forall i :: 0 <= i < |more| ==> !more[i].Moved? || !more[i].to.SendTxBroadcastedMessage?) ==>
            (Announced(log + more) ==> Announced(log))
  {
    if Announced(log) {
      var i :| 0 <= i < |log| && log[i].Moved? && log[i].to.SendTxBroadcastedMessage?;
      assert (log + more)[i] == log[i];
    }
    if Announced(log + more) {
      var i :| 0 <= i < |log + more| && (log + more)[i].Moved? && (log + more)[i].to.SendTxBroadcastedMessage?;
      assert if i < |log| then (log + more)[i] == log[i] else (log + more)[i] == more[i - |log|];
    }
  }

  /** The announcement is reached from a successful opening only, the zone has no exit, and
      every passing state has edges for both reports. */
  predicate MakerEdge(s: State, e: Event, n: Option<State>) {
    && (n == Some(SendTxBroadcastedMessage) ==> s.BroadcastOpeningTx? && e.ActionSucceeded?)
    && (n == Some(BroadcastOpeningTx) ==> s.AwaitAgreement? || s.AwaitFeeInvoicePayment?)
    && (InRefundZone(s) && n.Some? ==> InRefundZone(n.value))
    && (s.BroadcastOpeningTx? && e.ActionSucceeded? ==> n == Some(SendTxBroadcastedMessage))
    && (s.BroadcastOpeningTx? && e.ActionFailed? ==> n == Some(SendCancel))
    && (Passing(s) && (e.ActionSucceeded? || e.ActionFailed?) ==> n.Some?)
  }

  lemma SwapInSenderEdges(s: State, e: Event)
    requires !s.SendCancel?
    ensures MakerEdge(s, e, SwapInSenderNext(s, e))
  {
  }

  lemma SwapOutReceiverEdges(s: State, e: Event)
    requires !s.SendCancel?
    ensures MakerEdge(s, e, SwapOutReceiverNext(s, e))
  {
  }

  lemma MakerEdges(t: Table, s: State, e: Event)
    requires IsMaker(t)
    ensures MakerEdge(s, e, Next(t, s, e))
  {
    hide SwapInSenderNext, SwapOutReceiverNext, SwapOutSenderNext, SwapInReceiverNext;
    if !s.SendCancel? {
      if t.SwapInSender? { SwapInSenderEdges(s, e); } else { SwapOutReceiverEdges(s, e); }
    }
  }

  /** A passing state's action only reports, and no action logs a move. */
  lemma ActionPasses(w: World, s: Sys, n: State, x: Exec)
    requires Acts(w, s, n, x)
    ensures x.Ran? && forall i :: 0 <= i < |x.log| ==> !x.log[i].Moved?
    ensures Passing(n) ==> x.event.ActionSucceeded? || x.event.ActionFailed?
  {
    hide OpeningDone, CreateDetails, PaymentDetails, ConfirmationDetails, ClaimDetails, SenderEffect, Keeps;
  }

  lemma Announces(log: seq<Entry>, m: Entry)
    requires m.Moved? && m.to.SendTxBroadcastedMessage?
    ensures Announced(log + [m])
  {
    assert (log + [m])[|log|] == m;
  }

  lemma MoveNoWayBack(w: World, s: Sys, n: State, x: Exec)
    requires NoWayBack(s) && InSync(s) && Holds(s) && IsMaker(s.table) && s.phase.Pending? && x.Ran?
    requires Next(s.table, s.current, s.phase.event) == Some(n) && Acts(w, s, n, x)
    ensures NoWayBack(Move(s, n, x))
  {
    hide Next, OpeningDone, Ready, Acts, Announced;
    var move := [Moved(s.current, n, s.phase.event)];
    MakerEdges(s.table, s.current, s.phase.event);
    ActionPasses(w, s, n, x);
    AnnouncedAppend(s.log, move);
    AnnouncedAppend(s.log + move, x.log);
    if n.SendTxBroadcastedMessage? { Announces(s.log, move[0]); }
  }

  lemma ResumeNoWayBack(w: World, s: Sys, x: Exec)
    requires NoWayBack(s) && InSync(s) && IsMaker(s.table) && s.phase.Down? && Acts(w, s, s.current, x)
    ensures NoWayBack(Resume(s, x))
  {
    hide CreateDetails, PaymentDetails, ConfirmationDetails, SenderEffect, Keeps;
    AnnouncedAppend(s.log, x.log);
  }

  lemma DispatchNoWayBack(w: World, s: Sys, o: Outcome)
    requires NoWayBack(s) && InSync(s) && Holds(s) && IsMaker(s.table)
    ensures NoWayBack(ApplyDispatch(w, s, o))
  {
    CrashNoWayBack(s);
    var n, x := DispatchCases(w, s, o);
    MakerEdges(s.table, s.current, if s.phase.Pending? then s.phase.event else NoOp);
    if s.phase.Pending? && Next(s.table, s.current, s.phase.event) == Some(n) && Acts(w, s, n, x) {
      MoveNoWayBack(w, s, n, x);
    }
    if s.phase.Pending? { DispatchIdles(w, s, o); }
    hide ApplyCrash, ApplyDispatch, Move, Acts, Committed, Announced, Next;
  }

  lemma CrashNoWayBack(s: Sys)
    requires NoWayBack(s)
    ensures NoWayBack(ApplyCrash(s))
  {
    hide OpeningDone;
    if s.stored.Some? { AnnouncedAppend(s.log, [ApplyCrash(s).log[|s.log|]]); }
  }

  lemma DeliverNoWayBack(s: Sys, i: Input)
    requires NoWayBack(s) && InSync(s)
    ensures NoWayBack(ApplyDeliver(s, i))
  {
    hide OpeningDone, ApplyInput, EventOf;
    AnnouncedAppend(s.log, InputLog(i));
  }

  lemma PersistNoWayBack(s: Sys)
    requires NoWayBack(s) && InSync(s)
    ensures NoWayBack(ApplyPersist(s))
  {
    hide OpeningDone, Announced;
  }

  lemma RestartNoWayBack(w: World, s: Sys, o: Outcome)
    requires NoWayBack(s) && InSync(s) && IsMaker(s.table)
    ensures NoWayBack(ApplyRestart(w, s, o))
  {
    CrashNoWayBack(s);
    var x := RestartCases(w, s, o);
    if s.phase.Down? && Acts(w, s, s.current, x) { ResumeNoWayBack(w, s, x); }
    hide ApplyRestart, ApplyCrash, Acts, Resume, OpeningDone, Announced;
  }

  lemma StepNoWayBack(w: World, s: Sys, l: Label)
    requires NoWayBack(s) && InSync(s) && Holds(s) && IsMaker(s.table)
    ensures NoWayBack(Apply(w, s, l))
  {
    match l
    case Start(q) => hide OpeningDone, Ready;
    case Deliver(i) => hide ApplyDeliver, NoWayBack; DeliverNoWayBack(s, i);
    case Dispatch(o) => hide ApplyDispatch, NoWayBack; DispatchNoWayBack(w, s, o);
    case Persist => hide ApplyPersist, NoWayBack; PersistNoWayBack(s);
    case Crash => hide ApplyCrash, NoWayBack; CrashNoWayBack(s);
    case Restart(o) => hide ApplyRestart, NoWayBack; RestartNoWayBack(w, s, o);
  }

  lemma {:induction false} AlwaysNoWayBack(w: World, t: Table, key: Bytes, labels: seq<Label>)
    requires IsMaker(t)
    ensures NoWayBack(Run(w, New(t, key), labels))
  {
    if labels != [] {
      var before := labels[..|labels| - 1];
      AlwaysNoWayBack(w, t, key, before);
      AlwaysInSync(w, t, key, before);
      AlwaysHolds(w, t, key, before);
      Progress.TableIsFixed(w, New(t, key), before);
      StepNoWayBack(w, Run(w, New(t, key), before), labels[|labels| - 1]);
    }
    hide Apply, Holds, InSync;
  }

  /** Once a maker has entered `SendTxBroadcastedMessage`, no messages, watcher events,
      timeouts, crashes or recoveries bring it to a cancelled swap. */
  lemma {:induction false} NeverCanceledOnceAnnounced(w: World, t: Table, key: Bytes, labels: seq<Label>)
    requires IsMaker(t)
    ensures var s := Run(w, New(t, key), labels);
            Announced(s.log) ==> !s.current.SendCancel? && !s.current.SwapCanceled?
  {
    AlwaysNoWayBack(w, t, key, labels);
    Progress.TableIsFixed(w, New(t, key), labels);
    hide Run;
  }

  // ------------------------------------------------------------ funded once

  predicate IsFunded(e: Entry) { e.Funded? }

  /** Memory and store both hold the opening message. */
  predicate HasOpening(s: Sys) {
    s.data.openingTxBroadcasted.Some? && s.stored.Some? && s.stored.value.data.openingTxBroadcasted.Some?
  }

  lemma ActionFundsNothing(w: World, s: Sys, n: State, x: Exec, log: seq<Entry>)
    requires Acts(w, s, n, x) && s.data.openingTxBroadcasted.Some?
    ensures x.data.openingTxBroadcasted.Some? && Count(log + x.log, IsFunded) == Count(log, IsFunded)
  {
    hide CreateDetails, PaymentDetails, ConfirmationDetails, ClaimDetails, SenderEffect;
    CountAppend(log, x.log, IsFunded);
    CountNone(x.log, IsFunded);
  }

  lemma NoFunding(log: seq<Entry>, e: Entry)
    requires !e.Funded?
    ensures Count(log + [e], IsFunded) == Count(log, IsFunded)
  {
    CountAppend(log, [e], IsFunded);
    CountNone([e], IsFunded);
  }

  lemma StepFundsNothing(w: World, s: Sys, l: Label)
    requires HasOpening(s)
    ensures var r := Apply(w, s, l); HasOpening(r) && Count(r.log, IsFunded) == Count(s.log, IsFunded)
  {
    match l
    case Start(q) => hide ValidRequest;
    case Deliver(i) =>
      hide ApplyInput, ValidInput, EventOf;
      if InputLog(i) != [] { NoFunding(s.log, InputLog(i)[0]); }
      assert s.log + [] == s.log;
    case Dispatch(o) => hide ApplyDispatch, Count; DispatchFundsNothing(w, s, o);
    case Persist => hide Count;
    case Crash => hide Count; CrashFundsNothing(s);
    case Restart(o) => hide ApplyRestart, Count; RestartFundsNothing(w, s, o);
  }

  lemma CrashFundsNothing(s: Sys)
    requires HasOpening(s)
    ensures HasOpening(ApplyCrash(s)) && Count(ApplyCrash(s).log, IsFunded) == Count(s.log, IsFunded)
  {
    NoFunding(s.log, CrashEntry(s, s.stored.value));
  }

  lemma DispatchFundsNothing(w: World, s: Sys, o: Outcome)
    requires HasOpening(s)
    ensures var r := ApplyDispatch(w, s, o); HasOpening(r) && Count(r.log, IsFunded) == Count(s.log, IsFunded)
  {
    CrashFundsNothing(s);
    var n, x := DispatchCases(w, s, o);
    if s.phase.Pending? && Acts(w, s, n, x) {
      var move := Moved(s.current, n, s.phase.event);
      NoFunding(s.log, move);
      ActionFundsNothing(w, s, n, x, s.log + [move]);
    }
    hide ApplyDispatch, ApplyCrash, Acts, Next, Count;
  }

  lemma RestartFundsNothing(w: World, s: Sys, o: Outcome)
    requires HasOpening(s)
    ensures var r := ApplyRestart(w, s, o); HasOpening(r) && Count(r.log, IsFunded) == Count(s.log, IsFunded)
  {
    CrashFundsNothing(s);
    var x := RestartCases(w, s, o);
    if Acts(w, s, s.current, x) { ActionFundsNothing(w, s, s.current, x, s.log); }
    hide ApplyRestart, ApplyCrash, Acts, Count;
  }

  /** Once the opening message is stored, no continuation whatever calls the wallet for
      another opening transaction, and the message is never lost. */
  lemma {:induction false} OpeningIsFinal(w: World, s: Sys, labels: seq<Label>)
    requires HasOpening(s)
    ensures var r := Run(w, s, labels); HasOpening(r) && Count(r.log, IsFunded) == Count(s.log, IsFunded)
  {
    if labels != [] {
      OpeningIsFinal(w, s, labels[..|labels| - 1]);
      StepFundsNothing(w, Run(w, s, labels[..|labels| - 1]), labels[|labels| - 1]);
    }
    hide Apply, HasOpening, Count;
  }

  // -------------------------------------------------- the fate of a funded output

  predicate Failing(p: Phase) { p == Executed(ActionFailed) || p == Pending(ActionFailed) }

  /** Where a machine is that funded an output and then did, or did not, learn the height. */
  ghost predicate Fate(s: Sys, usable: bool) {
    if usable then Announced(s.log) || (s.current.BroadcastOpeningTx? && Reported(s.phase))
    else !Announced(s.log)
         && (s.current.SendCancel? || s.current.SwapCanceled? || (s.current.BroadcastOpeningTx? && Failing(s.phase)))
  }

  ghost predicate FundingDecided(s: Sys) {
    && (s.phase.Down? || s.phase.Recovered? ==> !CrashFree(s.log))
    && (CrashFree(s.log) ==> forall i :: 0 <= i < |s.log| && s.log[i].Funded? ==> Fate(s, s.log[i].usable))
  }

  /** A funded output's fate is kept by a move of a maker. */
  lemma FateMoves(s: Sys, n: State, x: Exec, usable: bool)
    requires IsMaker(s.table) && s.phase.Pending? && x.Ran? && Fate(s, usable)
    requires Next(s.table, s.current, s.phase.event) == Some(n)
    requires forall i :: 0 <= i < |x.log| ==> !x.log[i].Moved?
    ensures Fate(Move(s, n, x), usable)
  {
    var move := [Moved(s.current, n, s.phase.event)];
    MakerEdges(s.table, s.current, s.phase.event);
    AnnouncedAppend(s.log, move);
    AnnouncedAppend(s.log + move, x.log);
    if s.current.SendCancel? || s.current.SwapCanceled? { CancelEdges(s.table, s.current, s.phase.event); }
    hide Next;
    if n.SendTxBroadcastedMessage? { assert (s.log + move)[|s.log|].to.SendTxBroadcastedMessage?; }
  }

  lemma CancelEdges(t: Table, s: State, e: Event)
    requires s.SendCancel? || s.SwapCanceled?
    ensures var n := Next(t, s, e); n.Some? ==> n.value.SwapCanceled?
  {
  }

  lemma MoveDecided(w: World, s: Sys, n: State, x: Exec)
    requires FundingDecided(s) && NoWayBack(s) && IsMaker(s.table) && s.phase.Pending?
    requires Next(s.table, s.current, s.phase.event) == Some(n) && Acts(w, s, n, x)
    ensures FundingDecided(Move(s, n, x))
  {
    var r, k := Move(s, n, x), |s.log| + 1;
    MakerEdges(s.table, s.current, s.phase.event);
    hide Next, CreateDetails, PaymentDetails, ConfirmationDetails, ClaimDetails, SenderEffect, Keeps, OpeningDone;
    if CrashFree(r.log) {
      assert CrashFree(s.log) by {
        forall i | 0 <= i < |s.log| ensures !s.log[i].Crashed? { assert r.log[i] == s.log[i]; }
      }
      forall i | 0 <= i < |r.log| && r.log[i].Funded? ensures Fate(r, r.log[i].usable) {
        if i < |s.log| {
          assert r.log[i] == s.log[i];
          FateMoves(s, n, x, s.log[i].usable);
        } else {
          assert i >= k && r.log[i] == x.log[i - k];
          var move := [Moved(s.current, n, s.phase.event)];
          AnnouncedAppend(s.log, move);
          AnnouncedAppend(s.log + move, x.log);
        }
      }
    }
  }

  lemma CrashDecided(s: Sys)
    requires FundingDecided(s)
    ensures FundingDecided(ApplyCrash(s))
  {
    if s.stored.Some? {
      var c := ApplyCrash(s);
      assert c.log[|s.log|].Crashed?;
    }
  }

  lemma DispatchDecided(w: World, s: Sys, o: Outcome)
    requires FundingDecided(s) && NoWayBack(s) && IsMaker(s.table) && InSync(s)
    ensures FundingDecided(ApplyDispatch(w, s, o))
  {
    CrashDecided(s);
    MakerEdges(s.table, s.current, if s.phase.Pending? then s.phase.event else NoOp);
    var n, x := DispatchCases(w, s, o);
    if s.phase.Pending? { DispatchIdles(w, s, o); }
    if s.phase.Pending? && Next(s.table, s.current, s.phase.event) == Some(n) && Acts(w, s, n, x) {
      MoveDecided(w, s, n, x);
    }
    hide ApplyDispatch, ApplyCrash, Move, Acts, Next, Announced, CrashFree, OpeningDone;
  }

  lemma DeliverDecided(s: Sys, i: Input)
    requires FundingDecided(s) && NoWayBack(s)
    ensures FundingDecided(ApplyDeliver(s, i))
  {
    hide ApplyInput, EventOf, OpeningDone;
    AnnouncedAppend(s.log, InputLog(i));
    var log := s.log + InputLog(i);
    assert forall k :: 0 <= k < |s.log| ==> log[k] == s.log[k];
  }

  lemma PersistDecided(s: Sys)
    requires FundingDecided(s) && InSync(s)
    ensures FundingDecided(ApplyPersist(s))
  {
    hide Announced, CrashFree;
  }

  lemma RestartDecided(w: World, s: Sys, o: Outcome)
    requires FundingDecided(s)
    ensures FundingDecided(ApplyRestart(w, s, o))
  {
    var x := RestartCases(w, s, o);
    if s.phase.Down? {
      var i :| 0 <= i < |s.log| && s.log[i].Crashed?;
      hide ApplyRestart, Acts;
      assert ApplyRestart(w, s, o).log[i].Crashed?;
    }
  }

  lemma StepDecided(w: World, s: Sys, l: Label)
    requires FundingDecided(s) && NoWayBack(s) && IsMaker(s.table) && InSync(s)
    ensures FundingDecided(Apply(w, s, l))
  {
    match l
    case Start(q) => hide Announced, NoWayBack;
    case Deliver(i) => hide ApplyDeliver, FundingDecided; DeliverDecided(s, i);
    case Dispatch(o) => hide ApplyDispatch, FundingDecided; DispatchDecided(w, s, o);
    case Persist => hide ApplyPersist, FundingDecided; PersistDecided(s);
    case Crash => hide ApplyCrash, FundingDecided; CrashDecided(s);
    case Restart(o) => hide ApplyRestart, FundingDecided; RestartDecided(w, s, o);
  }

  lemma {:induction false} AlwaysDecided(w: World, t: Table, key: Bytes, labels: seq<Label>)
    requires IsMaker(t)
    ensures FundingDecided(Run(w, New(t, key), labels))
  {
    if labels != [] {
      var before := labels[..|labels| - 1];
      AlwaysDecided(w, t, key, before);
      AlwaysInSync(w, t, key, before);
      AlwaysNoWayBack(w, t, key, before);
      Progress.TableIsFixed(w, New(t, key), before);
      StepDecided(w, Run(w, New(t, key), before), labels[|labels| - 1]);
    }
    hide Apply, InSync, NoWayBack;
  }

  /** In a crash-free run a resting maker that funded an output is past the announcement if
      the block height could be read right afterwards, and has cancelled, leaving the output
      behind, if it could not. */
  lemma {:induction false} FundedOutputsFate(w: World, t: Table, key: Bytes, labels: seq<Label>, i: nat)
    requires IsMaker(t)
    requires var s := Run(w, New(t, key), labels);
             s.phase.Idle? && CrashFree(s.log) && i < |s.log| && s.log[i].Funded?
    ensures var s := Run(w, New(t, key), labels);
            && (s.log[i].usable <==> Announced(s.log))
            && (!s.log[i].usable <==> s.current.SendCancel? || s.current.SwapCanceled?)
  {
    AlwaysDecided(w, t, key, labels);
    AlwaysNoWayBack(w, t, key, labels);
    Progress.TableIsFixed(w, New(t, key), labels);
    hide Run, OpeningDone;
  }
}
