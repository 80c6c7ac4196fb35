/** At most one spending transaction and at most one redundant sender, on every run of
    every table. */
module Claims {
  import opened Base
  import opened SwapData
  import opened OnChain
  import opened States
  import opened Actions
  import opened Effects
  import opened Fsm
  import opened Presence

  predicate IsSpent(e: Entry) { e.Spent? }

  /** A crash that struck after a spending transaction was created and before it was stored. */
  predicate IsLostSpend(e: Entry) { e.Crashed? && e.lostSpend }

  /** The recorded transaction id accounts for every spend but the lost ones, exactly. */
  ghost predicate SpendsCounted(s: Sys) {
    && Count(s.log, IsSpent) == Count(s.log, IsLostSpend) + (if s.data.claimTxId == [] then 0 else 1)
    && (s.stored.Some? ==>
          s.stored.value.data.claimTxId == [] || s.stored.value.data.claimTxId == s.data.claimTxId)
  }

  lemma QuietSpends(log: seq<Entry>, more: seq<Entry>)
    requires forall i :: 0 <= i < |more| ==> !more[i].Spent? && !more[i].Crashed?
    ensures Count(log + more, IsSpent) == Count(log, IsSpent)
    ensures Count(log + more, IsLostSpend) == Count(log, IsLostSpend)
  {
    CountAppend(log, more, IsSpent);
    CountAppend(log, more, IsLostSpend);
    CountNone(more, IsSpent);
    CountNone(more, IsLostSpend);
  }

  lemma LastIsSpent(log: seq<Entry>, more: seq<Entry>)
    requires more != [] && more[|more| - 1].Spent?
    requires forall i :: 0 <= i < |more| - 1 ==> !more[i].Spent? && !more[i].Crashed?
    ensures Count(log + more, IsSpent) == Count(log, IsSpent) + 1
    ensures Count(log + more, IsLostSpend) == Count(log, IsLostSpend)
  {
    var init, last := more[..|more| - 1], [more[|more| - 1]];
    assert log + more == (log + init) + last;
    QuietSpends(log, init);
    CountAppend(log + init, last, IsSpent);
    CountAppend(log + init, last, IsLostSpend);
    assert Count(last, IsSpent) == 1 && Count(last, IsLostSpend) == 0;
  }

  /** One action adds at most one spend, and only while no transaction id is recorded. */
  lemma ActionSpends(w: World, t: Table, n: State, d: Data, snd: Option<nat>, id: nat, x: Exec, log: seq<Entry>)
    requires x.Ran? && Summary(n, d, snd, id, x) && Details(w, t, n, d, snd, x)
    ensures Count(log + x.log, IsLostSpend) == Count(log, IsLostSpend)
    ensures if x.data.claimTxId == d.claimTxId then Count(log + x.log, IsSpent) == Count(log, IsSpent)
            else d.claimTxId == [] && Count(log + x.log, IsSpent) == Count(log, IsSpent) + 1
  {
    ActionLogsSpend(w, t, n, d, snd, id, x);
    hide Summary, Details;
    if x.data.claimTxId == d.claimTxId {
      QuietSpends(log, x.log);
    } else {
      LastIsSpent(log, x.log);
    }
  }

  lemma ActionLogsSpend(w: World, t: Table, n: State, d: Data, snd: Option<nat>, id: nat, x: Exec)
    requires x.Ran? && Summary(n, d, snd, id, x) && Details(w, t, n, d, snd, x)
    ensures forall i :: 0 <= i < |x.log| ==> !x.log[i].Crashed?
    ensures if x.data.claimTxId == d.claimTxId then forall i :: 0 <= i < |x.log| ==> !x.log[i].Spent?
            else d.claimTxId == [] && x.log != [] && x.log[|x.log| - 1].Spent?
                 && forall i :: 0 <= i < |x.log| - 1 ==> !x.log[i].Spent?
  {
    hide SenderEffect, PaymentDetails, ConfirmationDetails, CreateDetails, OpeningContract, FundedAs;
    if !Claims(n) { hide Details; } else { hide Keeps; }
  }

  lemma CrashCounted(s: Sys)
    requires SpendsCounted(s)
    ensures SpendsCounted(ApplyCrash(s))
  {
    if s.stored.Some? {
      var c := ApplyCrash(s);
      var entry := [c.log[|c.log| - 1]];
      CountAppend(s.log, entry, IsSpent);
      CountAppend(s.log, entry, IsLostSpend);
      assert Count(entry, IsSpent) == 0;
      assert Count(entry, IsLostSpend) == if c.log[|c.log| - 1].lostSpend then 1 else 0;
    }
  }

  lemma DispatchCounted(w: World, s: Sys, o: Outcome)
    requires SpendsCounted(s) && InSync(s)
    ensures SpendsCounted(ApplyDispatch(w, s, o))
  {
    hide Next, Summary, Details, ApplyDispatch, ApplyCrash;
    CrashCounted(s);
    var n, x := DispatchCases(w, s, o);
    if s.phase.Pending? && Acts(w, s, n, x) {
      var move := [Moved(s.current, n, s.phase.event)];
      QuietSpends(s.log, move);
      ActionSpends(w, s.table, n, s.data, s.sender, |s.log|, x, s.log + move);
    }
  }

  lemma RestartCounted(w: World, s: Sys, o: Outcome)
    requires SpendsCounted(s) && InSync(s)
    ensures SpendsCounted(ApplyRestart(w, s, o))
  {
    hide Summary, Details, ApplyRestart, ApplyCrash;
    CrashCounted(s);
    var x := RestartCases(w, s, o);
    if Acts(w, s, s.current, x) {
      ActionSpends(w, s.table, s.current, s.data, s.sender, |s.log|, x, s.log);
    }
  }

  lemma DeliverCounted(s: Sys, i: Input)
    requires SpendsCounted(s) && InSync(s)
    ensures SpendsCounted(ApplyDeliver(s, i))
  {
    hide ApplyInput, ValidInput, EventOf, Count;
    QuietSpends(s.log, InputLog(i));
    hide InputLog;
  }

  lemma StepCounted(w: World, s: Sys, l: Label)
    requires SpendsCounted(s) && InSync(s)
    ensures SpendsCounted(Apply(w, s, l))
  {
    hide Count;
    match l
    case Start(r) => hide ValidRequest;
    case Deliver(i) => hide ApplyDeliver, SpendsCounted; DeliverCounted(s, i);
    case Dispatch(o) => hide ApplyDispatch, SpendsCounted; DispatchCounted(w, s, o);
    case Persist =>
    case Crash => hide ApplyCrash, SpendsCounted; CrashCounted(s);
    case Restart(o) => hide ApplyRestart, SpendsCounted; RestartCounted(w, s, o);
  }

  lemma {:induction false} AlwaysCounted(w: World, t: Table, key: Bytes, labels: seq<Label>)
    ensures SpendsCounted(Run(w, New(t, key), labels))
  {
    if labels != [] {
      var before := labels[..|labels| - 1];
      AlwaysCounted(w, t, key, before);
      AlwaysInSync(w, t, key, before);
      StepCounted(w, Run(w, New(t, key), before), labels[|labels| - 1]);
    }
    hide Apply;
  }

  /** On every run, with a crash allowed between any two steps, the spending transactions are
      the one on record and one for every crash that struck between creating and storing it.
      So there is at most one exactly when no crash lost one, or one did and none is on record. */
  lemma {:induction false} SpendsAtMostOnce(w: World, t: Table, key: Bytes, labels: seq<Label>)
    ensures var s := Run(w, New(t, key), labels);
            var spent, lost := Count(s.log, IsSpent), Count(s.log, IsLostSpend);
            && spent == lost + (if s.data.claimTxId == [] then 0 else 1)
            && (spent <= 1 <==> lost == 0 || (lost == 1 && s.data.claimTxId == []))
  {
    AlwaysCounted(w, t, key, labels);
    hide Run;
  }

  // ---------------------------------------------------------- write-once id

  lemma StepKeepsTxId(w: World, s: Sys, l: Label)
    requires InSync(s) && SpendsCounted(s) && s.data.claimTxId != []
    ensures var r := Apply(w, s, l);
            r.data.claimTxId == s.data.claimTxId || exists e :: r.log == s.log + [e] && IsLostSpend(e)
  {
    match l
    case Start(r) => hide ApplyDeliver, ApplyDispatch, ApplyPersist, ApplyCrash, ApplyRestart;
    case Deliver(i) => hide ApplyInput, ApplyStart, ApplyDispatch, ApplyPersist, ApplyCrash, ApplyRestart;
    case Dispatch(o) =>
      var n, x := DispatchCases(w, s, o);
      if Acts(w, s, n, x) { ActionSpends(w, s.table, n, s.data, s.sender, |s.log|, x, s.log); }
      hide Summary, Details, Next, ApplyStart, ApplyDeliver, ApplyDispatch, ApplyPersist, ApplyRestart;
    case Persist => hide ApplyStart, ApplyDeliver, ApplyDispatch, ApplyCrash, ApplyRestart;
    case Crash => hide ApplyStart, ApplyDeliver, ApplyDispatch, ApplyPersist, ApplyRestart;
    case Restart(o) =>
      var x := RestartCases(w, s, o);
      if Acts(w, s, s.current, x) { ActionSpends(w, s.table, s.current, s.data, s.sender, |s.log|, x, s.log); }
      hide Summary, Details, ApplyStart, ApplyDeliver, ApplyDispatch, ApplyPersist, ApplyRestart;
  }

  /** A recorded claim transaction id stays for the rest of the run, unless a crash loses it
      before it was stored. */
  lemma {:induction false} ClaimTxIdIsWriteOnce(w: World, s: Sys, labels: seq<Label>)
    requires InSync(s) && SpendsCounted(s) && s.data.claimTxId != []
    ensures var r := Run(w, s, labels);
            && InSync(r) && SpendsCounted(r)
            && (r.data.claimTxId == s.data.claimTxId
                || Count(r.log, IsLostSpend) > Count(s.log, IsLostSpend))
            && Count(r.log, IsLostSpend) >= Count(s.log, IsLostSpend)
  {
    if labels != [] {
      var mid, l := Run(w, s, labels[..|labels| - 1]), labels[|labels| - 1];
      ClaimTxIdIsWriteOnce(w, s, labels[..|labels| - 1]);
      StepInSync(w, mid, l);
      StepCounted(w, mid, l);
      StepExtendsLog(w, mid, l);
      CountMonotone(mid.log, Apply(w, mid, l).log, IsLostSpend);
      if mid.data.claimTxId != [] {
        StepKeepsTxId(w, mid, l);
        if Apply(w, mid, l).data.claimTxId != mid.data.claimTxId {
          var e :| Apply(w, mid, l).log == mid.log + [e] && IsLostSpend(e);
          CountAppend(mid.log, [e], IsLostSpend);
          assert Count([e], IsLostSpend) == 1;
        }
      }
    }
    hide Apply, InSync, SpendsCounted;
  }

  /** A maker at rest that can refund once the lock has passed. */
  predicate CanRefund(w: World, s: Sys) {
    && IsMaker(s.table) && (s.current.WaitCsv? || s.current.AwaitClaimPayment?) && s.phase.Idle? && s.stored.Some?
    && Refundable(w, s.data)
  }

  predicate Refundable(w: World, d: Data) {
    && d.claimTxId == [] && d.openingTxBroadcasted.Some? && d.AmountsKnown() && d.GetPolicy().Some?
    && Spendable(w, d.GetChain(), d.GetOpeningParams(w), d.openingTxHex)
  }

  lemma RefundRuns(w: World, t: Table, d: Data, snd: Option<nat>, id: nat, o: Outcome)
    requires o.spent.Some? && Refundable(w, d)
    ensures var x := Execute(w, t, ClaimSwapCsv, d, snd, id, o);
            x.Ran? && x.data == d.(claimTxId := o.spent.value) && x.event.ActionSucceeded?
  {
    hide Create, PayFee, Broadcast, SendWithRetry, TakerAction, PlainAction, AwaitCsv, AwaitPaymentOrCsv, Spendable;
  }

  /** Refunding in two steps: the watcher reports the lock, the action spends. */
  lemma Refund(w: World, s: Sys, o: Outcome)
    requires CanRefund(w, s) && o.spent.Some?
    ensures var r := Apply(w, Apply(w, s, Deliver(CsvPassed)), Dispatch(o));
            && r.table == s.table && r.current.ClaimSwapCsv? && r.phase == Executed(ActionSucceeded)
            && r.stored == Some(Snapshot(s.current, s.data)) && r.data == s.data.(claimTxId := o.spent.value)
            && Count(r.log, IsSpent) == Count(s.log, IsSpent) + 1
  {
    var s1 := Save(s).(phase := Pending(OnCsvPassed));
    LockReported(w, s);
    RefundMoves(w, s1, o);
    hide CanRefund, Next, Execute, ApplyDeliver, ApplyDispatch;
  }

  lemma LockReported(w: World, s: Sys)
    requires CanRefund(w, s)
    ensures ApplyDeliver(s, CsvPassed) == Save(s).(phase := Pending(OnCsvPassed))
    ensures Next(s.table, s.current, OnCsvPassed) == Some(ClaimSwapCsv)
  {
  }

  lemma RefundMoves(w: World, s: Sys, o: Outcome)
    requires CanRefund(w, s.(phase := Idle)) && s.phase == Pending(OnCsvPassed) && o.spent.Some?
    requires Next(s.table, s.current, OnCsvPassed) == Some(ClaimSwapCsv)
    ensures var r := ApplyDispatch(w, s, o);
            && r.table == s.table && r.current.ClaimSwapCsv? && r.phase == Executed(ActionSucceeded)
            && r.stored == s.stored && r.data == s.data.(claimTxId := o.spent.value)
            && Count(r.log, IsSpent) == Count(s.log, IsSpent) + 1
  {
    RefundRuns(w, s.table, s.data, s.sender, |s.log|, o);
    ExecuteSummary(w, s.table, ClaimSwapCsv, s.data, s.sender, |s.log|, o);
    ExecuteDetails(w, s.table, ClaimSwapCsv, s.data, s.sender, |s.log|, o);
    hide Execute, Summary, Details, Next, CanRefund;
    var x := Execute(w, s.table, ClaimSwapCsv, s.data, s.sender, |s.log|, o);
    assert ApplyDispatch(w, s, o) == Move(s, ClaimSwapCsv, x);
    var move := [Moved(s.current, ClaimSwapCsv, OnCsvPassed)];
    QuietSpends(s.log, move);
    ActionSpends(w, s.table, ClaimSwapCsv, s.data, s.sender, |s.log|, x, s.log + move);
  }

  /** The window is real: a maker at rest that creates the refund transaction and crashes
      before storing it creates a second one after recovery. */
  lemma LostRefundIsRepeated(w: World, s: Sys, o: Outcome)
    requires CanRefund(w, s) && o.scriptOk && o.spent.Some?
    ensures var r := Run(w, s, [Deliver(CsvPassed), Dispatch(o), Crash, Restart(o), Persist,
                                Deliver(CsvPassed), Dispatch(o)]);
            r.current.ClaimSwapCsv? && Count(r.log, IsSpent) == Count(s.log, IsSpent) + 2
  {
    hide Apply, Run, CanRefund;
    var s1 := Apply(w, s, Deliver(CsvPassed));
    var s2 := Apply(w, s1, Dispatch(o));
    Refund(w, s, o);
    var s5 := Apply(w, Apply(w, Apply(w, s2, Crash), Restart(o)), Persist);
    RefundableOf(w, s);
    RecoverWaiting(w, s2, o);
    Refund(w, s5, o);
    RunSeven(w, s, Deliver(CsvPassed), Dispatch(o), Crash, Restart(o), Persist, Deliver(CsvPassed), Dispatch(o));
  }

  lemma RefundableOf(w: World, s: Sys)
    requires CanRefund(w, s)
    ensures IsMaker(s.table) && (s.current.WaitCsv? || s.current.AwaitClaimPayment?) && Refundable(w, s.data)
  {
    hide Refundable;
  }

  /** Waiting starts again after a crash. */
  lemma WaitingRuns(w: World, t: Table, c: State, d: Data, id: nat, o: Outcome)
    requires (c.WaitCsv? || c.AwaitClaimPayment?) && o.scriptOk
    requires d.openingTxBroadcasted.Some? && d.AmountsKnown() && d.GetPolicy().Some?
    ensures Execute(w, t, c, d, None, id, o) == Ran(d, NoOp, [], None)
  {
    hide Create, PayFee, Broadcast, SendWithRetry, TakerAction, PlainAction, Claim;
    var nothing: seq<Entry> := [];
    assert nothing + nothing == nothing;
  }

  /** A crash and a restart bring a waiting maker back to where it was stored. */
  lemma WaitsAgain(w: World, s: Sys, o: Outcome)
    requires s.stored.Some? && o.scriptOk
    requires var snap := s.stored.value;
             && (snap.current.WaitCsv? || snap.current.AwaitClaimPayment?)
             && snap.data.openingTxBroadcasted.Some? && snap.data.AmountsKnown() && snap.data.GetPolicy().Some?
    ensures var r := ApplyPersist(ApplyRestart(w, ApplyCrash(s), o));
            r == ApplyCrash(s).(phase := Idle) && r.log == s.log + [CrashEntry(s, s.stored.value)]
  {
    var c := ApplyCrash(s);
    WaitingRuns(w, c.table, c.current, c.data, |c.log|, o);
    hide Execute, FailOnRecover;
    assert !FailOnRecover(c.table, c.current) by { NeverFails(c.table, c.current); }
    assert c.log + [] == c.log;
  }

  lemma NeverFails(t: Table, c: State)
    requires c.WaitCsv? || c.AwaitClaimPayment?
    ensures !FailOnRecover(t, c)
  {
  }

  lemma RecoverWaiting(w: World, s: Sys, o: Outcome)
    requires IsMaker(s.table) && s.stored.Some? && o.scriptOk
    requires s.stored.value.current.WaitCsv? || s.stored.value.current.AwaitClaimPayment?
    requires Refundable(w, s.stored.value.data)
    ensures var r := Apply(w, Apply(w, Apply(w, s, Crash), Restart(o)), Persist);
            CanRefund(w, r) && Count(r.log, IsSpent) == Count(s.log, IsSpent)
  {
    hide Spendable, Count;
    WaitsAgain(w, s, o);
    QuietCrash(s.log, CrashEntry(s, s.stored.value));
    hide ApplyRestart, ApplyPersist;
  }

  lemma QuietCrash(log: seq<Entry>, e: Entry)
    requires e.Crashed?
    ensures Count(log + [e], IsSpent) == Count(log, IsSpent)
  {
    CountAppend(log, [e], IsSpent);
    CountNone([e], IsSpent);
  }

  lemma RunSeven(w: World, s: Sys, a: Label, b: Label, c: Label, d: Label, e: Label, f: Label, g: Label)
    ensures Run(w, s, [a, b, c, d, e, f, g]) ==
            Apply(w, Apply(w, Apply(w, Apply(w, Apply(w, Apply(w, Apply(w, s, a), b), c), d), e), f), g)
  {
    hide Apply;
    var all := [a, b, c, d, e, f, g];
    assert all[..6] == [a, b, c, d, e, f] && all[..6][..5] == [a, b, c, d, e];
    assert all[..6][..5][..4] == [a, b, c, d] && [a, b, c, d][..3] == [a, b, c];
    assert [a, b, c][..2] == [a, b] && [a, b][..1] == [a] && [a][..0] == [];
    assert Run(w, s, [a]) == Apply(w, Run(w, s, []), a);
    assert Run(w, s, [a, b]) == Apply(w, Run(w, s, [a]), b);
    assert Run(w, s, [a, b, c]) == Apply(w, Run(w, s, [a, b]), c);
    assert Run(w, s, [a, b, c, d]) == Apply(w, Run(w, s, [a, b, c]), d);
    assert Run(w, s, [a, b, c, d, e]) == Apply(w, Run(w, s, [a, b, c, d]), e);
    assert Run(w, s, [a, b, c, d, e, f]) == Apply(w, Run(w, s, [a, b, c, d, e]), f);
  }

  // ------------------------------------------------------------ one sender

  /** A sender runs only between announcing the opening transaction and the first event
      that ends the wait for the payment; no sender is stopped twice. */
  ghost predicate SendersCounted(s: Sys) {
    && (s.sender.Some? ==> s.current.SendTxBroadcastedMessage? || s.current.AwaitClaimPayment?)
    && (s.sender.Some? ==> s.sender.value < |s.log|)
    && (forall i :: 0 <= i < |s.log| && s.log[i].Stopped? ==> s.log[i].id < |s.log|)
    && (forall i :: 0 <= i < |s.log| && s.log[i].Stopped? ==> s.sender != Some(s.log[i].id))
    && (forall i, j :: 0 <= i < j < |s.log| && s.log[i].Stopped? && s.log[j].Stopped? ==> s.log[i].id != s.log[j].id)
  }

  lemma SenderEdges(t: Table, s: State, e: Event)
    requires s.SendTxBroadcastedMessage? || s.AwaitClaimPayment?
    ensures var n := Next(t, s, e);
            n.Some? ==> n.value.AwaitClaimPayment? || (Stops(n.value) && !n.value.AwaitTxConfirmation?)
  {
  }

  /** One action: it may register a fresh sender or stop the registered one. */
  lemma ActionSenders(s: Sys, n: State, x: Exec, pre: seq<Entry>, r: Sys)
    requires SendersCounted(s) && x.Ran? && SenderEffect(n, s.sender, |s.log|, x)
    requires s.sender.Some? && !n.SendTxBroadcastedMessage? ==>
               n.AwaitClaimPayment? || (Stops(n) && !n.AwaitTxConfirmation?)
    requires forall i :: 0 <= i < |pre| ==> pre[i].Moved?
    requires forall i :: 0 <= i < |x.log| && x.log[i].Stopped? ==> Stops(n)
    requires r.current == n && r.sender == x.sender && r.log == s.log + pre + x.log
    ensures SendersCounted(r)
  {
    var k := |s.log| + |pre|;
    forall i | 0 <= i < |r.log| && r.log[i].Stopped?
      ensures (i < |s.log| && r.log[i] == s.log[i])
              || (i == k && x.log[0] == r.log[i] && s.sender == Some(r.log[i].id))
    {
      if i >= |s.log| {
        assert i >= k ==> r.log[i] == x.log[i - k];
      }
    }
  }

  lemma SameSenders(s: Sys, r: Sys)
    requires SendersCounted(s) && s.log <= r.log
    requires r.sender.None? || (r.sender == s.sender && r.current == s.current)
    requires forall i :: |s.log| <= i < |r.log| ==> !r.log[i].Stopped?
    ensures SendersCounted(r)
  {
  }

  lemma StepSenders(w: World, s: Sys, l: Label)
    requires SendersCounted(s) && InSync(s) && Holds(s)
    ensures SendersCounted(Apply(w, s, l))
  {
    match l
    case Start(q) => hide ApplyStart, SendersCounted; StartSenders(w, s, q);
    case Deliver(i) => hide ApplyDeliver, SendersCounted; DeliverSenders(s, i);
    case Dispatch(o) => hide ApplyDispatch, SendersCounted; DispatchSenders(w, s, o);
    case Persist => hide ApplyPersist, SendersCounted; PersistSenders(s);
    case Crash => hide SendersCounted; SameSenders(s, ApplyCrash(s));
    case Restart(o) => hide ApplyRestart, SendersCounted; RestartSenders(w, s, o);
  }

  lemma StartSenders(w: World, s: Sys, q: Request)
    requires SendersCounted(s)
    ensures SendersCounted(ApplyStart(w, s, q))
  {
    hide SendersCounted;
    SameSenders(s, ApplyStart(w, s, q));
  }

  lemma DeliverSenders(s: Sys, i: Input)
    requires SendersCounted(s)
    ensures SendersCounted(ApplyDeliver(s, i))
  {
    hide SendersCounted, ApplyInput;
    SameSenders(s, ApplyDeliver(s, i));
  }

  lemma PersistSenders(s: Sys)
    requires SendersCounted(s)
    ensures SendersCounted(ApplyPersist(s))
  {
    hide SendersCounted;
    SameSenders(s, ApplyPersist(s));
  }

  lemma DispatchSenders(w: World, s: Sys, o: Outcome)
    requires SendersCounted(s) && InSync(s) && Holds(s)
    ensures SendersCounted(ApplyDispatch(w, s, o))
  {
    var r := ApplyDispatch(w, s, o);
    var n, x := DispatchCases(w, s, o);
    if s.phase.Pending? && Next(s.table, s.current, s.phase.event) == Some(n) && Acts(w, s, n, x)
       && r == Move(s, n, x) {
      if s.sender.Some? { SenderEdges(s.table, s.current, s.phase.event); }
      hide ApplyDispatch, Details, Next, ApplyCrash, SenderEffect, SendersCounted;
      ActionSenders(s, n, x, [Moved(s.current, n, s.phase.event)], r);
    } else {
      hide ApplyDispatch, Next, Acts;
      SameSenders(s, r);
    }
  }

  lemma RestartSenders(w: World, s: Sys, o: Outcome)
    requires SendersCounted(s) && InSync(s)
    ensures SendersCounted(ApplyRestart(w, s, o))
  {
    var r := ApplyRestart(w, s, o);
    var x := RestartCases(w, s, o);
    if s.phase.Down? && Acts(w, s, s.current, x) && r == Resume(s, x) {
      hide ApplyRestart, Details, ApplyCrash, SenderEffect, SendersCounted;
      assert s.log + [] == s.log;
      ActionSenders(s, s.current, x, [], r);
    } else {
      hide ApplyRestart, Acts;
      SameSenders(s, r);
    }
  }

  lemma {:induction false} AlwaysSenders(w: World, t: Table, key: Bytes, labels: seq<Label>)
    ensures SendersCounted(Run(w, New(t, key), labels))
  {
    if labels != [] {
      var before := labels[..|labels| - 1];
      AlwaysSenders(w, t, key, before);
      AlwaysInSync(w, t, key, before);
      AlwaysHolds(w, t, key, before);
      StepSenders(w, Run(w, New(t, key), before), labels[|labels| - 1]);
    }
    hide Apply, SendersCounted, Holds, InSync;
  }

  /** On every run a redundant sender is registered only while the opening message is
      announced or its payment awaited, and no sender is stopped twice. */
  lemma {:induction false} OneSender(w: World, t: Table, key: Bytes, labels: seq<Label>)
    ensures var s := Run(w, New(t, key), labels);
            && (s.sender.Some? ==> s.current.SendTxBroadcastedMessage? || s.current.AwaitClaimPayment?)
            && (forall i, j :: 0 <= i < j < |s.log| && s.log[i].Stopped? && s.log[j].Stopped? ==>
                               s.log[i].id != s.log[j].id)
  {
    AlwaysSenders(w, t, key, labels);
    hide Run;
  }
}
