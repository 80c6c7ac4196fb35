/** The payment window of a v7 Liquid taker: its anchor is read once, before anything is
    sent, never moves, and every claim payment falls inside the window it opens. */
module Anchors {
  import opened Base
  import opened Timelock
  import opened SwapData
  import opened OnChain
  import opened States
  import opened Actions
  import opened Effects
  import opened Fsm
  import opened Presence
  import opened Takers
  import opened Payments
  import Progress
  import Script

  ghost predicate AnchoredOnce(log: seq<Entry>) {
    forall i, j :: 0 <= i < j < |log| ==> !(log[i].Anchored? && log[j].Anchored?)
  }

  ghost predicate AnchoredBefore(log: seq<Entry>, i: nat) {
    exists j :: 0 <= j < i <= |log| && log[j].Anchored?
  }

  /** The anchor comes before every message, and every payment uses it. */
  ghost predicate AnchoredFirst(log: seq<Entry>) {
    && (forall i :: 0 <= i < |log| && log[i].Sent? ==> AnchoredBefore(log, i))
    && (forall i :: 0 <= i < |log| && log[i].ClaimPayment? ==> Anchored(log[i].anchor) in log[..i])
  }

  /** The anchor on record is the one that was read. */
  predicate AnchorSet(log: seq<Entry>, d: Data) {
    d.startingBlockHeightSet && Anchored(d.startingBlockHeight) in log
  }

  ghost predicate Anchoring(s: Sys) {
    && (s.phase == Pending(OnStarted) ==> s.log == [])
    && (IsLiquidV7(s.data) ==>
          && AnchoredOnce(s.log) && AnchoredFirst(s.log)
          && (PastCreation(s.current) || (s.current.CreateSwap? && Reported(s.phase)) ==> AnchorSet(s.log, s.data))
          && (s.stored.Some? && PastCreation(s.stored.value.current) ==> AnchorSet(s.log, s.stored.value.data)))
  }

  lemma SameOriginSameKind(key: Bytes, a: Data, b: Data)
    requires SameOrigin(key, a, b)
    ensures IsLiquidV7(a) == IsLiquidV7(b)
  {
  }

  lemma AnchoredGrows(log: seq<Entry>, more: seq<Entry>)
    requires AnchoredFirst(log)
    requires forall i :: 0 <= i < |more| && more[i].Sent? ==> AnchoredBefore(log, |log|)
    requires forall i :: 0 <= i < |more| && more[i].ClaimPayment? ==> Anchored(more[i].anchor) in log
    ensures AnchoredFirst(log + more)
  {
    var all := log + more;
    forall i | 0 <= i < |all| && all[i].Sent? ensures AnchoredBefore(all, i) {
      var n := if i < |log| then i else |log|;
      assert i >= |log| ==> all[i] == more[i - |log|];
      assert AnchoredBefore(log, n);
      var j :| 0 <= j < n && log[j].Anchored?;
      assert all[j] == log[j];
    }
    forall i | 0 <= i < |all| && all[i].ClaimPayment? ensures Anchored(all[i].anchor) in all[..i] {
      if i < |log| { assert all[..i] == log[..i]; }
      else { assert all[i] == more[i - |log|] && all[..i] == log + more[..i - |log|]; }
    }
  }

  lemma OnceGrows(log: seq<Entry>, more: seq<Entry>)
    requires AnchoredOnce(log) && AnchoredOnce(more)
    requires log == [] || forall i :: 0 <= i < |more| ==> !more[i].Anchored?
    ensures AnchoredOnce(log + more)
  {
    if log == [] { assert log + more == more; }
  }

  lemma SetGivesBefore(log: seq<Entry>, d: Data)
    requires AnchorSet(log, d)
    ensures AnchoredBefore(log, |log|)
  {
    var j :| 0 <= j < |log| && log[j] == Anchored(d.startingBlockHeight);
  }

  // ------------------------------------------------------------------ steps

  /** Running an action of a v7 Liquid taker past creation. */
  lemma ActionAnchored(w: World, s: Sys, n: State, x: Exec, pre: seq<Entry>)
    requires x.Ran? && Acts(w, s, n, x) && !n.CreateSwap? && IsLiquidV7(s.data) && InTable(s.table, n)
    requires AnchoredOnce(s.log) && AnchoredFirst(s.log) && !IsMaker(s.table) && s.data.AllowsNewPayment()
    requires PastCreation(n) ==> AnchorSet(s.log, s.data)
    requires forall i :: 0 <= i < |pre| ==> pre[i].Moved?
    ensures AnchoredOnce(s.log + pre + x.log) && AnchoredFirst(s.log + pre + x.log)
    ensures PastCreation(n) ==> AnchorSet(s.log + pre + x.log, x.data)
  {
    hide AnchoredOnce, AnchoredFirst, AnchoredBefore;
    var more := pre + x.log;
    assert s.log + pre + x.log == s.log + more;
    ActionKeepsAnchor(w, s, n, x);
    if PastCreation(n) { SetGivesBefore(s.log, s.data); }
    hide Acts;
    forall i | 0 <= i < |more| && more[i].ClaimPayment? ensures Anchored(more[i].anchor) in s.log {
      assert more[i] == x.log[i - |pre|];
    }
    forall i | 0 <= i < |more| && more[i].Sent? ensures AnchoredBefore(s.log, |s.log|) {
      assert more[i] == x.log[i - |pre|];
    }
    forall i | 0 <= i < |more| ensures !more[i].Anchored? {
      assert i >= |pre| ==> more[i] == x.log[i - |pre|];
    }
    AnchoredGrows(s.log, more);
    QuietOnce(more);
    OnceGrows(s.log, more);
  }

  lemma QuietOnce(more: seq<Entry>)
    requires forall i :: 0 <= i < |more| ==> !more[i].Anchored?
    ensures AnchoredOnce(more)
  {
  }

  lemma ActionKeepsAnchor(w: World, s: Sys, n: State, x: Exec)
    requires x.Ran? && Acts(w, s, n, x) && !n.CreateSwap? && IsLiquidV7(s.data) && InTable(s.table, n)
    requires !IsMaker(s.table) && s.data.AllowsNewPayment()
    ensures SameAnchor(s.data, x.data)
    ensures forall i :: 0 <= i < |x.log| ==> !x.log[i].Anchored?
    ensures forall i :: 0 <= i < |x.log| && (x.log[i].Sent? || x.log[i].ClaimPayment?) ==> PastCreation(n)
    ensures forall i :: 0 <= i < |x.log| && x.log[i].ClaimPayment? ==> x.log[i].anchor == s.data.startingBlockHeight
  {
    hide SenderEffect, MayPay, ClaimDetails, ConfirmationDetails;
  }

  /** Creation anchors first. */
  lemma CreationAnchored(w: World, s: Sys, x: Exec, pre: seq<Entry>)
    requires x.Ran? && Acts(w, s, CreateSwap, x) && IsLiquidV7(s.data) && !IsMaker(s.table) && s.log == []
    requires forall i :: 0 <= i < |pre| ==> pre[i].Moved?
    ensures AnchoredOnce(s.log + pre + x.log) && AnchoredFirst(s.log + pre + x.log)
    ensures x.event.ActionSucceeded? ==> AnchorSet(s.log + pre + x.log, x.data)
  {
    var more := pre + x.log;
    assert s.log + pre + x.log == more;
    assert forall i :: 0 <= i < |x.log| ==> MayLog(CreateSwap, x.log[i]);
    assert |x.log| <= 1;
    forall i | 0 <= i < |more| ensures more[i].Moved? || (more[i].Anchored? && i == |pre|) {
      assert i >= |pre| ==> more[i] == x.log[i - |pre|];
    }
  }

  lemma OriginOf(w: World, key: Bytes, s: Sys)
    requires Paying(w, key, s)
    ensures s.data.privkey == key
    ensures s.stored.Some? ==> SameOrigin(key, s.data, s.stored.value.data)
    ensures s.stored.Some? ==> IsLiquidV7(s.data) == IsLiquidV7(s.stored.value.data)
  {
    hide EntriesSafe, Backed;
  }

  lemma MoveAnchoring(w: World, s: Sys, n: State, x: Exec)
    requires Anchoring(s) && InSync(s) && Holds(s) && !IsMaker(s.table) && s.phase.Pending?
    requires Next(s.table, s.current, s.phase.event) == Some(n) && Acts(w, s, n, x)
    ensures Anchoring(Move(s, n, x))
  {
    var e, pre := s.phase.event, [Moved(s.current, n, s.phase.event)];
    TablesAreClosed(s.table, s.current, e);
    EdgesSupply(s.table, s.current, e);
    TakerEdges(s.table, s.current, e);
    ActionOrigin(w, s.data.privkey, s, n, x);
    SameOriginSameKind(s.data.privkey, s.data, x.data);
    hide Next, Acts, AnchoredOnce, AnchoredFirst, Ready, Holds;
    if IsLiquidV7(s.data) {
      if n.CreateSwap? { CreationAnchored(w, s, x, pre); } else { ActionAnchored(w, s, n, x, pre); }
    }
  }

  lemma ResumeAnchoring(w: World, s: Sys, x: Exec)
    requires Anchoring(s) && InSync(s) && Holds(s) && !IsMaker(s.table) && s.phase.Down?
    requires Acts(w, s, s.current, x) && !FailOnRecover(s.table, s.current)
    ensures Anchoring(Resume(s, x))
  {
    ActionOrigin(w, s.data.privkey, s, s.current, x);
    SameOriginSameKind(s.data.privkey, s.data, x.data);
    hide Acts, AnchoredOnce, AnchoredFirst, Ready;
    if IsLiquidV7(s.data) {
      ActionAnchored(w, s, s.current, x, []);
      assert s.log + [] + x.log == s.log + x.log;
    }
  }

  lemma QuietAnchoring(log: seq<Entry>, e: Entry)
    requires AnchoredOnce(log) && AnchoredFirst(log) && !e.Anchored? && !e.Sent? && !e.ClaimPayment?
    ensures AnchoredOnce(log + [e]) && AnchoredFirst(log + [e])
  {
    AnchoredGrows(log, [e]);
  }

  lemma CrashAnchoring(w: World, key: Bytes, s: Sys)
    requires Anchoring(s) && Paying(w, key, s)
    ensures Anchoring(ApplyCrash(s))
  {
    OriginOf(w, key, s);
    hide AnchoredOnce, AnchoredFirst, Paying, IsLiquidV7;
    if s.stored.Some? && IsLiquidV7(s.data) { QuietAnchoring(s.log, ApplyCrash(s).log[|s.log|]); }
  }

  lemma DeliverAnchoring(s: Sys, i: Input)
    requires Anchoring(s) && InSync(s)
    ensures Anchoring(ApplyDeliver(s, i))
  {
    if s.phase.Idle? && s.stored.Some? && ApplyInput(s.data, i).Some? {
      SameOriginSameKind(s.data.privkey, s.data, ApplyInput(s.data, i).value);
      assert !EventOf(i).OnStarted? && !EventOf(i).ActionSucceeded?;
      if IsLiquidV7(s.data) && InputLog(i) != [] { QuietAnchoring(s.log, InputLog(i)[0]); }
      assert s.log + [] == s.log;
    }
    hide ApplyInput, ValidInput, EventOf, AnchoredOnce, AnchoredFirst, IsLiquidV7;
  }

  lemma PersistAnchoring(s: Sys)
    requires Anchoring(s) && InSync(s)
    ensures Anchoring(ApplyPersist(s))
  {
    hide AnchoredOnce, AnchoredFirst, IsLiquidV7;
  }

  lemma DispatchAnchoring(w: World, key: Bytes, s: Sys, o: Outcome)
    requires Anchoring(s) && Paying(w, key, s) && InSync(s) && Holds(s) && !IsMaker(s.table)
    ensures Anchoring(ApplyDispatch(w, s, o))
  {
    CrashAnchoring(w, key, s);
    var n, x := DispatchCases(w, s, o);
    if s.phase.Pending? && Next(s.table, s.current, s.phase.event) == Some(n) && Acts(w, s, n, x) {
      MoveAnchoring(w, s, n, x);
    }
    hide ApplyCrash, ApplyDispatch, Move, Acts, Next, AnchoredOnce, AnchoredFirst, IsLiquidV7, Paying, Holds;
  }

  lemma RestartAnchoring(w: World, key: Bytes, s: Sys, o: Outcome)
    requires Anchoring(s) && Paying(w, key, s) && InSync(s) && Holds(s) && !IsMaker(s.table)
    ensures Anchoring(ApplyRestart(w, s, o))
  {
    CrashAnchoring(w, key, s);
    var x := RestartCases(w, s, o);
    if s.phase.Down? && !FailOnRecover(s.table, s.current) && Acts(w, s, s.current, x) { ResumeAnchoring(w, s, x); }
    hide ApplyRestart, ApplyCrash, Acts, Resume, AnchoredOnce, AnchoredFirst, IsLiquidV7, Paying, Holds, FailOnRecover;
  }

  lemma StepAnchoring(w: World, key: Bytes, s: Sys, l: Label)
    requires Anchoring(s) && Paying(w, key, s) && InSync(s) && Holds(s) && !IsMaker(s.table)
    ensures Anchoring(Apply(w, s, l))
  {
    hide Paying, Holds;
    match l
    case Start(r) => hide IsLiquidV7, ValidRequest;
    case Deliver(i) => hide ApplyDeliver, Anchoring; DeliverAnchoring(s, i);
    case Dispatch(o) => hide ApplyDispatch, Anchoring; DispatchAnchoring(w, key, s, o);
    case Persist => hide ApplyPersist, Anchoring; PersistAnchoring(s);
    case Crash => hide ApplyCrash, Anchoring; CrashAnchoring(w, key, s);
    case Restart(o) => hide ApplyRestart, Anchoring; RestartAnchoring(w, key, s, o);
  }

  lemma {:induction false} AlwaysAnchoring(w: World, t: Table, key: Bytes, labels: seq<Label>)
    requires !IsMaker(t)
    ensures Anchoring(Run(w, New(t, key), labels))
  {
    if labels != [] {
      var before := labels[..|labels| - 1];
      AlwaysAnchoring(w, t, key, before);
      AlwaysPaying(w, t, key, before);
      AlwaysInSync(w, t, key, before);
      AlwaysHolds(w, t, key, before);
      Progress.TableIsFixed(w, New(t, key), before);
      hide Apply, Paying, Holds, InSync;
      StepAnchoring(w, key, Run(w, New(t, key), before), labels[|labels| - 1]);
    }
  }

  // ------------------------------------------------------------ main results

  /** In every run of a v7 Liquid taker the anchor is read at most once, before the request or
      agreement is sent, and past creation the machine and its store hold just that height. */
  lemma {:induction false} AnchorNeverMoves(w: World, t: Table, key: Bytes, labels: seq<Label>)
    requires !IsMaker(t) && IsLiquidV7(Run(w, New(t, key), labels).data)
    ensures var s := Run(w, New(t, key), labels);
            && AnchoredOnce(s.log)
            && (forall i :: 0 <= i < |s.log| && s.log[i].Sent? ==> AnchoredBefore(s.log, i))
            && (PastCreation(s.current) ==> AnchorSet(s.log, s.data))
            && (s.stored.Some? && PastCreation(s.stored.value.current) ==> AnchorSet(s.log, s.stored.value.data))
  {
    AlwaysAnchoring(w, t, key, labels);
    hide Run, AnchoredOnce, AnchoredBefore, IsLiquidV7;
  }

  /** In every run of a v7 Liquid taker, a claim payment falls within the sixty blocks after
      the anchor and under the 32-block CLTV cap; an output confirmed at or after the anchor
      cannot be refunded for another 10020 blocks. */
  lemma {:induction false} PaymentsStayInWindow(w: World, t: Table, key: Bytes, labels: seq<Label>, i: nat,
                                                confirmed: nat)
    requires !IsMaker(t)
    requires var s := Run(w, New(t, key), labels);
             IsLiquidV7(s.data) && i < |s.log| && s.log[i].ClaimPayment? && s.log[i].anchor <= confirmed
    ensures var log := Run(w, New(t, key), labels).log;
            && Anchored(log[i].anchor) in log[..i]
            && log[i].anchor <= log[i].height < log[i].anchor + 60 && log[i].cltvCap == 32
            && log[i].height + 10020 < confirmed + log[i].params.csv
  {
    var s := Run(w, New(t, key), labels);
    AlwaysAnchoring(w, t, key, labels);
    RunPays(w, t, key, labels);
    hide Run;
    assert s.data.AllowsNewPayment();
    PaymentInWindow(w, s.data, s.log[i], confirmed);
    hide EntriesSafe, IsLiquidV7, AnchoredOnce;
  }

  lemma PaymentInWindow(w: World, d: Data, e: Entry, confirmed: nat)
    requires SafePayment(w, d, e) && IsLiquidV7(d) && e.anchor <= confirmed
    ensures e.anchor <= e.height < e.anchor + 60 && e.cltvCap == 32
    ensures e.height + 10020 < confirmed + e.params.csv
  {
    hide InvoiceBound, ValidateTx;
    PaymentEndsBeforeRefund(e.anchor, e.height, confirmed, d.GetPolicy().value);
  }

  // ------------------------------------------------------------- end to end

  /** A spend of the opening output that does without the taker's key, mined at `mined`. */
  ghost predicate MakerSpends(chain: Chain, p: OpeningParams, tx: Script.Spend, stack: seq<Bytes>, confirmed: nat,
                              mined: nat) {
    && Script.Accepts(tx, RedeemScript(chain, p), stack)
    && (forall k :: 0 <= k < |stack| ==> !tx.check(p.taker, stack[k]).Good?)
    && Script.RelativeLockPassed(confirmed, mined, tx.sequence)
  }

  lemma MakerSpendWaits(chain: Chain, p: OpeningParams, tx: Script.Spend, stack: seq<Bytes>, confirmed: nat, mined: nat)
    requires MakerSpends(chain, p, tx, stack, confirmed, mined) && (!chain.Btc? ==> 0 < p.csv < 0x1_0000)
    ensures mined >= confirmed + (if chain.Btc? then BITCOIN_CSV else p.csv)
  {
    var csv := if chain.Btc? then BITCOIN_CSV else p.csv;
    Script.MakerAloneWaits(tx, p.taker, p.maker, p.hash, csv, stack, confirmed, mined);
    hide Script.Accepts;
  }

  /** From run to chain, on Liquid: whoever tries to take the output a v7 taker has paid for
      without the taker's key is mined more than 10020 blocks after the payment. */
  lemma {:induction false} LiquidRefundComesTooLate(w: World, t: Table, key: Bytes, labels: seq<Label>, i: nat,
                                                    tx: Script.Spend, stack: seq<Bytes>, confirmed: nat, mined: nat)
    requires !IsMaker(t)
    requires var s := Run(w, New(t, key), labels);
             && IsLiquidV7(s.data) && i < |s.log| && s.log[i].ClaimPayment? && s.log[i].anchor <= confirmed
             && MakerSpends(Lbtc, s.log[i].params, tx, stack, confirmed, mined)
    ensures mined > Run(w, New(t, key), labels).log[i].height + 10020
  {
    var s := Run(w, New(t, key), labels);
    PaymentsStayInWindow(w, t, key, labels, i, confirmed);
    RunPays(w, t, key, labels);
    hide Run, MakerSpends;
    assert s.data.AllowsNewPayment();
    PaymentCsv(w, s.data, s.log[i]);
    MakerSpendWaits(Lbtc, s.log[i].params, tx, stack, confirmed, mined);
    hide EntriesSafe;
  }

  lemma PaymentCsv(w: World, d: Data, e: Entry)
    requires SafePayment(w, d, e)
    ensures IsLiquidV7(d) ==> e.params.csv == LIQUID_CSV
    ensures d.GetChain().Btc? ==> WrapU32(e.height - e.anchor) <= BITCOIN_SAFETY_LIMIT
    ensures d.GetChain().Btc? ==>
            w.decode(e.payreq).Some? && w.decode(e.payreq).value.finalCltv <= BITCOIN_SAFETY_LIMIT
  {
    hide ValidateTx;
  }

  /** On Bitcoin, for an output confirmed at or after the start of the swap: at least as many
      blocks remain after the payment as its invoice may hold it up for. */
  lemma {:induction false} BitcoinRefundComesTooLate(w: World, t: Table, key: Bytes, labels: seq<Label>, i: nat,
                                                     tx: Script.Spend, stack: seq<Bytes>, confirmed: nat, mined: nat)
    requires !IsMaker(t)
    requires var s := Run(w, New(t, key), labels);
             && s.data.GetChain().Btc? && s.data.AllowsNewPayment()
             && i < |s.log| && s.log[i].ClaimPayment? && s.log[i].anchor <= confirmed
             && MakerSpends(Btc, s.log[i].params, tx, stack, confirmed, mined)
    ensures var e := Run(w, New(t, key), labels).log[i];
            w.decode(e.payreq).Some? && mined >= e.height + w.decode(e.payreq).value.finalCltv
  {
    var s := Run(w, New(t, key), labels);
    RunPays(w, t, key, labels);
    hide Run, MakerSpends;
    PaymentCsv(w, s.data, s.log[i]);
    MakerSpendWaits(Btc, s.log[i].params, tx, stack, confirmed, mined);
    hide EntriesSafe, SafePayment;
  }
}
