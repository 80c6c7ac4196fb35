/** Runs from a new machine that show each exception to be real: a second spend, a second
    funding, an abandoned output, an announced maker that funded nothing, a private key given
    away after payment, and a nil dereference. */
module Witnesses {
  import opened Base
  import opened Timelock
  import opened SwapData
  import opened OnChain
  import opened States
  import opened Actions
  import opened Fsm
  import opened Makers
  import opened Fundings
  import opened Claims
  import opened Keys
  import opened Openings
  import opened Receipts
  import opened Effects
  import Exact
  import Script

  // ------------------------------------------------------------------ walking

  ghost predicate Reaches(w: World, s: Sys, r: Sys) {
    exists labels :: Run(w, s, labels) == r
  }

  lemma ReachesItself(w: World, s: Sys)
    ensures Reaches(w, s, s)
  {
    assert Run(w, s, []) == s;
    hide Apply;
  }

  lemma ReachesOn(w: World, s: Sys, r: Sys, more: seq<Label>)
    requires Reaches(w, s, r)
    ensures Reaches(w, s, Run(w, r, more))
  {
    hide Run;
    var labels :| Run(w, s, labels) == r;
    RunAppend(w, s, labels, more);
  }

  lemma ReachesNext(w: World, s: Sys, r: Sys, l: Label)
    requires Reaches(w, s, r)
    ensures Reaches(w, s, Apply(w, r, l))
  {
    assert [l][..0] == [];
    assert Run(w, r, [l]) == Apply(w, Run(w, r, []), l);
    hide Apply;
    ReachesOn(w, s, r, [l]);
  }

  /** A machine whose store agrees with its memory. */
  function Stand(t: Table, c: State, d: Data, retries: nat, snd: Option<nat>, p: Phase, log: seq<Entry>): Sys {
    Sys(t, c, d, retries, snd, Some(Snapshot(c, d)), p, log)
  }

  /** How the loop goes on after an action. */
  function Onward(e: Event, retries: nat): (Phase, nat) {
    match e
    case Done => (Idle, retries)
    case NoOp => (Idle, retries)
    case OnRetry => if retries + 1 > MAX_RETRIES then (Idle, 0) else (Pending(OnRetry), retries + 1)
    case _ => (Pending(e), retries)
  }

  lemma Turn(w: World, s0: Sys, s: Sys, o: Outcome, n: State, x: Exec)
    requires Reaches(w, s0, s) && s.phase.Pending? && Next(s.table, s.current, s.phase.event) == Some(n)
    requires x.Ran? && Execute(w, s.table, n, s.data, s.sender, |s.log|, o) == x
    ensures var go := Onward(x.event, s.retries);
            Reaches(w, s0, Stand(s.table, n, x.data, go.1, x.sender, go.0,
                                 s.log + [Moved(s.current, n, s.phase.event)] + x.log))
  {
    hide Next, Execute, Reaches;
    ReachesNext(w, s0, s, Dispatch(o));
    var m := Move(s, n, x);
    assert ApplyDispatch(w, s, o) == m;
    ReachesNext(w, s0, m, Persist);
  }

  lemma Hear(w: World, s0: Sys, s: Sys, i: Input)
    requires Reaches(w, s0, s) && s.phase.Idle? && s.stored.Some? && ValidInput(s.data, i)
    requires ApplyInput(s.data, i).Some?
    ensures Reaches(w, s0, Stand(s.table, s.current, ApplyInput(s.data, i).value, s.retries, s.sender,
                                 Pending(EventOf(i)), s.log + InputLog(i)))
  {
    hide Reaches, ValidInput, ApplyInput, EventOf, InputLog;
    ReachesNext(w, s0, s, Deliver(i));
  }

  lemma Ignore(w: World, s0: Sys, s: Sys, o: Outcome)
    requires Reaches(w, s0, s) && s.phase.Pending? && Next(s.table, s.current, s.phase.event).None?
    ensures Reaches(w, s0, s.(phase := Idle))
  {
    hide Reaches, Next;
    ReachesNext(w, s0, s, Dispatch(o));
  }

  // ---------------------------------------------------- two initiators at rest

  /** A Bitcoin request of the current version under the initiator's own key. */
  predicate Fair(w: World, key: Bytes, r: Request) {
    ValidRequest(w, r) && r.asset == [] && r.version == PROTOCOL_VERSION && r.pubkey == w.pub(key)
  }

  function Asked(t: Table, key: Bytes, r: Request): Data {
    WithRequest(t, NewData(key), r).(nextMessage := Some(RequestMessage(r)))
  }

  /** Entries of the first steps: moves and messages. */
  ghost predicate Early(log: seq<Entry>) {
    forall i :: 0 <= i < |log| ==>
      log[i].Sent? || (log[i].Moved? && !log[i].to.SendTxBroadcastedMessage? && !log[i].to.SendPrivkey?)
  }

  lemma FirstActions(w: World, t: Table, key: Bytes, r: Request, o: Outcome)
    requires Fair(w, key, r) && o.sent && (t.SwapInSender? || t.SwapOutSender?)
    ensures var d0, d := WithRequest(t, NewData(key), r), Asked(t, key, r);
            && Next(t, Default, OnStarted) == Some(CreateSwap)
            && Execute(w, t, CreateSwap, d0, None, 0, o) == Ran(d, ActionSucceeded, [], None)
            && Next(t, CreateSwap, ActionSucceeded) == Some(SendRequest)
            && Next(t, SendRequest, ActionSucceeded) == Some(AwaitAgreement)
            && (forall id :: Execute(w, t, SendRequest, d, None, id, o)
                             == Ran(d, ActionSucceeded, [Sent(RequestMessage(r))], None))
            && (forall id :: Execute(w, t, AwaitAgreement, d, None, id, o) == Ran(d, NoOp, [], None))
  {
    hide PayFee, Broadcast, SendWithRetry, RefundAction, TakerAction;
  }

  lemma ReachesAwaitAgreement(w: World, t: Table, key: Bytes, r: Request, o: Outcome) returns (log: seq<Entry>)
    requires Fair(w, key, r) && o.sent && (t.SwapInSender? || t.SwapOutSender?)
    ensures Early(log)
    ensures Reaches(w, New(t, key), Stand(t, AwaitAgreement, Asked(t, key, r), 0, None, Idle, log))
  {
    hide Reaches, Execute, Next;
    var s0 := New(t, key);
    var d := Asked(t, key, r);
    var s1 := Stand(t, Default, WithRequest(t, NewData(key), r), 0, None, Pending(OnStarted), []);
    ReachesItself(w, s0);
    ReachesNext(w, s0, s0, Start(r));
    assert ApplyStart(w, s0, r) == s1;
    FirstActions(w, t, key, r, o);
    hide Fair, ApplyStart;
    Turn(w, s0, s1, o, CreateSwap, Ran(d, ActionSucceeded, [], None));
    var l2 := [] + [Moved(Default, CreateSwap, OnStarted)] + [];
    var s2 := Stand(t, CreateSwap, d, 0, None, Pending(ActionSucceeded), l2);
    Turn(w, s0, s2, o, SendRequest, Ran(d, ActionSucceeded, [Sent(RequestMessage(r))], None));
    var l3 := l2 + [Moved(CreateSwap, SendRequest, ActionSucceeded)] + [Sent(RequestMessage(r))];
    var s3 := Stand(t, SendRequest, d, 0, None, Pending(ActionSucceeded), l3);
    Turn(w, s0, s3, o, AwaitAgreement, Ran(d, NoOp, [], None));
    log := l3 + [Moved(SendRequest, AwaitAgreement, ActionSucceeded)] + [];
  }

  // ------------------------------------------------------ a nil dereference

  lemma StrayAgreement(w: World, key: Bytes, r: Request, a: Agreement, b: Agreement, snd: Option<nat>, id: nat,
                       o: Outcome)
    requires Fair(w, key, r)
    ensures var d := Asked(SwapOutSender, key, r).(swapInAgreement := Some(a), swapOutAgreement := Some(b));
            && Next(SwapOutSender, AwaitAgreement, OnAgreementReceived).None?
            && Next(SwapOutSender, AwaitAgreement, OnFeeInvoiceReceived) == Some(PayFeeInvoice)
            && Execute(w, SwapOutSender, PayFeeInvoice, d, snd, id, o).Panic?
  {
  }

  /** A swap-out sender that is sent a swap-in agreement before its own kind: the first one is
      rejected but kept, and the fee payment then dereferences a missing request. */
  lemma SwapOutSenderPanics(w: World, key: Bytes, r: Request, a: Agreement, b: Agreement, o: Outcome)
    requires Fair(w, key, r) && o.sent && |a.pubkey| == 33 && |b.pubkey| == 33
    ensures exists labels ::
              var s := Run(w, New(SwapOutSender, key), labels);
              && s.phase.Pending? && Next(s.table, s.current, s.phase.event) == Some(PayFeeInvoice)
              && Execute(w, s.table, PayFeeInvoice, s.data, s.sender, |s.log|, o).Panic?
  {
    var t, s0 := SwapOutSender, New(SwapOutSender, key);
    var log := ReachesAwaitAgreement(w, t, key, r, o);
    var d := Asked(t, key, r);
    var s1 := Stand(t, AwaitAgreement, d, 0, None, Idle, log);
    Hear(w, s0, s1, SwapInAgreementReceived(a));
    assert log + InputLog(SwapInAgreementReceived(a)) == log;
    var d2 := d.(swapInAgreement := Some(a));
    var s2 := Stand(t, AwaitAgreement, d2, 0, None, Pending(OnAgreementReceived), log);
    StrayAgreement(w, key, r, a, b, None, |log|, o);
    Ignore(w, s0, s2, o);
    var s3 := s2.(phase := Idle);
    Hear(w, s0, s3, SwapOutAgreementReceived(b));
    assert log + InputLog(SwapOutAgreementReceived(b)) == log;
    var s4 := Stand(t, AwaitAgreement, d2.(swapOutAgreement := Some(b)), 0, None, Pending(OnFeeInvoiceReceived), log);
    hide Run, Execute, Next;
    var labels :| Run(w, s0, labels) == s4;
  }

  // ------------------------------------------------------- a swap-in sender

  /** The peer agrees to the swap at an acceptable premium. */
  predicate Agrees(r: Request, a: Agreement) {
    |a.pubkey| == 33 && a.premium <= r.premiumLimit
  }

  function Agreed(key: Bytes, r: Request, a: Agreement): Data {
    Asked(SwapInSender, key, r).(swapInAgreement := Some(a))
  }

  lemma ReachesAgreement(w: World, key: Bytes, r: Request, a: Agreement, o: Outcome) returns (log: seq<Entry>)
    requires Fair(w, key, r) && Agrees(r, a) && o.sent
    ensures Early(log)
    ensures Reaches(w, New(SwapInSender, key),
                    Stand(SwapInSender, AwaitAgreement, Agreed(key, r, a), 0, None, Pending(OnAgreementReceived), log))
  {
    log := ReachesAwaitAgreement(w, SwapInSender, key, r, o);
    hide Reaches, Fair;
    var s := Stand(SwapInSender, AwaitAgreement, Asked(SwapInSender, key, r), 0, None, Idle, log);
    Hear(w, New(SwapInSender, key), s, SwapInAgreementReceived(a));
    assert log + InputLog(SwapInAgreementReceived(a)) == log;
  }

  lemma SwapInSenderPath()
    ensures Next(SwapInSender, AwaitAgreement, OnTxOpenedMessage).None?
    ensures Next(SwapInSender, AwaitAgreement, OnAgreementReceived) == Some(BroadcastOpeningTx)
    ensures Next(SwapInSender, BroadcastOpeningTx, ActionSucceeded) == Some(SendTxBroadcastedMessage)
    ensures Next(SwapInSender, SendTxBroadcastedMessage, ActionSucceeded) == Some(AwaitClaimPayment)
    ensures Next(SwapInSender, BroadcastOpeningTx, ActionFailed) == Some(SendCancel)
    ensures Next(SwapInSender, SendCancel, ActionSucceeded) == Some(SwapCanceled)
  {
  }

  /** Announcing and waiting need only a message to send and an opening on record. */
  lemma AnnouncingRuns(w: World, t: Table, d: Data, id: nat, later: nat, o: Outcome)
    requires d.nextMessage.Some? && d.openingTxBroadcasted.Some? && d.AmountsKnown() && d.GetPolicy().Some?
    requires o.scriptOk
    ensures Execute(w, t, SendTxBroadcastedMessage, d, None, id, o)
            == Ran(d, ActionSucceeded, [Registered(id), Sent(d.nextMessage.value)], Some(id))
    ensures Execute(w, t, AwaitClaimPayment, d, Some(id), later, o) == Ran(d, NoOp, [], Some(id))
  {
    hide Create, PayFee, Broadcast, TakerAction, PlainAction, Claim;
  }

  /** From a successful opening action to the wait for the payment. */
  lemma ReachesWaiting(w: World, s0: Sys, d: Data, log: seq<Entry>, o: Outcome) returns (id: nat, more: seq<Entry>)
    requires Reaches(w, s0, Stand(SwapInSender, BroadcastOpeningTx, d, 0, None, Pending(ActionSucceeded), log))
    requires d.nextMessage.Some? && d.openingTxBroadcasted.Some? && d.AmountsKnown() && d.GetPolicy().Some?
    requires o.scriptOk
    ensures Reaches(w, s0, Stand(SwapInSender, AwaitClaimPayment, d, 0, Some(id), Idle, log + more))
    ensures |more| > 0 && more[0] == Moved(BroadcastOpeningTx, SendTxBroadcastedMessage, ActionSucceeded)
    ensures forall i :: 0 <= i < |more| ==> more[i].Moved? || more[i].Sent? || more[i].Registered?
  {
    hide Reaches, Execute, Next;
    SwapInSenderPath();
    id := |log|;
    var m1, m2 := Moved(BroadcastOpeningTx, SendTxBroadcastedMessage, ActionSucceeded),
      Moved(SendTxBroadcastedMessage, AwaitClaimPayment, ActionSucceeded);
    var sent := [Registered(id), Sent(d.nextMessage.value)];
    var l2 := log + [m1] + sent;
    AnnouncingRuns(w, SwapInSender, d, id, |l2|, o);
    var s1 := Stand(SwapInSender, BroadcastOpeningTx, d, 0, None, Pending(ActionSucceeded), log);
    Turn(w, s0, s1, o, SendTxBroadcastedMessage, Ran(d, ActionSucceeded, sent, Some(id)));
    var s2 := Stand(SwapInSender, SendTxBroadcastedMessage, d, 0, Some(id), Pending(ActionSucceeded), l2);
    Turn(w, s0, s2, o, AwaitClaimPayment, Ran(d, NoOp, [], Some(id)));
    more := [m1] + sent + [m2];
    assert l2 + [m2] + [] == log + more;
  }

  // ------------------------------------------------- announced, funded nothing

  lemma ForeignOpeningRuns(w: World, key: Bytes, r: Request, a: Agreement, m: Opening, id: nat, o: Outcome)
    requires Fair(w, key, r) && Agrees(r, a)
    ensures var d := Agreed(key, r, a).(openingTxBroadcasted := Some(m));
            && Execute(w, SwapInSender, BroadcastOpeningTx, d, None, id, o) == Ran(d, ActionSucceeded, [], None)
            && d.AmountsKnown() && d.GetPolicy().Some? && d.GetChain().Btc?
  {
    hide Create, PayFee, SendWithRetry, RefundAction, TakerAction, PlainAction;
  }

  lemma ReachesForeign(w: World, key: Bytes, r: Request, a: Agreement, m: Opening, o: Outcome) returns (log: seq<Entry>)
    requires Fair(w, key, r) && Agrees(r, a) && o.sent && |m.txid| == 32
    ensures Early(log)
    ensures var d := Agreed(key, r, a).(openingTxBroadcasted := Some(m));
            Reaches(w, New(SwapInSender, key),
                    Stand(SwapInSender, BroadcastOpeningTx, d, 0, None, Pending(ActionSucceeded),
                          log + [OpeningHeard(m)]
                          + [Moved(AwaitAgreement, BroadcastOpeningTx, OnAgreementReceived)] + []))
  {
    var t, s0 := SwapInSender, New(SwapInSender, key);
    log := ReachesAwaitAgreement(w, t, key, r, o);
    var d := Asked(t, key, r);
    var s1 := Stand(t, AwaitAgreement, d, 0, None, Idle, log);
    assert d.GetChain().Btc?;
    SwapInSenderPath();
    hide Reaches, Next, Fair;
    Hear(w, s0, s1, OpeningReceived(m));
    var heard := log + [OpeningHeard(m)];
    var d2 := d.(openingTxBroadcasted := Some(m));
    var s2 := Stand(t, AwaitAgreement, d2, 0, None, Pending(OnTxOpenedMessage), heard);
    Ignore(w, s0, s2, o);
    var s3 := s2.(phase := Idle);
    Hear(w, s0, s3, SwapInAgreementReceived(a));
    assert heard + InputLog(SwapInAgreementReceived(a)) == heard;
    var d4 := Agreed(key, r, a).(openingTxBroadcasted := Some(m));
    var s4 := Stand(t, AwaitAgreement, d4, 0, None, Pending(OnAgreementReceived), heard);
    ForeignOpeningRuns(w, key, r, a, m, |heard|, o);
    hide Execute;
    Turn(w, s0, s4, o, BroadcastOpeningTx, Ran(d4, ActionSucceeded, [], None));
  }

  lemma ForeignHistory(log: seq<Entry>, m: Opening, more: seq<Entry>)
    requires Early(log) && |more| > 0 && more[0] == Moved(BroadcastOpeningTx, SendTxBroadcastedMessage, ActionSucceeded)
    requires forall i :: 0 <= i < |more| ==> more[i].Moved? || more[i].Sent? || more[i].Registered?
    ensures var all := log + [OpeningHeard(m)]
                       + [Moved(AwaitAgreement, BroadcastOpeningTx, OnAgreementReceived)] + [] + more;
            Announced(all) && Foreign(all) && !FundedEver(all)
  {
    var all := log + [OpeningHeard(m)] + [Moved(AwaitAgreement, BroadcastOpeningTx, OnAgreementReceived)] + [] + more;
    assert all[|log|].OpeningHeard?;
    assert all[|log| + 2] == more[0];
    forall i | 0 <= i < |all| ensures !all[i].Funded? {
      assert all[i] == if i < |log| then log[i] else if i < |log| + 2 then all[i] else more[i - |log| - 2];
    }
  }

  /** A peer that sends an opening message of its own before it agrees: the swap-in sender keeps
      the message, skips the funding, announces, and rests with nothing funded and no raw
      transaction; if the empty string does not parse, passing the lock does not help it. */
  lemma ForeignOpeningSkipsFunding(w: World, key: Bytes, r: Request, a: Agreement, m: Opening, o: Outcome)
    requires Fair(w, key, r) && Agrees(r, a) && o.sent && o.scriptOk && |m.txid| == 32
    ensures exists labels ::
              var s := Run(w, New(SwapInSender, key), labels);
              && Announced(s.log) && Foreign(s.log) && !FundedEver(s.log)
              && s.phase.Idle? && s.current.AwaitClaimPayment? && s.data.openingTxHex == []
              && (w.parse([]).None? && o.spent.Some? ==> !Run(w, s, WayForward(s, o)).current.ClaimedCsv?)
  {
    var s0 := New(SwapInSender, key);
    var log := ReachesForeign(w, key, r, a, m, o);
    var d := Agreed(key, r, a).(openingTxBroadcasted := Some(m));
    ForeignOpeningRuns(w, key, r, a, m, 0, o);
    hide Fair, Run, Execute, Announced, Foreign, FundedEver;
    var before := log + [OpeningHeard(m)] + [Moved(AwaitAgreement, BroadcastOpeningTx, OnAgreementReceived)] + [];
    var id, more := ReachesWaiting(w, s0, d, before, o);
    ForeignHistory(log, m, more);
    var s := Stand(SwapInSender, AwaitClaimPayment, d, 0, Some(id), Idle, before + more);
    if o.spent.Some? { Forward(w, s, o); }
    var labels :| Run(w, s0, labels) == s;
  }

  // ------------------------------------------------ funding twice, or in vain

  /** Wallet and lightning node do their part of an opening. */
  predicate Willing(o: Outcome) {
    o.sent && o.preimage.Some? && o.payreq.Some? && o.funded.Some?
  }

  lemma OpensOwn(w: World, key: Bytes, r: Request, a: Agreement, id: nat, o: Outcome)
    requires Fair(w, key, r) && Agrees(r, a) && Willing(o)
    ensures var d := Agreed(key, r, a);
            var x := Execute(w, SwapInSender, BroadcastOpeningTx, d, None, id, o);
            && x.Ran? && x.sender.None? && |x.log| == 1 && x.log[0].Funded? && x.log[0].usable == o.height.Some?
            && x.event == (if o.height.Some? then ActionSucceeded else ActionFailed)
            && x.data.AmountsKnown() && x.data.GetPolicy().Some? && x.data.GetChain().Btc? && x.data.claimTxId == []
            && x.data.nextMessage.Some?
            && (o.height.Some? ==> x.data.openingTxBroadcasted.Some? && x.data.openingTxHex == o.funded.value.txHex)
            && (o.height.None? ==> x.data == d.(claimPreimage := o.preimage.value) && CanOpen(SwapInSender, x.data, o))
  {
    hide Create, PayFee, SendWithRetry, RefundAction, TakerAction, PlainAction;
  }

  /** The opening action, run on an agreed swap. */
  lemma ReachesOpening(w: World, key: Bytes, r: Request, a: Agreement, o: Outcome) returns (log: seq<Entry>, x: Exec)
    requires Fair(w, key, r) && Agrees(r, a) && Willing(o)
    ensures Early(log) && x == Execute(w, SwapInSender, BroadcastOpeningTx, Agreed(key, r, a), None, |log|, o) && x.Ran?
    ensures x.event.ActionSucceeded? || x.event.ActionFailed?
    ensures Reaches(w, New(SwapInSender, key),
                    Stand(SwapInSender, BroadcastOpeningTx, x.data, 0, None, Pending(x.event),
                          log + [Moved(AwaitAgreement, BroadcastOpeningTx, OnAgreementReceived)] + x.log))
  {
    log := ReachesAgreement(w, key, r, a, o);
    var d := Agreed(key, r, a);
    OpensOwn(w, key, r, a, |log|, o);
    SwapInSenderPath();
    hide Reaches, Execute, Next, Fair;
    x := Execute(w, SwapInSender, BroadcastOpeningTx, d, None, |log|, o);
    var s := Stand(SwapInSender, AwaitAgreement, d, 0, None, Pending(OnAgreementReceived), log);
    Turn(w, New(SwapInSender, key), s, o, BroadcastOpeningTx, x);
  }

  /** An opening whose block height cannot be read is funded and stored as failed; a crash then
      makes recovery fund a second output. */
  lemma FailedOpeningIsRepeated(w: World, key: Bytes, r: Request, a: Agreement, o: Outcome)
    requires Fair(w, key, r) && Agrees(r, a) && Willing(o) && o.height.None?
    ensures exists labels ::
              var log := Run(w, New(SwapInSender, key), labels).log;
              exists i, j :: 0 <= i < j < |log| && log[i].Funded? && !log[i].usable && log[j].Funded?
  {
    hide Fair, Run, Execute, CanOpen;
    var s0 := New(SwapInSender, key);
    var log, x := ReachesOpening(w, key, r, a, o);
    OpensOwn(w, key, r, a, |log|, o);
    var all := log + [Moved(AwaitAgreement, BroadcastOpeningTx, OnAgreementReceived)] + x.log;
    var s := Stand(SwapInSender, BroadcastOpeningTx, x.data, 0, None, Pending(ActionFailed), all);
    assert all[|all| - 1] == x.log[0];
    ReachesNext(w, s0, s, Crash);
    var c := ApplyCrash(s);
    ReachesNext(w, s0, c, Restart(o));
    OpeningFunds(w, SwapInSender, c.data, None, |c.log|, o);
    var f := ApplyRestart(w, c, o);
    assert f.log[|all| - 1] == x.log[0] && f.log[|all| + 1].Funded?;
    hide ApplyRestart, ApplyCrash;
    var labels :| Run(w, s0, labels) == f;
  }

  /** The recovery from that crash may succeed and still be lost: a second crash before it is
      stored makes the next recovery fund again, this time beside a usable output. */
  lemma ReopenedOpeningIsRepeated(w: World, key: Bytes, r: Request, a: Agreement, o: Outcome, h: u32)
    requires Fair(w, key, r) && Agrees(r, a) && Willing(o) && o.height.None?
    ensures exists labels ::
              var log := Run(w, New(SwapInSender, key), labels).log;
              exists i, j :: 0 <= i < j < |log| && IsUsable(log[i]) && IsUsable(log[j])
  {
    hide Fair, Run, Execute, CanOpen;
    var s0 := New(SwapInSender, key);
    var log, x := ReachesOpening(w, key, r, a, o);
    OpensOwn(w, key, r, a, |log|, o);
    var all := log + [Moved(AwaitAgreement, BroadcastOpeningTx, OnAgreementReceived)] + x.log;
    var s := Stand(SwapInSender, BroadcastOpeningTx, x.data, 0, None, Pending(ActionFailed), all);
    var o' := o.(height := Some(h));
    SameOpening(SwapInSender, x.data, o, o');
    ReachesNext(w, s0, s, Crash);
    var f := Reopened(w, s0, ApplyCrash(s), o');
    ReachesNext(w, s0, f, Crash);
    var g := Reopened(w, s0, ApplyCrash(f), o');
    assert g.log[|f.log| - 1] == f.log[|f.log| - 1];
    hide ApplyCrash;
    var labels :| Run(w, s0, labels) == g;
  }

  lemma SameOpening(t: Table, d: Data, o: Outcome, o': Outcome)
    requires CanOpen(t, d, o) && o'.preimage == o.preimage && o'.payreq == o.payreq && o'.funded == o.funded
    ensures CanOpen(t, d, o')
  {
  }

  /** Recovery of a swap that was stored unopened. */
  lemma Reopened(w: World, s0: Sys, c: Sys, o: Outcome) returns (f: Sys)
    requires Reaches(w, s0, c) && c.phase.Down? && c.table.SwapInSender? && c.current.BroadcastOpeningTx?
    requires c.stored == Some(Snapshot(c.current, c.data)) && CanOpen(c.table, c.data, o) && o.height.Some?
    ensures Reaches(w, s0, f) && f.stored == c.stored && f.table == c.table
    ensures c.log <= f.log && |f.log| == |c.log| + 1 && IsUsable(f.log[|c.log|])
  {
    hide Reaches, Execute, CanOpen;
    ReachesNext(w, s0, c, Restart(o));
    OpeningFunds(w, c.table, c.data, c.sender, |c.log|, o);
    f := ApplyRestart(w, c, o);
  }

  lemma AgreementRests(w: World, d: Data, id: nat, o: Outcome)
    ensures Execute(w, SwapInSender, AwaitAgreement, d, None, id, o) == Ran(d, NoOp, [], None)
    ensures !FailOnRecover(SwapInSender, AwaitAgreement) && !IsFinished(AwaitAgreement)
  {
  }

  /** An opening that succeeded, but was not stored before a crash, leaves the maker waiting for
      an agreement it already has, with a usable output that is not on record. */
  lemma LostOpeningIsStranded(w: World, key: Bytes, r: Request, a: Agreement, o: Outcome)
    requires Fair(w, key, r) && Agrees(r, a) && Willing(o) && o.height.Some?
    ensures exists labels ::
              var s := Run(w, New(SwapInSender, key), labels);
              && s.phase.Idle? && s.current.AwaitAgreement? && s.data.openingTxBroadcasted.None?
              && exists i :: 0 <= i < |s.log| && IsUsable(s.log[i])
  {
    hide Fair, Run, Execute, Next, FailOnRecover, CanOpen;
    var s0, d := New(SwapInSender, key), Agreed(key, r, a);
    var log := ReachesAgreement(w, key, r, a, o);
    OpensOwn(w, key, r, a, |log|, o);
    SwapInSenderPath();
    var s := Stand(SwapInSender, AwaitAgreement, d, 0, None, Pending(OnAgreementReceived), log);
    var x := Execute(w, SwapInSender, BroadcastOpeningTx, d, None, |log|, o);
    ReachesNext(w, s0, s, Dispatch(o));
    var m := Move(s, BroadcastOpeningTx, x);
    assert ApplyDispatch(w, s, o) == m;
    assert m.log[|log| + 1] == x.log[0];
    ReachesNext(w, s0, m, Crash);
    var c := ApplyCrash(m);
    AgreementRests(w, d, |c.log|, o);
    ReachesNext(w, s0, c, Restart(o));
    var n := ApplyRestart(w, c, o);
    assert c.log + [] == c.log && n == c.(phase := Recovered(NoOp));
    ReachesNext(w, s0, n, Persist);
    var f := ApplyPersist(n);
    assert f.log[|log| + 1] == x.log[0];
    hide ApplyDispatch, ApplyCrash, ApplyRestart, ApplyPersist;
    var labels :| Run(w, s0, labels) == f;
  }

  /** Without the crash the maker cancels, and the output it funded is left behind. */
  lemma FundedOutputIsAbandoned(w: World, key: Bytes, r: Request, a: Agreement, o: Outcome)
    requires Fair(w, key, r) && Agrees(r, a) && Willing(o) && o.height.None?
    ensures exists labels ::
              var s := Run(w, New(SwapInSender, key), labels);
              && s.phase.Idle? && s.current.SwapCanceled? && CrashFree(s.log)
              && exists i :: 0 <= i < |s.log| && s.log[i].Funded? && !s.log[i].usable
  {
    hide Fair, Run, Execute, Next, CanOpen;
    var t, s0 := SwapInSender, New(SwapInSender, key);
    var log, x := ReachesOpening(w, key, r, a, o);
    OpensOwn(w, key, r, a, |log|, o);
    SwapInSenderPath();
    var d, l1 := x.data, log + [Moved(AwaitAgreement, BroadcastOpeningTx, OnAgreementReceived)] + x.log;
    var s1 := Stand(t, BroadcastOpeningTx, d, 0, None, Pending(ActionFailed), l1);
    Exact.CancelingRuns(w, t, d, None, |l1|, o);
    Turn(w, s0, s1, o, SendCancel, Ran(d, ActionSucceeded, [], None));
    var l2 := l1 + [Moved(BroadcastOpeningTx, SendCancel, ActionFailed)] + [];
    var s2 := Stand(t, SendCancel, d, 0, None, Pending(ActionSucceeded), l2);
    Exact.CancelingRuns(w, t, d, None, |l2|, o);
    Turn(w, s0, s2, o, SwapCanceled, Ran(d, Done, [], None));
    var l3 := l2 + [Moved(SendCancel, SwapCanceled, ActionSucceeded)] + [];
    assert l3[|log| + 1] == x.log[0];
    forall i | 0 <= i < |l3| ensures !l3[i].Crashed? {
      assert i < |log| ==> l3[i] == log[i];
    }
    var s3 := Stand(t, SwapCanceled, d, 0, None, Idle, l3);
    var labels :| Run(w, s0, labels) == s3;
  }

  // ------------------------------------------------------------ spending twice

  /** A maker that refunds, and crashes before the refund is stored, refunds again. */
  lemma LostSpendIsRepeated(w: World, key: Bytes, r: Request, a: Agreement, o: Outcome)
    requires Fair(w, key, r) && Agrees(r, a) && Willing(o) && o.height.Some? && o.scriptOk && o.spent.Some?
    requires w.parse(o.funded.value.txHex).Some? && w.parse(o.funded.value.txHex).value != []
    ensures exists labels :: Count(Run(w, New(SwapInSender, key), labels).log, IsSpent) >= 2
  {
    var s0 := New(SwapInSender, key);
    var log, x := ReachesOpening(w, key, r, a, o);
    OpensOwn(w, key, r, a, |log|, o);
    var all := log + [Moved(AwaitAgreement, BroadcastOpeningTx, OnAgreementReceived)] + x.log;
    hide Fair, Run, Execute, Count;
    var id, more := ReachesWaiting(w, s0, x.data, all, o);
    var s := Stand(SwapInSender, AwaitClaimPayment, x.data, 0, Some(id), Idle, all + more);
    assert CanRefund(w, s);
    LostRefundIsRepeated(w, s, o);
    var way := [Deliver(CsvPassed), Dispatch(o), Crash, Restart(o), Persist, Deliver(CsvPassed), Dispatch(o)];
    ReachesOn(w, s0, s, way);
    var labels :| Run(w, s0, labels) == Run(w, s, way);
  }

  /** A refund adds a spending transaction to the history. */
  lemma RefundIsSpent(w: World, s: Sys, o: Outcome)
    requires s.phase == Pending(OnCsvPassed) && s.table.SwapInSender? && s.current.AwaitClaimPayment?
    requires o.spent.Some? && Refundable(w, s.data)
    ensures var r := ApplyDispatch(w, s, o);
            s.log <= r.log && |r.log| > |s.log| && r.log[|r.log| - 1].Spent?
  {
    RefundRuns(w, s.table, s.data, s.sender, |s.log|, o);
    ExecuteDetails(w, s.table, ClaimSwapCsv, s.data, s.sender, |s.log|, o);
    assert Next(s.table, s.current, OnCsvPassed) == Some(ClaimSwapCsv);
    hide Execute, Next;
    var x := Execute(w, s.table, ClaimSwapCsv, s.data, s.sender, |s.log|, o);
    assert ApplyDispatch(w, s, o) == Move(s, ClaimSwapCsv, x);
    assert x.log != [] && x.log[|x.log| - 1].Spent?;
  }

  /** Paid, finished, and crashed before that was stored: the maker waits again. */
  lemma ReachesForgotten(w: World, s0: Sys, d: Data, snd: Option<nat>, log: seq<Entry>, o: Outcome)
    returns (more: seq<Entry>)
    requires Reaches(w, s0, Stand(SwapInSender, AwaitClaimPayment, d, 0, snd, Idle, log))
    requires o.scriptOk && d.openingTxBroadcasted.Some? && d.AmountsKnown() && d.GetPolicy().Some?
    ensures Reaches(w, s0, Stand(SwapInSender, AwaitClaimPayment, d, 0, None, Idle, log + more))
    ensures more != [] && IsReceipt(more[0])
  {
    hide Reaches, Execute, Next, FailOnRecover;
    var t := SwapInSender;
    Hear(w, s0, Stand(t, AwaitClaimPayment, d, 0, snd, Idle, log), ClaimInvoicePaid);
    assert log + InputLog(ClaimInvoicePaid) == log;
    var s1 := Stand(t, AwaitClaimPayment, d, 0, snd, Pending(OnClaimInvoicePaid), log);
    ReceiptEdge(t, AwaitClaimPayment, OnClaimInvoicePaid);
    FinishingRuns(w, t, d, snd, |log|, o);
    ReachesNext(w, s0, s1, Dispatch(o));
    var m := Move(s1, ClaimedPreimage, Ran(d, Done, StopLog(snd), None));
    assert ApplyDispatch(w, s1, o) == m;
    ReachesNext(w, s0, m, Crash);
    ReachesNext(w, s0, ApplyCrash(m), Restart(o));
    ReachesNext(w, s0, ApplyRestart(w, ApplyCrash(m), o), Persist);
    WaitsAgain(w, m, o);
    more := [Moved(AwaitClaimPayment, ClaimedPreimage, OnClaimInvoicePaid)] + StopLog(snd)
      + [CrashEntry(m, m.stored.value)];
    hide ApplyRestart, ApplyPersist, ApplyDispatch;
    assert ApplyCrash(m).log == log + more;
  }

  /** A maker that is paid, crashes before the finished swap is stored, and is told that the lock
      has passed when it is back, refunds itself. */
  lemma ForgottenPaymentIsRefunded(w: World, key: Bytes, r: Request, a: Agreement, o: Outcome)
    requires Fair(w, key, r) && Agrees(r, a) && Willing(o) && o.height.Some? && o.scriptOk && o.spent.Some?
    requires w.parse(o.funded.value.txHex).Some? && w.parse(o.funded.value.txHex).value != []
    ensures exists labels :: RefundAfterPayment(Run(w, New(SwapInSender, key), labels).log)
  {
    var t, s0 := SwapInSender, New(SwapInSender, key);
    var log, x := ReachesOpening(w, key, r, a, o);
    OpensOwn(w, key, r, a, |log|, o);
    var d, l1 := x.data, log + [Moved(AwaitAgreement, BroadcastOpeningTx, OnAgreementReceived)] + x.log;
    assert Refundable(w, d);
    hide Fair, Run, Execute, Refundable;
    var id, m1 := ReachesWaiting(w, s0, d, l1, o);
    var m2 := ReachesForgotten(w, s0, d, Some(id), l1 + m1, o);
    var l2 := l1 + m1 + m2;
    Hear(w, s0, Stand(t, AwaitClaimPayment, d, 0, None, Idle, l2), CsvPassed);
    assert l2 + InputLog(CsvPassed) == l2;
    var s := Stand(t, AwaitClaimPayment, d, 0, None, Pending(OnCsvPassed), l2);
    ReachesNext(w, s0, s, Dispatch(o));
    RefundIsSpent(w, s, o);
    var f := ApplyDispatch(w, s, o);
    hide ApplyDispatch;
    assert f.log[|l1 + m1|] == l2[|l1 + m1|] == m2[0];
    var labels :| Run(w, s0, labels) == f;
  }

  // --------------------------------------------------- a key given away

  /** What the claim invoice of the opening message decodes to, and what it pays for. */
  function ClaimInvoice(w: World, m: Opening): Option<Invoice> { w.decode(m.payreq) }

  function Contract(r: Request, b: Agreement, hash: Bytes): OpeningParams {
    OpeningParams(r.pubkey, b.pubkey, hash, r.amount, BITCOIN_CSV, [])
  }

  /** Everything a Bitcoin swap-out goes through up to the claim goes well: the fee is payable,
      the invoice acceptable, the transaction valid, and the first payment succeeds. Only the
      claim transaction never gets out. */
  predicate Smooth(w: World, key: Bytes, r: Request, b: Agreement, m: Opening, hex: Bytes, p: Bytes, o: Outcome) {
    && Fair(w, key, r) && |b.pubkey| == 33 && |m.txid| == 32 && m.blindingKey == []
    && o.sent && o.scriptOk && o.feePayment.Some? && o.height.Some? && 0 < o.height.value < 0x1000_0000
    && o.ticks == [Tick(o.height, Some(p))] && o.spent.None?
    && MayPayFee(w, Asked(SwapOutSender, key, r).(swapOutAgreement := Some(b)), o)
    && ClaimInvoice(w, m).Some?
    && var invoice := ClaimInvoice(w, m).value;
       && invoice.finalCltv <= BITCOIN_SAFETY_LIMIT && invoice.amountMsat == Msat((r.amount + b.premium) % TWO_64)
       && ValidateTx(w, Btc, Contract(r, b, invoice.hash), hex)
  }

  /** No crash and no timeout so far. */
  ghost predicate Untroubled(log: seq<Entry>) {
    forall i :: 0 <= i < |log| ==> !log[i].Crashed? && !IsTimeout(log[i])
  }

  /** The data of the swap while the taker waits for the opening message. */
  predicate PaidFee(key: Bytes, r: Request, b: Agreement, o: Outcome, d: Data) {
    && o.height.Some? && d.startingBlockHeight == o.height.value
    && d.swapInRequest.None? && d.swapInAgreement.None? && d.swapOutRequest == Some(r) && d.swapOutAgreement == Some(b)
    && d.openingTxBroadcasted.None? && d.claimTxId == [] && d.claimPaymentHash == [] && d.claimPreimage == []
    && d.blindingKey == [] && d.privkey == key
  }

  lemma SwapOutSenderPath()
    ensures Next(SwapOutSender, AwaitAgreement, OnFeeInvoiceReceived) == Some(PayFeeInvoice)
    ensures Next(SwapOutSender, PayFeeInvoice, ActionSucceeded) == Some(AwaitTxBroadcastedMessage)
    ensures Next(SwapOutSender, AwaitTxBroadcastedMessage, OnTxOpenedMessage) == Some(AwaitTxConfirmation)
    ensures Next(SwapOutSender, AwaitTxConfirmation, OnTxConfirmed) == Some(ValidateTxAndPayClaimInvoice)
  {
  }

  lemma ClaimingPath()
    ensures Next(SwapOutSender, ValidateTxAndPayClaimInvoice, ActionSucceeded) == Some(ClaimSwap)
    ensures Next(SwapOutSender, ClaimSwap, OnRetry) == Some(ClaimSwap)
    ensures Next(SwapOutSender, ClaimSwap, OnTimeout) == Some(SendPrivkey)
  {
  }

  lemma SmoothFacts(w: World, key: Bytes, r: Request, b: Agreement, m: Opening, hex: Bytes, p: Bytes, o: Outcome)
    requires Smooth(w, key, r, b, m, hex, p, o)
    ensures Fair(w, key, r) && |b.pubkey| == 33 && |m.txid| == 32 && o.sent && o.height.Some? && o.spent.None?
    ensures ClaimInvoice(w, m).Some?
  {
    hide Fair, MayPayFee, ValidateTx;
  }

  lemma FeeRuns(w: World, key: Bytes, r: Request, b: Agreement, m: Opening, hex: Bytes, p: Bytes, id: nat, o: Outcome)
    requires Smooth(w, key, r, b, m, hex, p, o)
    ensures var d := Asked(SwapOutSender, key, r).(swapOutAgreement := Some(b));
            var x := Execute(w, SwapOutSender, PayFeeInvoice, d, None, id, o);
            && x.Ran? && x.event.ActionSucceeded? && x.sender.None? && |x.log| == 1 && x.log[0].FeePayment?
            && x.data.startingBlockHeight == 0 && x.data.GetChain().Btc?
            && PaidFee(key, r, b, o, x.data.(startingBlockHeight := o.height.value))
  {
    hide Create, Broadcast, SendWithRetry, RefundAction, TakerAction, PlainAction, ValidateTx;
    assert MayPayFee(w, Asked(SwapOutSender, key, r).(swapOutAgreement := Some(b)), o);
  }

  lemma HeightRuns(w: World, d: Data, id: nat, o: Outcome)
    requires d.GetChain().Btc? && o.height.Some? && d.startingBlockHeight == 0
    ensures Execute(w, SwapOutSender, AwaitTxBroadcastedMessage, d, None, id, o)
            == Ran(d.(startingBlockHeight := o.height.value), NoOp, [], None)
  {
    hide Create, Broadcast, SendWithRetry, RefundAction, PayFee, PlainAction, Claim, AwaitConfirmation, ValidateAndPay;
  }

  lemma ReachesFeePaid(w: World, key: Bytes, r: Request, b: Agreement, m: Opening, hex: Bytes, p: Bytes, o: Outcome)
    returns (log: seq<Entry>, d: Data)
    requires Smooth(w, key, r, b, m, hex, p, o)
    ensures Untroubled(log) && PaidFee(key, r, b, o, d)
    ensures Reaches(w, New(SwapOutSender, key), Stand(SwapOutSender, AwaitTxBroadcastedMessage, d, 0, None, Idle, log))
  {
    hide Reaches, Smooth, Fair, Execute, Next, MayPayFee;
    SmoothFacts(w, key, r, b, m, hex, p, o);
    var t, s0 := SwapOutSender, New(SwapOutSender, key);
    var l1 := ReachesAwaitAgreement(w, t, key, r, o);
    var d1 := Asked(t, key, r);
    var s1 := Stand(t, AwaitAgreement, d1, 0, None, Idle, l1);
    FeeRuns(w, key, r, b, m, hex, p, |l1|, o);
    SwapOutSenderPath();
    Hear(w, s0, s1, SwapOutAgreementReceived(b));
    assert l1 + InputLog(SwapOutAgreementReceived(b)) == l1;
    var d2 := d1.(swapOutAgreement := Some(b));
    var s2 := Stand(t, AwaitAgreement, d2, 0, None, Pending(OnFeeInvoiceReceived), l1);
    var x := Execute(w, t, PayFeeInvoice, d2, None, |l1|, o);
    Turn(w, s0, s2, o, PayFeeInvoice, x);
    var l3 := l1 + [Moved(AwaitAgreement, PayFeeInvoice, OnFeeInvoiceReceived)] + x.log;
    var s3 := Stand(t, PayFeeInvoice, x.data, 0, None, Pending(ActionSucceeded), l3);
    d := x.data.(startingBlockHeight := o.height.value);
    HeightRuns(w, x.data, |l3|, o);
    Turn(w, s0, s3, o, AwaitTxBroadcastedMessage, Ran(d, NoOp, [], None));
    log := l3 + [Moved(PayFeeInvoice, AwaitTxBroadcastedMessage, ActionSucceeded)] + [];
  }

  lemma Unannounced(key: Bytes, r: Request, b: Agreement, o: Outcome, d: Data)
    requires PaidFee(key, r, b, o, d)
    ensures d.openingTxBroadcasted.None?
  {
  }

  /** The data once the opening message is bound. */
  predicate BoundTo(w: World, key: Bytes, r: Request, b: Agreement, m: Opening, o: Outcome, d: Data) {
    && ClaimInvoice(w, m).Some? && d.claimPaymentHash == ClaimInvoice(w, m).value.hash
    && PaidFee(key, r, b, o, d.(openingTxBroadcasted := None, claimPaymentHash := []))
    && d.openingTxBroadcasted == Some(m)
  }

  lemma ConfirmationAccepts(w: World, key: Bytes, r: Request, b: Agreement, m: Opening, hex: Bytes, p: Bytes, d: Data,
                            o: Outcome)
    requires Smooth(w, key, r, b, m, hex, p, o) && PaidFee(key, r, b, o, d)
    ensures var e := d.(openingTxBroadcasted := Some(m));
            AwaitConfirmation(w, e, o, None)
            == Ran(e.(claimPaymentHash := ClaimInvoice(w, m).value.hash), NoOp, [], None)
  {
    hide ValidateTx, MayPayFee;
    var e := d.(openingTxBroadcasted := Some(m));
    assert e.GetChain().Btc? && e.AmountsKnown() && e.GetPolicy() == PolicyFor(Btc, PROTOCOL_VERSION);
    assert e.GetClaimAmount() == (r.amount + b.premium) % TWO_64;
    hide Smooth, Fair, PaidFee;
    assert MayAwait(e, o.height.value, e.GetPolicy().value);
  }

  lemma ConfirmationRuns(w: World, key: Bytes, r: Request, b: Agreement, m: Opening, hex: Bytes, p: Bytes, d: Data,
                         id: nat, o: Outcome)
    requires Smooth(w, key, r, b, m, hex, p, o) && PaidFee(key, r, b, o, d)
    ensures var e := d.(openingTxBroadcasted := Some(m));
            var f := e.(claimPaymentHash := ClaimInvoice(w, m).value.hash);
            && Execute(w, SwapOutSender, AwaitTxConfirmation, e, None, id, o) == Ran(f, NoOp, [], None)
            && BoundTo(w, key, r, b, m, o, f) && d.GetChain().Btc?
  {
    ConfirmationAccepts(w, key, r, b, m, hex, p, d, o);
    hide Create, Broadcast, SendWithRetry, RefundAction, PayFee, PlainAction, AwaitConfirmation, ValidateTx, MayPayFee;
  }

  lemma ReachesBound(w: World, key: Bytes, r: Request, b: Agreement, m: Opening, hex: Bytes, p: Bytes, o: Outcome)
    returns (log: seq<Entry>, d: Data)
    requires Smooth(w, key, r, b, m, hex, p, o)
    ensures Untroubled(log) && BoundTo(w, key, r, b, m, o, d)
    ensures Reaches(w, New(SwapOutSender, key), Stand(SwapOutSender, AwaitTxConfirmation, d, 0, None, Idle, log))
  {
    hide Reaches, Smooth, Execute, Next, Fair, BoundTo;
    SmoothFacts(w, key, r, b, m, hex, p, o);
    var t, s0 := SwapOutSender, New(SwapOutSender, key);
    var l1, d1 := ReachesFeePaid(w, key, r, b, m, hex, p, o);
    SwapOutSenderPath();
    var d2 := d1.(openingTxBroadcasted := Some(m));
    var l2 := l1 + [OpeningHeard(m)];
    ConfirmationRuns(w, key, r, b, m, hex, p, d1, |l2|, o);
    Unannounced(key, r, b, o, d1);
    hide PaidFee;
    var s1 := Stand(t, AwaitTxBroadcastedMessage, d1, 0, None, Idle, l1);
    Hear(w, s0, s1, OpeningReceived(m));
    var s2 := Stand(t, AwaitTxBroadcastedMessage, d2, 0, None, Pending(OnTxOpenedMessage), l2);
    d := d2.(claimPaymentHash := ClaimInvoice(w, m).value.hash);
    Turn(w, s0, s2, o, AwaitTxConfirmation, Ran(d, NoOp, [], None));
    log := l2 + [Moved(AwaitTxBroadcastedMessage, AwaitTxConfirmation, OnTxOpenedMessage)] + [];
  }

  lemma PaymentRuns(w: World, key: Bytes, r: Request, b: Agreement, m: Opening, hex: Bytes, p: Bytes, d: Data, id: nat,
                    o: Outcome)
    requires Smooth(w, key, r, b, m, hex, p, o) && BoundTo(w, key, r, b, m, o, d)
    ensures var e := d.(openingTxHex := hex);
            var x := Execute(w, SwapOutSender, ValidateTxAndPayClaimInvoice, e, None, id, o);
            && x.Ran? && x.event.ActionSucceeded? && x.data == e.(claimPreimage := p) && x.sender.None?
            && |x.log| == 1 && IsPaid(x.log[0])
            && x.data.AmountsKnown() && x.data.AllowsNewPayment() && x.data.claimTxId == []
  {
    hide Create, Broadcast, SendWithRetry, RefundAction, PayFee, PlainAction, Claim, SetStartingHeight,
      AwaitConfirmation, ValidateTx, MayPayFee;
    var e := d.(openingTxHex := hex);
    assert e.GetOpeningParams(w) == Contract(r, b, ClaimInvoice(w, m).value.hash);
    assert o.ticks[1..] == [];
    assert MayPay(e, o.height.value, e.GetPolicy().value);
    assert PayRounds(w, e, e.GetPolicy().value, o.ticks)
           == (Some(p), [PaymentEntry(w, e, o.height.value, e.GetPolicy().value, Some(p))]);
  }

  lemma ClaimFails(w: World, d: Data, id: nat, o: Outcome)
    requires d.AmountsKnown() && d.AllowsNewPayment() && d.claimTxId == [] && o.spent.None?
    ensures Execute(w, SwapOutSender, ClaimSwap, d, None, id, o) == Ran(d, OnRetry, [], None)
  {
    hide Create, Broadcast, SendWithRetry, RefundAction, PayFee, PlainAction, SetStartingHeight, AwaitConfirmation,
      ValidateAndPay;
  }

  /** The claim is tried until the retries are used up. */
  lemma {:induction false} ClaimGivesUp(w: World, s0: Sys, d: Data, k: nat, log: seq<Entry>, o: Outcome)
    returns (more: seq<Entry>)
    requires d.AmountsKnown() && d.AllowsNewPayment() && d.claimTxId == [] && o.spent.None? && k <= MAX_RETRIES
    requires CrashFree(log)
    requires Reaches(w, s0, Stand(SwapOutSender, ClaimSwap, d, k, None, Pending(OnRetry), log))
    ensures Reaches(w, s0, Stand(SwapOutSender, ClaimSwap, d, 0, None, Idle, log + more)) && CrashFree(log + more)
    decreases MAX_RETRIES - k
  {
    hide Reaches, Execute, Next;
    ClaimFails(w, d, |log|, o);
    ClaimingPath();
    var s := Stand(SwapOutSender, ClaimSwap, d, k, None, Pending(OnRetry), log);
    Turn(w, s0, s, o, ClaimSwap, Ran(d, OnRetry, [], None));
    var move := [Moved(ClaimSwap, ClaimSwap, OnRetry)];
    assert log + move + [] == log + move;
    if k == MAX_RETRIES {
      more := move;
    } else {
      var rest := ClaimGivesUp(w, s0, d, k + 1, log + move, o);
      more := move + rest;
      assert log + move + rest == log + more;
    }
  }

  lemma ReachesPaid(w: World, key: Bytes, r: Request, b: Agreement, m: Opening, hex: Bytes, p: Bytes, o: Outcome)
    returns (log: seq<Entry>, d: Data)
    requires Smooth(w, key, r, b, m, hex, p, o)
    ensures CrashFree(log) && Paid(log) && d.AmountsKnown() && d.AllowsNewPayment() && d.claimTxId == []
    ensures Reaches(w, New(SwapOutSender, key), Stand(SwapOutSender, ClaimSwap, d, 1, None, Pending(OnRetry), log))
  {
    hide Reaches, Smooth, Execute, Next, Fair, BoundTo, CrashFree;
    SmoothFacts(w, key, r, b, m, hex, p, o);
    var t, s0 := SwapOutSender, New(SwapOutSender, key);
    var l1, d1 := ReachesBound(w, key, r, b, m, hex, p, o);
    var l2 := l1 + [HexDelivered(hex)];
    PaymentRuns(w, key, r, b, m, hex, p, d1, |l2|, o);
    SwapOutSenderPath();
    ClaimingPath();
    var s1 := Stand(t, AwaitTxConfirmation, d1, 0, None, Idle, l1);
    Hear(w, s0, s1, TxConfirmed(hex));
    var d2 := d1.(openingTxHex := hex);
    var s2 := Stand(t, AwaitTxConfirmation, d2, 0, None, Pending(OnTxConfirmed), l2);
    var x := Execute(w, t, ValidateTxAndPayClaimInvoice, d2, None, |l2|, o);
    Turn(w, s0, s2, o, ValidateTxAndPayClaimInvoice, x);
    var l3 := l2 + [Moved(AwaitTxConfirmation, ValidateTxAndPayClaimInvoice, OnTxConfirmed)] + x.log;
    d := x.data;
    var s3 := Stand(t, ValidateTxAndPayClaimInvoice, d, 0, None, Pending(ActionSucceeded), l3);
    ClaimFails(w, d, |l3|, o);
    Turn(w, s0, s3, o, ClaimSwap, Ran(d, OnRetry, [], None));
    log := l3 + [Moved(ValidateTxAndPayClaimInvoice, ClaimSwap, ActionSucceeded)] + [];
    PaidHistory(l1, hex, x.log[0]);
    assert x.log == [x.log[0]];
    assert log == l1 + PaidEntries(hex, x.log[0]);
  }

  function PaidEntries(hex: Bytes, paid: Entry): seq<Entry> {
    [HexDelivered(hex), Moved(AwaitTxConfirmation, ValidateTxAndPayClaimInvoice, OnTxConfirmed), paid,
     Moved(ValidateTxAndPayClaimInvoice, ClaimSwap, ActionSucceeded)]
  }

  lemma PaidHistory(l1: seq<Entry>, hex: Bytes, paid: Entry)
    requires Untroubled(l1) && IsPaid(paid)
    ensures CrashFree(l1 + PaidEntries(hex, paid)) && Paid(l1 + PaidEntries(hex, paid))
  {
    var log := l1 + PaidEntries(hex, paid);
    assert log[|l1| + 2] == paid;
  }

  lemma RevealedHistory(l1: seq<Entry>, more: seq<Entry>)
    requires Paid(l1) && CrashFree(l1 + more)
    ensures var log := l1 + more + [Moved(ClaimSwap, SendPrivkey, OnTimeout)] + [BuiltPrivkeyMessage];
            CrashFree(log) && KeyAfterPayment(log)
  {
    var log := l1 + more + [Moved(ClaimSwap, SendPrivkey, OnTimeout)] + [BuiltPrivkeyMessage];
    var i :| 0 <= i < |l1| && IsPaid(l1[i]);
    assert log[i] == l1[i] && log[|l1 + more| + 1].BuiltPrivkeyMessage?;
    forall k | 0 <= k < |log| ensures !log[k].Crashed? {
      assert k < |l1 + more| ==> log[k] == (l1 + more)[k];
    }
  }

  lemma RevealingRuns(w: World, d: Data, id: nat, o: Outcome)
    ensures Execute(w, SwapOutSender, SendPrivkey, d, None, id, o)
            == Ran(d.(nextMessage := Some(CoopCloseMessage(d.privkey))), ActionSucceeded, [BuiltPrivkeyMessage], None)
  {
  }

  /** A swap-out sender that has paid but cannot get its claim out gives up after twenty retries
      and rests; the timeout that was started with the swap then makes it give its private key
      away, in a run without a crash. */
  lemma TimeoutRevealsKey(w: World, key: Bytes, r: Request, b: Agreement, m: Opening, hex: Bytes, p: Bytes, o: Outcome)
    requires Smooth(w, key, r, b, m, hex, p, o)
    ensures exists labels ::
              var s := Run(w, New(SwapOutSender, key), labels);
              s.data.AllowsNewPayment() && CrashFree(s.log) && KeyAfterPayment(s.log)
  {
    hide Smooth, Execute, Next, Run, Fair, CrashFree, Paid, KeyAfterPayment;
    SmoothFacts(w, key, r, b, m, hex, p, o);
    var t, s0 := SwapOutSender, New(SwapOutSender, key);
    var l1, d := ReachesPaid(w, key, r, b, m, hex, p, o);
    var more := ClaimGivesUp(w, s0, d, 1, l1, o);
    var l2 := l1 + more;
    var s2 := Stand(t, ClaimSwap, d, 0, None, Idle, l2);
    Hear(w, s0, s2, Timeout);
    assert l2 + InputLog(Timeout) == l2;
    var s3 := Stand(t, ClaimSwap, d, 0, None, Pending(OnTimeout), l2);
    ClaimingPath();
    RevealingRuns(w, d, |l2|, o);
    var e := d.(nextMessage := Some(CoopCloseMessage(d.privkey)));
    Turn(w, s0, s3, o, SendPrivkey, Ran(e, ActionSucceeded, [BuiltPrivkeyMessage], None));
    var l4 := l2 + [Moved(ClaimSwap, SendPrivkey, OnTimeout)] + [BuiltPrivkeyMessage];
    RevealedHistory(l1, more);
    var s4 := Stand(t, SendPrivkey, e, 0, None, Pending(ActionSucceeded), l4);
    var labels :| Run(w, s0, labels) == s4;
  }

  // ------------------------------------------------- a preimage lost to a crash

  /** Waiting again without a readable block height gives up. */
  lemma ConfirmationFails(w: World, key: Bytes, r: Request, b: Agreement, m: Opening, hex: Bytes, p: Bytes,
                          d: Data, id: nat, o: Outcome)
    requires Smooth(w, key, r, b, m, hex, p, o) && BoundTo(w, key, r, b, m, o, d)
    ensures var e, o' := d.(openingTxHex := hex), o.(height := None);
            && Execute(w, SwapOutSender, AwaitTxConfirmation, e, None, id, o') == Ran(e, ActionFailed, [], None)
            && !FailOnRecover(SwapOutSender, AwaitTxConfirmation) && !IsFinished(AwaitTxConfirmation)
            && Next(SwapOutSender, AwaitTxConfirmation, ActionFailed) == Some(SendPrivkey)
  {
    var e, o' := d.(openingTxHex := hex), o.(height := None);
    RebindingFails(w, key, r, b, m, hex, p, d, o);
    hide Create, Broadcast, SendWithRetry, RefundAction, PayFee, PlainAction, AwaitConfirmation, Smooth, BoundTo;
  }

  lemma RebindingFails(w: World, key: Bytes, r: Request, b: Agreement, m: Opening, hex: Bytes, p: Bytes, d: Data,
                       o: Outcome)
    requires Smooth(w, key, r, b, m, hex, p, o) && BoundTo(w, key, r, b, m, o, d)
    ensures var e := d.(openingTxHex := hex);
            AwaitConfirmation(w, e, o.(height := None), None) == Ran(e, ActionFailed, [], None)
  {
    hide ValidateTx, MayPayFee;
    var e := d.(openingTxHex := hex);
    assert e.GetChain().Btc? && e.AmountsKnown() && e.GetPolicy() == PolicyFor(Btc, PROTOCOL_VERSION);
    hide Smooth, Fair, PaidFee;
  }

  /** The history of the run below: paid, thrown back, given up, without a timeout. */
  lemma ThrownBackHistory(l1: seq<Entry>, hex: Bytes, paid: Entry, crash: Entry)
    requires Untroubled(l1) && IsPaid(paid) && IsThrownBack(crash)
    ensures var log := l1 + [HexDelivered(hex)]
                       + [Moved(AwaitTxConfirmation, ValidateTxAndPayClaimInvoice, OnTxConfirmed)] + [paid] + [crash]
                       + [Moved(AwaitTxConfirmation, SendPrivkey, ActionFailed)] + [BuiltPrivkeyMessage];
            KeyAfterThrowback(log) && !TimedOut(log)
  {
    var log := l1 + [HexDelivered(hex)]
               + [Moved(AwaitTxConfirmation, ValidateTxAndPayClaimInvoice, OnTxConfirmed)] + [paid] + [crash]
               + [Moved(AwaitTxConfirmation, SendPrivkey, ActionFailed)] + [BuiltPrivkeyMessage];
    var n := |l1|;
    assert log[n + 2] == paid && log[n + 3] == crash && log[n + 5].BuiltPrivkeyMessage?;
    assert log[n].HexDelivered? && !IsTimeout(log[n + 1]) && !IsTimeout(log[n + 4]);
    forall i | 0 <= i < |log| ensures !IsTimeout(log[i]) {
      if i < n { assert log[i] == l1[i]; }
    }
  }

  /** Paid, and crashed before the result was stored. */
  lemma ReachesThrownBack(w: World, key: Bytes, r: Request, b: Agreement, m: Opening, hex: Bytes, p: Bytes, o: Outcome)
    returns (l1: seq<Entry>, d1: Data, paid: Entry, crash: Entry)
    requires Smooth(w, key, r, b, m, hex, p, o)
    ensures Untroubled(l1) && BoundTo(w, key, r, b, m, o, d1) && IsPaid(paid) && IsThrownBack(crash)
    ensures var log := l1 + [HexDelivered(hex)]
                       + [Moved(AwaitTxConfirmation, ValidateTxAndPayClaimInvoice, OnTxConfirmed)] + [paid] + [crash];
            Reaches(w, New(SwapOutSender, key),
                    Stand(SwapOutSender, AwaitTxConfirmation, d1.(openingTxHex := hex), 0, None, Down, log))
    ensures d1.(openingTxHex := hex).AllowsNewPayment()
  {
    hide Smooth, Execute, Next, Fair, BoundTo, Reaches;
    SmoothFacts(w, key, r, b, m, hex, p, o);
    var t, s0 := SwapOutSender, New(SwapOutSender, key);
    l1, d1 := ReachesBound(w, key, r, b, m, hex, p, o);
    var l2, d2 := l1 + [HexDelivered(hex)], d1.(openingTxHex := hex);
    PaymentRuns(w, key, r, b, m, hex, p, d1, |l2|, o);
    SwapOutSenderPath();
    Hear(w, s0, Stand(t, AwaitTxConfirmation, d1, 0, None, Idle, l1), TxConfirmed(hex));
    var s2 := Stand(t, AwaitTxConfirmation, d2, 0, None, Pending(OnTxConfirmed), l2);
    var x := Execute(w, t, ValidateTxAndPayClaimInvoice, d2, None, |l2|, o);
    paid := x.log[0];
    ReachesNext(w, s0, s2, Dispatch(o));
    var s3 := Move(s2, ValidateTxAndPayClaimInvoice, x);
    assert ApplyDispatch(w, s2, o) == s3 && x.log == [paid];
    ReachesNext(w, s0, s3, Crash);
    crash := CrashEntry(s3, s3.stored.value);
  }

  /** A taker that pays, crashes before the preimage is stored, and cannot read the block height
      when it recovers, gives its private key away without any timeout. */
  lemma LostPreimageRevealsKey(w: World, key: Bytes, r: Request, b: Agreement, m: Opening, hex: Bytes, p: Bytes,
                               o: Outcome)
    requires Smooth(w, key, r, b, m, hex, p, o)
    ensures exists labels ::
              var s := Run(w, New(SwapOutSender, key), labels);
              s.data.AllowsNewPayment() && KeyAfterThrowback(s.log) && !TimedOut(s.log)
  {
    hide Smooth, Execute, Next, Run, BoundTo, KeyAfterThrowback, TimedOut, FailOnRecover;
    var t, s0, o' := SwapOutSender, New(SwapOutSender, key), o.(height := None);
    var l1, d1, paid, crash := ReachesThrownBack(w, key, r, b, m, hex, p, o);
    var d := d1.(openingTxHex := hex);
    var log := l1 + [HexDelivered(hex)]
               + [Moved(AwaitTxConfirmation, ValidateTxAndPayClaimInvoice, OnTxConfirmed)] + [paid] + [crash];
    var c := Stand(t, AwaitTxConfirmation, d, 0, None, Down, log);
    ConfirmationFails(w, key, r, b, m, hex, p, d1, |log|, o);
    ReachesNext(w, s0, c, Restart(o'));
    var s4 := c.(phase := Recovered(ActionFailed));
    assert log + [] == log && ApplyRestart(w, c, o') == s4;
    ReachesNext(w, s0, s4, Persist);
    var s5 := Stand(t, AwaitTxConfirmation, d, 0, None, Pending(ActionFailed), log);
    assert ApplyPersist(s4) == s5;
    hide ApplyRestart, ApplyPersist;
    RevealingRuns(w, d, |log|, o);
    var e := d.(nextMessage := Some(CoopCloseMessage(d.privkey)));
    Turn(w, s0, s5, o, SendPrivkey, Ran(e, ActionSucceeded, [BuiltPrivkeyMessage], None));
    ThrownBackHistory(l1, hex, paid, crash);
    var s6 := Stand(t, SendPrivkey, e, 0, None, Pending(ActionSucceeded),
                    log + [Moved(AwaitTxConfirmation, SendPrivkey, ActionFailed)] + [BuiltPrivkeyMessage]);
    var labels :| Run(w, s0, labels) == s6;
  }

  /** A world in which all that happens. */
  function PlainWorld(): World {
    World((p: Bytes) => Some(Invoice(seq(32, _ => 0), 1_000_000, 9)),
          (k: Bytes) => seq(33, _ => 2),
          (b: Bytes) => seq(32, _ => 0),
          (script: seq<Script.Op>) => [],
          (hex: Bytes) => Some([Output([], 1000)]),
          (out: Output, k: Bytes) => None,
          (scid: string) => true)
  }

  lemma PlainWorldIsSmooth(o: Outcome)
    requires o.sent && o.scriptOk && o.probeOk && o.feePayment.Some? && o.height == Some(100) && o.spent.None?
    requires o.flatFee == Some(1000) && o.spendable == Some(2_000_000) && o.ticks == [Tick(Some(100), Some([7]))]
    ensures var w := PlainWorld();
            Smooth(w, [1], Request(PROTOCOL_VERSION, "mainnet", [], "1x1x1", 1000, w.pub([1]), 0),
                   Agreement(PROTOCOL_VERSION, w.pub([2]), [3], 0), Opening([4], seq(32, _ => 0), 0, []), [5], [7], o)
  {
    var w := PlainWorld();
    var r, b := Request(PROTOCOL_VERSION, "mainnet", [], "1x1x1", 1000, w.pub([1]), 0),
      Agreement(PROTOCOL_VERSION, w.pub([2]), [3], 0);
    var d := Asked(SwapOutSender, [1], r).(swapOutAgreement := Some(b));
    assert ValidRequest(w, r);
    assert Msat(1000) == 1_000_000 && (1_000_000 + 1_000_000) % TWO_64 == 2_000_000;
    assert CheckPremium(d).Passed? && d.GetChain().Btc?;
    assert MayPayFee(w, d, o);
    var c := Contract(r, b, seq(32, _ => 0));
    var outs := [Output([], 1000)];
    assert First(outs, SearchKey(w, Btc, c)) == Some(0) by { assert SearchKey(w, Btc, c)(outs[0]); }
    assert ValidateTx(w, Btc, c, [5]);
    assert (1000 + 0) % TWO_64 == 1000;
  }
}
