/** Two cooperative peers complete a swap, in either direction and on either chain: there are runs
    of both machines in which each hears only the other, nobody crashes, the maker is paid and the
    taker claims the funded output with the preimage. */
module Completion {
  import opened Base
  import opened Timelock
  import opened SwapData
  import opened OnChain
  import opened States
  import opened Actions
  import opened Effects
  import opened Fsm
  import opened Presence
  import opened Exchange
  import opened Peers
  import opened Witnesses
  import Sending
  import Exact
  import Receipts
  import Keys

  // ------------------------------------------------------------------ walking

  /** Reached by a machine of this table that hears only what is in the peer's log, without a
      crash. */
  ghost predicate Comes(w: World, t: Table, peer: seq<Entry>, s0: Sys, s: Sys) {
    CrashFree(s.log) && exists labels :: Run(w, s0, labels) == s && HearsOnly(t, labels, peer)
  }

  lemma ComesNext(w: World, t: Table, peer: seq<Entry>, s0: Sys, s: Sys, l: Label)
    requires Comes(w, t, peer, s0, s) && FromPeer(t, l, peer) && CrashFree(Apply(w, s, l).log)
    ensures Comes(w, t, peer, s0, Apply(w, s, l))
  {
    hide CrashFree, FromPeer;
    var labels :| Run(w, s0, labels) == s && HearsOnly(t, labels, peer);
    var more := labels + [l];
    assert more[..|more| - 1] == labels;
    assert Run(w, s0, more) == Apply(w, s, l);
    hide Apply, Run;
  }

  /** One round: the edge is taken, its action runs and is stored. */
  lemma Goes(w: World, t: Table, peer: seq<Entry>, s0: Sys, s: Sys, o: Outcome, n: State, x: Exec)
    requires Comes(w, t, peer, s0, s) && s.phase.Pending? && Next(s.table, s.current, s.phase.event) == Some(n)
    requires x.Ran? && Execute(w, s.table, n, s.data, s.sender, |s.log|, o) == x
    ensures var go := Onward(x.event, s.retries);
            Comes(w, t, peer, s0, Stand(s.table, n, x.data, go.1, x.sender, go.0,
                                        s.log + [Moved(s.current, n, s.phase.event)] + x.log))
  {
    hide Next, Execute, Comes, Run, CrashFree;
    var m := Move(s, n, x);
    MoveIsQuiet(w, s, n, x, o);
    assert ApplyDispatch(w, s, o) == m;
    assert CrashFree(s.log) by { StaysCrashFree(w, t, peer, s0, s); }
    ComesNext(w, t, peer, s0, s, Dispatch(o));
    ComesNext(w, t, peer, s0, m, Persist);
  }

  lemma StaysCrashFree(w: World, t: Table, peer: seq<Entry>, s0: Sys, s: Sys)
    requires Comes(w, t, peer, s0, s)
    ensures CrashFree(s.log)
  {
  }

  lemma MoveIsQuiet(w: World, s: Sys, n: State, x: Exec, o: Outcome)
    requires s.phase.Pending? && Next(s.table, s.current, s.phase.event) == Some(n)
    requires x.Ran? && Execute(w, s.table, n, s.data, s.sender, |s.log|, o) == x
    ensures CrashFree(s.log) ==> CrashFree(Move(s, n, x).log)
  {
    hide Next, Execute, SenderEffect, Keeps, Returns;
    NoEdgeToDefault(s.table, s.current, s.phase.event);
    ExecuteSummary(w, s.table, n, s.data, s.sender, |s.log|, o);
  }

  /** A message or notification is delivered. */
  lemma Listens(w: World, t: Table, peer: seq<Entry>, s0: Sys, s: Sys, i: Input)
    requires Comes(w, t, peer, s0, s) && FromPeer(t, Deliver(i), peer)
    requires s.phase.Idle? && s.stored.Some? && ValidInput(s.data, i) && ApplyInput(s.data, i).Some?
    ensures Comes(w, t, peer, s0, Stand(s.table, s.current, ApplyInput(s.data, i).value, s.retries, s.sender,
                                        Pending(EventOf(i)), s.log + InputLog(i)))
  {
    var r := ApplyDeliver(s, i);
    assert CrashFree(r.log);
    hide Comes, ValidInput, ApplyInput, EventOf, InputLog, FromPeer, Run;
    ComesNext(w, t, peer, s0, s, Deliver(i));
  }

  lemma Begins(w: World, t: Table, peer: seq<Entry>, key: Bytes, r: Request)
    requires ValidRequest(w, r) && (Sending.Initiates(t) ==> r.pubkey == w.pub(key)) && FromPeer(t, Start(r), peer)
    ensures Comes(w, t, peer, New(t, key),
                  Stand(t, Default, WithRequest(t, NewData(key), r), 0, None, Pending(OnStarted), []))
  {
    var s0 := New(t, key);
    assert Run(w, s0, []) == s0;
    hide Run;
    assert HearsOnly(t, [], peer);
    assert Comes(w, t, peer, s0, s0);
    assert ApplyStart(w, s0, r)
           == Stand(t, Default, WithRequest(t, NewData(key), r), 0, None, Pending(OnStarted), []);
    hide Comes;
    ComesNext(w, t, peer, s0, s0, Start(r));
  }

  // ---------------------------------------------------------------- the maker

  /** A valid request of the current version, on either chain. */
  predicate Fit(w: World, r: Request) { ValidRequest(w, r) && r.version == PROTOCOL_VERSION }

  function ChainOf(r: Request): Chain { if r.asset != [] then Lbtc else Btc }

  lemma FitChain(w: World, r: Request, d: Data)
    requires Fit(w, r) && d.GetRequest() == Some(r)
    ensures d.GetChain() == ChainOf(r) && d.GetProtocolVersion() == 7 && IsLiquidV7(d) == ChainOf(r).Lbtc?
    ensures d.GetPolicy() == PolicyFor(ChainOf(r), 7) && d.AllowsNewPayment()
  {
    RequestChain(w, d, r);
  }

  /** A maker's data before the opening transaction. */
  predicate MakerHas(t: Table, key: Bytes, r: Request, a: Agreement, blind: Bytes, d: Data) {
    && OwnRequest(t, d) == Some(r) && OtherRequest(t, d).None? && OwnAgreement(t, d) == Some(a)
    && d.openingTxBroadcasted.None? && d.claimTxId == [] && d.claimPaymentHash == []
    && d.blindingKey == blind && d.privkey == key
  }

  /** The opening message that comes of it. */
  function MessageOf(r: Request, blind: Bytes, o: Outcome): Opening
    requires Willing(o)
  {
    Opening(o.payreq.value, o.funded.value.txid, o.funded.value.vout, if ChainOf(r).Lbtc? then blind else [])
  }

  lemma MakerOpens(w: World, t: Table, key: Bytes, r: Request, a: Agreement, blind: Bytes, d: Data, id: nat, o: Outcome)
    requires IsMaker(t) && Fit(w, r) && MakerHas(t, key, r, a, blind, d) && a.premium <= r.premiumLimit
    requires Willing(o) && o.height.Some? && (ChainOf(r).Lbtc? ==> blind != [])
    ensures var x := Execute(w, t, BroadcastOpeningTx, d, None, id, o);
            && x.Ran? && x.event.ActionSucceeded? && x.sender.None?
            && x.data.openingTxBroadcasted == Some(MessageOf(r, blind, o))
            && x.data.nextMessage == Some(OpeningMessage(MessageOf(r, blind, o)))
            && x.data.AmountsKnown() && x.data.GetPolicy().Some?
  {
    FitChain(w, r, d);
    Exact.OpeningExactly(w, d, o, None);
    Exact.PremiumCheckExactly(d);
    hide Fit, OpenSwap, ChainOf;
    var x := Broadcast(w, t, d, o, None);
    assert x == OpenSwap(w, d, o, None) && d.AmountsKnown();
    hide Broadcast;
  }

  lemma MakerPath(t: Table)
    requires IsMaker(t)
    ensures Next(t, BroadcastOpeningTx, ActionSucceeded) == Some(SendTxBroadcastedMessage)
    ensures Next(t, SendTxBroadcastedMessage, ActionSucceeded) == Some(AwaitClaimPayment)
    ensures Next(t, AwaitClaimPayment, OnClaimInvoicePaid) == Some(ClaimedPreimage)
  {
  }

  /** From the event that lets it open the swap, a maker opens, announces, waits and is paid. */
  lemma MakerFinishes(w: World, t: Table, peer: seq<Entry>, s0: Sys, c: State, e: Event, key: Bytes, r: Request,
                      a: Agreement, blind: Bytes, d: Data, log: seq<Entry>, o: Outcome)
    returns (end: Sys)
    requires Comes(w, t, peer, s0, Stand(t, c, d, 0, None, Pending(e), log))
    requires Next(t, c, e) == Some(BroadcastOpeningTx)
    requires IsMaker(t) && Fit(w, r) && MakerHas(t, key, r, a, blind, d) && a.premium <= r.premiumLimit
    requires Willing(o) && o.height.Some? && o.scriptOk && (ChainOf(r).Lbtc? ==> blind != [])
    ensures Comes(w, t, peer, s0, end) && end.current.ClaimedPreimage? && end.phase.Idle? && log <= end.log
    ensures Sent(OpeningMessage(MessageOf(r, blind, o))) in end.log
  {
    hide Comes, Execute, Next, Fit, MakerHas, ChainOf, Willing, MessageOf;
    MakerOpens(w, t, key, r, a, blind, d, |log|, o);
    MakerPath(t);
    var x := Execute(w, t, BroadcastOpeningTx, d, None, |log|, o);
    Goes(w, t, peer, s0, Stand(t, c, d, 0, None, Pending(e), log), o, BroadcastOpeningTx, x);
    var d1, l1 := x.data, log + [Moved(c, BroadcastOpeningTx, e)] + x.log;
    var id, sent := |l1|, [Registered(|l1|), Sent(x.data.nextMessage.value)];
    var l2 := l1 + [Moved(BroadcastOpeningTx, SendTxBroadcastedMessage, ActionSucceeded)] + sent;
    AnnouncingRuns(w, t, d1, id, |l2|, o);
    var s1 := Stand(t, BroadcastOpeningTx, d1, 0, None, Pending(ActionSucceeded), l1);
    Goes(w, t, peer, s0, s1, o, SendTxBroadcastedMessage, Ran(d1, ActionSucceeded, sent, Some(id)));
    var s2 := Stand(t, SendTxBroadcastedMessage, d1, 0, Some(id), Pending(ActionSucceeded), l2);
    Goes(w, t, peer, s0, s2, o, AwaitClaimPayment, Ran(d1, NoOp, [], Some(id)));
    var l3 := l2 + [Moved(SendTxBroadcastedMessage, AwaitClaimPayment, ActionSucceeded)] + [];
    end := MakerIsPaid(w, t, peer, s0, d1, id, l3, o);
    assert l2[|l2| - 1] == Sent(d1.nextMessage.value) && l2 <= l3;
  }

  lemma MakerIsPaid(w: World, t: Table, peer: seq<Entry>, s0: Sys, d: Data, id: nat, log: seq<Entry>, o: Outcome)
    returns (end: Sys)
    requires IsMaker(t) && Comes(w, t, peer, s0, Stand(t, AwaitClaimPayment, d, 0, Some(id), Idle, log))
    ensures Comes(w, t, peer, s0, end) && end.current.ClaimedPreimage? && end.phase.Idle? && log <= end.log
  {
    hide Comes, Execute, Next;
    Listens(w, t, peer, s0, Stand(t, AwaitClaimPayment, d, 0, Some(id), Idle, log), ClaimInvoicePaid);
    assert log + InputLog(ClaimInvoicePaid) == log;
    var s := Stand(t, AwaitClaimPayment, d, 0, Some(id), Pending(OnClaimInvoicePaid), log);
    MakerPath(t);
    Receipts.FinishingRuns(w, t, d, Some(id), |log|, o);
    Goes(w, t, peer, s0, s, o, ClaimedPreimage, Ran(d, Done, StopLog(Some(id)), None));
    end := Stand(t, ClaimedPreimage, d, 0, None, Idle,
                 log + [Moved(AwaitClaimPayment, ClaimedPreimage, OnClaimInvoicePaid)] + StopLog(Some(id)));
  }

  // ------------------------------------------------------- the four beginnings

  lemma StartPath(t: Table)
    ensures Next(t, Default, OnStarted) == Some(CreateSwap)
    ensures Sending.Initiates(t) ==>
            && Next(t, CreateSwap, ActionSucceeded) == Some(SendRequest)
            && Next(t, SendRequest, ActionSucceeded) == Some(AwaitAgreement)
    ensures t.SwapInSender? ==> Next(t, AwaitAgreement, OnAgreementReceived) == Some(BroadcastOpeningTx)
    ensures t.SwapOutSender? ==>
            && Next(t, AwaitAgreement, OnFeeInvoiceReceived) == Some(PayFeeInvoice)
            && Next(t, PayFeeInvoice, ActionSucceeded) == Some(AwaitTxBroadcastedMessage)
    ensures t.SwapOutReceiver? ==>
            && Next(t, CreateSwap, ActionSucceeded) == Some(SendFeeInvoice)
            && Next(t, SendFeeInvoice, ActionSucceeded) == Some(AwaitFeeInvoicePayment)
            && Next(t, AwaitFeeInvoicePayment, OnFeeInvoicePaid) == Some(BroadcastOpeningTx)
    ensures t.SwapInReceiver? ==>
            && Next(t, CreateSwap, ActionSucceeded) == Some(SendAgreement)
            && Next(t, SendAgreement, ActionSucceeded) == Some(AwaitTxBroadcastedMessage)
  {
  }

  /** Creation, the first message, and the state after it. */
  lemma Opens(w: World, t: Table, peer: seq<Entry>, key: Bytes, r: Request, n: State, x: Exec, o: Outcome)
    returns (log: seq<Entry>)
    requires Fit(w, r) && (Sending.Initiates(t) ==> r.pubkey == w.pub(key)) && FromPeer(t, Start(r), peer) && o.sent
    requires x == Execute(w, t, CreateSwap, WithRequest(t, NewData(key), r), None, 0, o)
    requires x.Ran? && x.event.ActionSucceeded? && x.sender.None? && x.data.nextMessage.Some?
    requires Sending.Sends(n) && Next(t, CreateSwap, ActionSucceeded) == Some(n)
    ensures Comes(w, t, peer, New(t, key), Stand(t, n, x.data, 0, None, Pending(ActionSucceeded), log))
    ensures Sent(x.data.nextMessage.value) in log
  {
    Begins(w, t, peer, key, r);
    hide Comes, Execute, Next, Fit, FromPeer, WithRequest;
    StartPath(t);
    var s0, d0, d := New(t, key), WithRequest(t, NewData(key), r), x.data;
    Goes(w, t, peer, s0, Stand(t, Default, d0, 0, None, Pending(OnStarted), []), o, CreateSwap, x);
    var l1 := [] + [Moved(Default, CreateSwap, OnStarted)] + x.log;
    Sending.SendingRuns(w, t, n, d, None, |l1|, o);
    Exact.SendingExactly(d, o, None, |l1|);
    assert !n.SendTxBroadcastedMessage? by { Sending.SendingEdges(t, CreateSwap, ActionSucceeded); }
    var s1 := Stand(t, CreateSwap, d, 0, None, Pending(ActionSucceeded), l1);
    Goes(w, t, peer, s0, s1, o, n, Ran(d, ActionSucceeded, [Sent(d.nextMessage.value)], None));
    log := l1 + [Moved(CreateSwap, n, ActionSucceeded)] + [Sent(d.nextMessage.value)];
    assert log[|log| - 1] == Sent(d.nextMessage.value);
  }

  function BlindOf(r: Request, o: Outcome): Bytes {
    if ChainOf(r).Lbtc? && o.newKey.Some? then o.newKey.value else []
  }

  lemma SwapInMakerCreates(w: World, key: Bytes, r: Request, a: Agreement, o: Outcome)
    requires Fit(w, r) && (ChainOf(r).Lbtc? ==> o.newKey.Some? && o.height.Some?)
    ensures var x := Execute(w, SwapInSender, CreateSwap, WithRequest(SwapInSender, NewData(key), r), None, 0, o);
            && x.Ran? && x.event.ActionSucceeded? && x.sender.None?
            && x.data.nextMessage == Some(RequestMessage(r)) && x.data.swapInAgreement.None?
            && MakerHas(SwapInSender, key, r, a, BlindOf(r, o), x.data.(swapInAgreement := Some(a)))
  {
    var d := WithRequest(SwapInSender, NewData(key), r);
    FitChain(w, r, d);
    hide PayFee, Broadcast, SendWithRetry, RefundAction, TakerAction, PlainAction, Fit;
    var b := WithBlindingKey(d, o).value;
    FitChain(w, r, b);
    hide Data.GetChain, Data.GetPolicy, Data.GetProtocolVersion, IsLiquidV7;
  }

  lemma RestsThere(w: World, t: Table, c: State, d: Data, id: nat, o: Outcome)
    requires c.AwaitAgreement? || (c.AwaitFeeInvoicePayment? && d.swapOutAgreement.Some?)
    ensures Execute(w, t, c, d, None, id, o) == Ran(d, NoOp, [], None)
  {
    hide Create, PayFee, Broadcast, SendWithRetry, RefundAction, TakerAction;
  }

  /** The swap-in sender, up to the agreement. */
  lemma SwapInMakerBegins(w: World, peer: seq<Entry>, key: Bytes, r: Request, a: Agreement, o: Outcome)
    returns (d: Data, log: seq<Entry>)
    requires Fit(w, r) && r.pubkey == w.pub(key) && o.sent && (ChainOf(r).Lbtc? ==> o.newKey.Some? && o.height.Some?)
    requires |a.pubkey| == 33 && Sent(AgreementMessage(a)) in peer
    ensures Comes(w, SwapInSender, peer, New(SwapInSender, key),
                  Stand(SwapInSender, AwaitAgreement, d, 0, None, Pending(OnAgreementReceived), log))
    ensures MakerHas(SwapInSender, key, r, a, BlindOf(r, o), d) && Sent(RequestMessage(r)) in log
  {
    hide Comes, Execute, Next, Fit, MakerHas, ChainOf, BlindOf, WithRequest;
    var t, s0 := SwapInSender, New(SwapInSender, key);
    var x := Execute(w, t, CreateSwap, WithRequest(t, NewData(key), r), None, 0, o);
    SwapInMakerCreates(w, key, r, a, o);
    StartPath(t);
    var l2 := Opens(w, t, peer, key, r, SendRequest, x, o);
    var s2 := Stand(t, SendRequest, x.data, 0, None, Pending(ActionSucceeded), l2);
    RestsThere(w, t, AwaitAgreement, x.data, |l2|, o);
    Goes(w, t, peer, s0, s2, o, AwaitAgreement, Ran(x.data, NoOp, [], None));
    var l3 := l2 + [Moved(SendRequest, AwaitAgreement, ActionSucceeded)] + [];
    Listens(w, t, peer, s0, Stand(t, AwaitAgreement, x.data, 0, None, Idle, l3), SwapInAgreementReceived(a));
    d, log := x.data.(swapInAgreement := Some(a)), l3;
    assert l3 + InputLog(SwapInAgreementReceived(a)) == l3;
  }

  /** What the responder of a swap-out needs to agree. */
  predicate CanAgree(r: Request, o: Outcome) {
    && o.requestAllowed && (ChainOf(r).Lbtc? ==> o.newKey.Some?)
    && o.flatFee.Some? && o.balance.Some? && (r.amount + o.flatFee.value) % TWO_64 <= o.balance.value
    && o.preimage.Some? && o.payreq.Some? && o.premium.Some?
  }

  function SwapOutAgreement(w: World, key: Bytes, o: Outcome): Agreement
    requires o.payreq.Some? && o.premium.Some?
  {
    Agreement(PROTOCOL_VERSION, w.pub(key), o.payreq.value, o.premium.value)
  }

  lemma SwapOutMakerCreates(w: World, key: Bytes, r: Request, o: Outcome)
    requires Fit(w, r) && CanAgree(r, o)
    ensures var x := Execute(w, SwapOutReceiver, CreateSwap, WithRequest(SwapOutReceiver, NewData(key), r), None, 0, o);
            && x.Ran? && x.event.ActionSucceeded? && x.sender.None?
            && x.data.nextMessage == Some(AgreementMessage(SwapOutAgreement(w, key, o)))
            && x.data.swapOutAgreement.Some?
            && MakerHas(SwapOutReceiver, key, r, SwapOutAgreement(w, key, o), BlindOf(r, o), x.data)
  {
    var d := WithRequest(SwapOutReceiver, NewData(key), r);
    FitChain(w, r, d);
    hide PayFee, Broadcast, SendWithRetry, RefundAction, TakerAction, PlainAction, Fit;
    hide Data.GetChain, Data.GetPolicy, Data.GetProtocolVersion, IsLiquidV7;
  }

  /** The swap-out receiver, up to the payment of its fee invoice. */
  lemma SwapOutMakerBegins(w: World, peer: seq<Entry>, key: Bytes, r: Request, o: Outcome)
    returns (d: Data, log: seq<Entry>)
    requires Fit(w, r) && CanAgree(r, o) && o.sent && Sent(RequestMessage(r)) in peer
    ensures Comes(w, SwapOutReceiver, peer, New(SwapOutReceiver, key),
                  Stand(SwapOutReceiver, AwaitFeeInvoicePayment, d, 0, None, Pending(OnFeeInvoicePaid), log))
    ensures MakerHas(SwapOutReceiver, key, r, SwapOutAgreement(w, key, o), BlindOf(r, o), d)
    ensures Sent(AgreementMessage(SwapOutAgreement(w, key, o))) in log
  {
    hide Comes, Execute, Next, Fit, MakerHas, ChainOf, BlindOf, WithRequest;
    var t, s0 := SwapOutReceiver, New(SwapOutReceiver, key);
    var x := Execute(w, t, CreateSwap, WithRequest(t, NewData(key), r), None, 0, o);
    SwapOutMakerCreates(w, key, r, o);
    StartPath(t);
    var l2 := Opens(w, t, peer, key, r, SendFeeInvoice, x, o);
    var s2 := Stand(t, SendFeeInvoice, x.data, 0, None, Pending(ActionSucceeded), l2);
    RestsThere(w, t, AwaitFeeInvoicePayment, x.data, |l2|, o);
    Goes(w, t, peer, s0, s2, o, AwaitFeeInvoicePayment, Ran(x.data, NoOp, [], None));
    d, log := x.data, l2 + [Moved(SendFeeInvoice, AwaitFeeInvoicePayment, ActionSucceeded)] + [];
    Listens(w, t, peer, s0, Stand(t, AwaitFeeInvoicePayment, d, 0, None, Idle, log), FeeInvoicePaid);
    assert log + InputLog(FeeInvoicePaid) == log;
  }

  // ---------------------------------------------------------------- the taker

  /** A taker's data before the opening message. */
  predicate TakerHas(t: Table, r: Request, a: Agreement, d: Data) {
    && OwnRequest(t, d) == Some(r) && OtherRequest(t, d).None? && OwnAgreement(t, d) == Some(a)
    && d.openingTxBroadcasted.None? && d.claimTxId == [] && d.claimPaymentHash == [] && d.claimPreimage == []
    && d.blindingKey == []
  }

  /** The anchor of a v7 Liquid swap was read at its creation; a Bitcoin swap has none yet. */
  predicate AnchoredAt(r: Request, h: u32, d: Data) {
    if ChainOf(r).Lbtc? then d.startingBlockHeight == h && d.startingBlockHeightSet else d.startingBlockHeight == 0
  }

  /** What the peers agreed on, for the payment hash and blinding key of an opening message. */
  function ContractOf(w: World, t: Table, r: Request, a: Agreement, hash: Bytes, blind: Bytes): OpeningParams
    requires Fit(w, r)
  {
    var csv := PolicyFor(ChainOf(r), PROTOCOL_VERSION).value.csv;
    if IsSwapIn(t) then OpeningParams(a.pubkey, r.pubkey, hash, (r.amount + a.premium) % TWO_64, csv, blind)
    else OpeningParams(r.pubkey, a.pubkey, hash, r.amount, csv, blind)
  }

  function ClaimAmountOf(t: Table, r: Request, a: Agreement): u64 {
    if IsSwapIn(t) then r.amount else (r.amount + a.premium) % TWO_64
  }

  /** The opening message is well formed, its invoice asks for the claim amount, and the raw
      transaction has the agreed output. */
  predicate GoodOpening(w: World, t: Table, r: Request, a: Agreement, m: Opening, hex: Bytes) {
    && Fit(w, r) && |m.txid| == 32 && (if ChainOf(r).Lbtc? then |m.blindingKey| == 32 else m.blindingKey == [])
    && w.decode(m.payreq).Some?
    && var invoice := w.decode(m.payreq).value;
       && InvoiceAcceptable(ChainOf(r), PolicyFor(ChainOf(r), PROTOCOL_VERSION).value, invoice, ClaimAmountOf(t, r, a))
       && ValidateTx(w, ChainOf(r), ContractOf(w, t, r, a, invoice.hash, m.blindingKey), hex)
  }

  /** Some payment succeeds within the window, and all before it are made and fail. */
  ghost predicate Timely(h: u32, ticks: seq<Tick>, p: Bytes) {
    exists k :: PaysInTime(h, ticks, k, p)
  }

  predicate PaysInTime(h: u32, ticks: seq<Tick>, k: nat, p: Bytes) {
    && k < |ticks| && ticks[k].preimage == Some(p)
    && (forall i :: 0 <= i <= k ==> ticks[i].height.Some? && h <= ticks[i].height.value < h + 60)
    && (forall i :: 0 <= i < k ==> ticks[i].preimage.None?)
  }

  lemma TakerWaits(w: World, t: Table, r: Request, a: Agreement, h: u32, d: Data, id: nat, o: Outcome)
    requires Fit(w, r) && TakerHas(t, r, a, d) && AnchoredAt(r, h, d) && o.height == Some(h)
    ensures Execute(w, t, AwaitTxBroadcastedMessage, d, None, id, o)
            == Ran(d.(startingBlockHeight := h), NoOp, [], None)
  {
    FitChain(w, r, d);
    Exact.StartingHeightExactly(d, o, None);
    hide Fit, SetStartingHeight, Create, PayFee, Broadcast, SendWithRetry, RefundAction, PlainAction;
    hide Data.GetChain, Data.GetPolicy, Data.GetProtocolVersion, IsLiquidV7;
  }

  /** The data once the opening message is bound to the swap. */
  predicate TakerBound(w: World, t: Table, r: Request, a: Agreement, h: u32, m: Opening, d: Data) {
    && TakerHas(t, r, a, d.(openingTxBroadcasted := None, claimPaymentHash := [])) && d.openingTxBroadcasted == Some(m)
    && w.decode(m.payreq).Some? && d.claimPaymentHash == w.decode(m.payreq).value.hash
    && d.startingBlockHeight == h && (ChainOf(r).Lbtc? ==> d.startingBlockHeightSet)
  }

  /** The getters of bound data give the contract. */
  lemma BoundContract(w: World, t: Table, r: Request, a: Agreement, h: u32, m: Opening, d: Data, hex: Bytes)
    requires GoodOpening(w, t, r, a, m, hex) && TakerBound(w, t, r, a, h, m, d)
    ensures d.AmountsKnown() && d.GetClaimAmount() == ClaimAmountOf(t, r, a)
    ensures d.GetOpeningParams(w) == ContractOf(w, t, r, a, d.claimPaymentHash, m.blindingKey)
    ensures d.GetChain() == ChainOf(r) && d.GetPolicy() == PolicyFor(ChainOf(r), 7) && d.AllowsNewPayment()
  {
    FitChain(w, r, d);
    hide ValidateTx, InvoiceAcceptable;
  }

  lemma TakerConfirms(w: World, t: Table, r: Request, a: Agreement, h: u32, m: Opening, hex: Bytes, d: Data, id: nat,
                      o: Outcome)
    requires !IsMaker(t) && GoodOpening(w, t, r, a, m, hex) && TakerHas(t, r, a, d)
    requires d.startingBlockHeight == h && (ChainOf(r).Lbtc? ==> d.startingBlockHeightSet)
    requires o.height == Some(h) && 0 < h < 0x1000_0000 && o.scriptOk
    ensures var e := d.(openingTxBroadcasted := Some(m));
            var f := e.(claimPaymentHash := w.decode(m.payreq).value.hash);
            && Execute(w, t, AwaitTxConfirmation, e, None, id, o) == Ran(f, NoOp, [], None)
            && TakerBound(w, t, r, a, h, m, f)
  {
    var e := d.(openingTxBroadcasted := Some(m));
    var f := e.(claimPaymentHash := w.decode(m.payreq).value.hash);
    assert TakerBound(w, t, r, a, h, m, f);
    TakerAccepts(w, t, r, a, h, m, hex, e, o);
    hide AwaitConfirmation, Create, PayFee, Broadcast, SendWithRetry, RefundAction, PlainAction, GoodOpening, TakerHas;
  }

  lemma TakerAccepts(w: World, t: Table, r: Request, a: Agreement, h: u32, m: Opening, hex: Bytes, e: Data, o: Outcome)
    requires GoodOpening(w, t, r, a, m, hex) && o.height == Some(h) && 0 < h < 0x1000_0000 && o.scriptOk
    requires TakerBound(w, t, r, a, h, m, e.(claimPaymentHash := w.decode(m.payreq).value.hash))
    ensures var f := e.(claimPaymentHash := w.decode(m.payreq).value.hash);
            AwaitConfirmation(w, e, o, None) == Ran(f, NoOp, [], None)
  {
    var f := e.(claimPaymentHash := w.decode(m.payreq).value.hash);
    BoundContract(w, t, r, a, h, m, f, hex);
    assert e.GetChain() == f.GetChain() && e.GetPolicy() == f.GetPolicy() && e.AmountsKnown()
           && e.GetClaimAmount() == f.GetClaimAmount() && e.AllowsNewPayment();
    Exact.ConfirmationExactly(w, e, o, None);
    hide AwaitConfirmation, ValidateTx, InvoiceAcceptable, TakerHas, Data.GetClaimAmount, Data.GetPolicy, PolicyFor,
      Data.GetChain, Data.AmountsKnown, ContractOf;
  }

  lemma TakerPays(w: World, t: Table, r: Request, a: Agreement, h: u32, m: Opening, hex: Bytes, p: Bytes, d: Data,
                  id: nat, o: Outcome)
    requires GoodOpening(w, t, r, a, m, hex) && TakerBound(w, t, r, a, h, m, d) && d.openingTxHex == hex
    requires Timely(h, o.ticks, p) && h < 0x1000_0000
    ensures var x := Execute(w, t, ValidateTxAndPayClaimInvoice, d, None, id, o);
            && x.Ran? && x.event.ActionSucceeded? && x.sender.None? && x.data == d.(claimPreimage := p)
            && Keys.Paid(x.log)
  {
    hide ValidateAndPay, Create, PayFee, Broadcast, SendWithRetry, RefundAction, PlainAction, ContractOf,
      Timely, Exact.Pays, PayRounds, Data.GetOpeningParams, Data.GetChain, Data.GetPolicy, PolicyFor, ValidateTx,
      InvoiceAcceptable, TakerHas;
    BoundContract(w, t, r, a, h, m, d, hex);
    TimelyPays(d, h, o.ticks, p);
    PayingRuns(w, d, p, o);
  }

  lemma PayingRuns(w: World, d: Data, p: Bytes, o: Outcome)
    requires d.AmountsKnown() && d.openingTxBroadcasted.Some? && d.AllowsNewPayment()
    requires ValidateTx(w, d.GetChain(), d.GetOpeningParams(w), d.openingTxHex)
    requires Exact.Pays(d, d.GetPolicy().value, o.ticks, p)
    ensures var x := ValidateAndPay(w, d, o, None);
            x.Ran? && x.event.ActionSucceeded? && x.sender.None? && x.data == d.(claimPreimage := p) && Keys.Paid(x.log)
  {
    hide PayRounds, ValidateTx, Exact.Pays, Data.GetOpeningParams;
    Exact.PayRoundsExactly(w, d, d.GetPolicy().value, o.ticks);
    var x := ValidateAndPay(w, d, o, None);
    assert Keys.IsPaid(x.log[|x.log| - 1]);
  }

  lemma TimelyPays(d: Data, h: u32, ticks: seq<Tick>, p: Bytes)
    requires Timely(h, ticks, p) && d.AllowsNewPayment() && d.startingBlockHeight == h && h < 0x1000_0000
    requires !d.GetChain().Unknown? && (d.GetChain().Lbtc? ==> d.startingBlockHeightSet)
    ensures Exact.Pays(d, d.GetPolicy().value, ticks, p)
  {
    var k :| PaysInTime(h, ticks, k, p);
    var policy := d.GetPolicy().value;
    forall i | 0 <= i <= k ensures Exact.Allowed(d, policy, ticks[i]) {
      Exact.MayPayExactly(d, ticks[i].height.value);
    }
    hide Exact.Allowed;
    assert Exact.PaysAt(d, policy, ticks, k, p);
  }

  lemma TakerClaims(w: World, t: Table, r: Request, a: Agreement, h: u32, m: Opening, hex: Bytes, p: Bytes, d: Data,
                    id: nat, o: Outcome)
    requires GoodOpening(w, t, r, a, m, hex) && TakerBound(w, t, r, a, h, m, d) && d.openingTxHex == hex
    requires o.spent.Some?
    ensures var e := d.(claimPreimage := p);
            var params := ContractOf(w, t, r, a, d.claimPaymentHash, m.blindingKey);
            Execute(w, t, ClaimSwap, e, None, id, o)
            == Ran(e.(claimTxId := o.spent.value), ActionSucceeded,
                   [Spent(ByPreimage, params, hex, p, o.spent.value)], None)
  {
    var e := d.(claimPreimage := p);
    BoundContract(w, t, r, a, h, m, d, hex);
    assert e.GetOpeningParams(w) == d.GetOpeningParams(w) && e.GetChain() == d.GetChain() && e.AmountsKnown()
      by { ClaimSees(w, d, p); }
    ValidatedIsSpendable(w, d.GetChain(), d.GetOpeningParams(w), hex);
    Exact.ClaimExactly(w, ByPreimage, e, o, None);
    hide GoodOpening, ValidateTx, Spendable, Create, PayFee, Broadcast, SendWithRetry, RefundAction, PlainAction,
      SetStartingHeight, AwaitConfirmation, ValidateAndPay, Claim, Data.GetOpeningParams, Data.GetChain, ContractOf;
  }

  lemma ClaimSees(w: World, d: Data, p: Bytes)
    requires d.AmountsKnown() && d.claimPaymentHash != []
    ensures var e := d.(claimPreimage := p);
            e.AmountsKnown() && e.GetOpeningParams(w) == d.GetOpeningParams(w) && e.GetChain() == d.GetChain()
  {
  }

  lemma TakerPath(t: Table)
    requires !IsMaker(t)
    ensures Next(t, AwaitTxBroadcastedMessage, OnTxOpenedMessage) == Some(AwaitTxConfirmation)
    ensures Next(t, AwaitTxConfirmation, OnTxConfirmed) == Some(ValidateTxAndPayClaimInvoice)
    ensures Next(t, ValidateTxAndPayClaimInvoice, ActionSucceeded) == Some(ClaimSwap)
    ensures Next(t, ClaimSwap, ActionSucceeded) == Some(ClaimedPreimage)
  {
  }

  /** The services a taker needs from the opening message on. */
  ghost predicate Able(h: u32, p: Bytes, o: Outcome) {
    o.height == Some(h) && 0 < h < 0x1000_0000 && o.scriptOk && Timely(h, o.ticks, p) && o.spent.Some?
  }

  lemma HearsOpening(w: World, t: Table, r: Request, a: Agreement, m: Opening, hex: Bytes, d: Data)
    requires GoodOpening(w, t, r, a, m, hex) && TakerHas(t, r, a, d)
    ensures ValidInput(d, OpeningReceived(m))
    ensures ApplyInput(d, OpeningReceived(m)) == Some(d.(openingTxBroadcasted := Some(m)))
  {
    FitChain(w, r, d);
    hide ValidateTx, InvoiceAcceptable;
  }

  /** From its last message on, a taker waits for the opening and binds it to the swap. */
  lemma TakerBinds(w: World, t: Table, peer: seq<Entry>, s0: Sys, c: State, r: Request, a: Agreement, h: u32,
                   m: Opening, hex: Bytes, p: Bytes, d: Data, log: seq<Entry>, o: Outcome)
    returns (f: Data, more: seq<Entry>)
    requires Comes(w, t, peer, s0, Stand(t, c, d, 0, None, Pending(ActionSucceeded), log)) && !IsMaker(t)
    requires Next(t, c, ActionSucceeded) == Some(AwaitTxBroadcastedMessage)
    requires GoodOpening(w, t, r, a, m, hex) && TakerHas(t, r, a, d) && AnchoredAt(r, h, d) && Able(h, p, o)
    requires Sent(OpeningMessage(m)) in peer
    ensures Comes(w, t, peer, s0, Stand(t, AwaitTxConfirmation, f, 0, None, Idle, log + more))
    ensures TakerBound(w, t, r, a, h, m, f)
  {
    hide Comes, Execute, Next, Fit, ChainOf, TakerBound, Timely, ValidateTx, InvoiceAcceptable, ContractOf, ApplyInput,
      ValidInput;
    TakerWaits(w, t, r, a, h, d, |log|, o);
    var d1 := d.(startingBlockHeight := h);
    Goes(w, t, peer, s0, Stand(t, c, d, 0, None, Pending(ActionSucceeded), log), o, AwaitTxBroadcastedMessage,
         Ran(d1, NoOp, [], None));
    var l1 := log + [Moved(c, AwaitTxBroadcastedMessage, ActionSucceeded)] + [];
    HearsOpening(w, t, r, a, m, hex, d1);
    Listens(w, t, peer, s0, Stand(t, AwaitTxBroadcastedMessage, d1, 0, None, Idle, l1), OpeningReceived(m));
    var e, l2 := d1.(openingTxBroadcasted := Some(m)), l1 + [OpeningHeard(m)];
    TakerConfirms(w, t, r, a, h, m, hex, d1, |l2|, o);
    TakerPath(t);
    f := e.(claimPaymentHash := w.decode(m.payreq).value.hash);
    Goes(w, t, peer, s0, Stand(t, AwaitTxBroadcastedMessage, e, 0, None, Pending(OnTxOpenedMessage), l2), o,
         AwaitTxConfirmation, Ran(f, NoOp, [], None));
    more := [Moved(c, AwaitTxBroadcastedMessage, ActionSucceeded), OpeningHeard(m),
             Moved(AwaitTxBroadcastedMessage, AwaitTxConfirmation, OnTxOpenedMessage)];
    assert l2 + [Moved(AwaitTxBroadcastedMessage, AwaitTxConfirmation, OnTxOpenedMessage)] + [] == log + more;
  }

  /** Once the opening transaction is confirmed, the taker pays, claims and is done. */
  lemma TakerSettles(w: World, t: Table, peer: seq<Entry>, s0: Sys, r: Request, a: Agreement, h: u32, m: Opening,
                     hex: Bytes, p: Bytes, d: Data, log: seq<Entry>, o: Outcome)
    returns (end: Sys)
    requires Comes(w, t, peer, s0, Stand(t, AwaitTxConfirmation, d, 0, None, Idle, log)) && !IsMaker(t)
    requires GoodOpening(w, t, r, a, m, hex) && TakerBound(w, t, r, a, h, m, d) && Able(h, p, o)
    ensures Comes(w, t, peer, s0, end) && end.current.ClaimedPreimage? && end.phase.Idle? && log <= end.log
    ensures var params := ContractOf(w, t, r, a, d.claimPaymentHash, m.blindingKey);
            Spent(ByPreimage, params, hex, p, o.spent.value) in end.log
  {
    hide Comes, Execute, Next, GoodOpening, TakerBound, Timely, ContractOf;
    Listens(w, t, peer, s0, Stand(t, AwaitTxConfirmation, d, 0, None, Idle, log), TxConfirmed(hex));
    var d1, l1 := d.(openingTxHex := hex), log + [HexDelivered(hex)];
    RawKeeps(w, t, r, a, h, m, hex, d);
    TakerPays(w, t, r, a, h, m, hex, p, d1, |l1|, o);
    TakerPath(t);
    var x := Execute(w, t, ValidateTxAndPayClaimInvoice, d1, None, |l1|, o);
    Goes(w, t, peer, s0, Stand(t, AwaitTxConfirmation, d1, 0, None, Pending(OnTxConfirmed), l1), o,
         ValidateTxAndPayClaimInvoice, x);
    var d2, l2 := d1.(claimPreimage := p),
      l1 + [Moved(AwaitTxConfirmation, ValidateTxAndPayClaimInvoice, OnTxConfirmed)] + x.log;
    TakerClaims(w, t, r, a, h, m, hex, p, d1, |l2|, o);
    var d3, spent := d2.(claimTxId := o.spent.value),
      Spent(ByPreimage, ContractOf(w, t, r, a, d.claimPaymentHash, m.blindingKey), hex, p, o.spent.value);
    Goes(w, t, peer, s0, Stand(t, ValidateTxAndPayClaimInvoice, d2, 0, None, Pending(ActionSucceeded), l2), o,
         ClaimSwap, Ran(d3, ActionSucceeded, [spent], None));
    var l3 := l2 + [Moved(ValidateTxAndPayClaimInvoice, ClaimSwap, ActionSucceeded)] + [spent];
    Receipts.FinishingRuns(w, t, d3, None, |l3|, o);
    Goes(w, t, peer, s0, Stand(t, ClaimSwap, d3, 0, None, Pending(ActionSucceeded), l3), o, ClaimedPreimage,
         Ran(d3, Done, StopLog(None), None));
    end := Stand(t, ClaimedPreimage, d3, 0, None, Idle,
                 l3 + [Moved(ClaimSwap, ClaimedPreimage, ActionSucceeded)] + StopLog(None));
    assert end.log[|l3| - 1] == spent;
  }

  lemma RawKeeps(w: World, t: Table, r: Request, a: Agreement, h: u32, m: Opening, hex: Bytes, d: Data)
    requires GoodOpening(w, t, r, a, m, hex) && TakerBound(w, t, r, a, h, m, d)
    ensures TakerBound(w, t, r, a, h, m, d.(openingTxHex := hex)) && Fit(w, r)
  {
    hide ValidateTx, InvoiceAcceptable;
  }

  /** What the responder of a swap-in agrees to. */
  function SwapInAgreement(w: World, key: Bytes, o: Outcome): Agreement
    requires o.premium.Some?
  {
    Agreement(PROTOCOL_VERSION, w.pub(key), [], o.premium.value)
  }

  lemma SwapInTakerCreates(w: World, key: Bytes, r: Request, h: u32, o: Outcome)
    requires Fit(w, r) && o.requestAllowed && o.premium.Some? && o.height == Some(h)
    ensures var x := Execute(w, SwapInReceiver, CreateSwap, WithRequest(SwapInReceiver, NewData(key), r), None, 0, o);
            && x.Ran? && x.event.ActionSucceeded? && x.sender.None?
            && x.data.nextMessage == Some(AgreementMessage(SwapInAgreement(w, key, o)))
            && TakerHas(SwapInReceiver, r, SwapInAgreement(w, key, o), x.data) && AnchoredAt(r, h, x.data)
  {
    var d := WithRequest(SwapInReceiver, NewData(key), r);
    FitChain(w, r, d);
    hide PayFee, Broadcast, SendWithRetry, RefundAction, TakerAction, PlainAction, Fit;
    hide Data.GetChain, Data.GetPolicy, Data.GetProtocolVersion, IsLiquidV7;
  }

  lemma SwapOutTakerCreates(w: World, key: Bytes, r: Request, b: Agreement, h: u32, o: Outcome)
    requires Fit(w, r) && o.height == Some(h)
    ensures var x := Execute(w, SwapOutSender, CreateSwap, WithRequest(SwapOutSender, NewData(key), r), None, 0, o);
            && x.Ran? && x.event.ActionSucceeded? && x.sender.None?
            && x.data.nextMessage == Some(RequestMessage(r)) && x.data.swapOutAgreement.None?
            && x.data.swapInAgreement.None? && AnchoredAt(r, h, x.data)
            && TakerHas(SwapOutSender, r, b, x.data.(swapOutAgreement := Some(b)))
  {
    var d := WithRequest(SwapOutSender, NewData(key), r);
    FitChain(w, r, d);
    hide PayFee, Broadcast, SendWithRetry, RefundAction, TakerAction, PlainAction, Fit;
    hide Data.GetChain, Data.GetPolicy, Data.GetProtocolVersion, IsLiquidV7;
  }

  /** The fee invoice is acceptable to the initiator of a swap-out and can be paid. */
  predicate FeePayable(w: World, r: Request, b: Agreement, o: Outcome) {
    && b.premium <= r.premiumLimit && w.decode(b.payreq).Some? && o.feePayment.Some?
    && var fee := w.decode(b.payreq).value.amountMsat;
       && o.spendable.Some? && o.probeOk && o.flatFee.Some?
       && o.spendable.value >= (Msat(r.amount) + fee) % TWO_64 && fee / 1000 <= 3 * o.flatFee.value
  }

  lemma SwapOutTakerPaysFee(w: World, r: Request, b: Agreement, h: u32, d: Data, id: nat, o: Outcome)
    requires Fit(w, r) && TakerHas(SwapOutSender, r, b, d) && d.swapInAgreement.None? && AnchoredAt(r, h, d)
    requires FeePayable(w, r, b, o)
    ensures var x := Execute(w, SwapOutSender, PayFeeInvoice, d, None, id, o);
            && x.Ran? && x.event.ActionSucceeded? && x.sender.None?
            && TakerHas(SwapOutSender, r, b, x.data) && AnchoredAt(r, h, x.data)
  {
    FitChain(w, r, d);
    assert MayPayFee(w, d, o) by { hide Fit; Exact.PremiumCheckExactly(d); }
    Exact.FeeExactly(w, d, o, None);
    hide PayFee, Create, Broadcast, SendWithRetry, RefundAction, TakerAction, PlainAction, Fit, MayPayFee;
  }

  // ------------------------------------------------------------ main results

  /** There are runs of both peers, each hearing only the other and free of crashes, after which
      both are done: the maker was paid, and the taker spent this output with this preimage. */
  ghost predicate Completes(w: World, tm: Table, makerKey: Bytes, takerKey: Bytes, params: OpeningParams, hex: Bytes,
                            p: Bytes, txid: TxId)
  {
    exists makerRun, takerRun ::
      var m, t := Run(w, New(tm, makerKey), makerRun), Run(w, New(PeerOf(tm), takerKey), takerRun);
      && HearsOnly(tm, makerRun, t.log) && HearsOnly(PeerOf(tm), takerRun, m.log)
      && CrashFree(m.log) && CrashFree(t.log) && Claimed(m) && Claimed(t)
      && Spent(ByPreimage, params, hex, p, txid) in t.log
  }

  predicate Claimed(s: Sys) { s.current.ClaimedPreimage? && s.phase.Idle? }

  lemma HearsMore(t: Table, labels: seq<Label>, few: seq<Entry>, log: seq<Entry>)
    requires HearsOnly(t, labels, few) && forall e :: e in few ==> e in log
    ensures HearsOnly(t, labels, log)
  {
    forall l | l in labels ensures FromPeer(t, l, log) {
      assert FromPeer(t, l, few);
    }
  }

  lemma BothDone(w: World, tm: Table, makerKey: Bytes, takerKey: Bytes, fromTaker: seq<Entry>, fromMaker: seq<Entry>,
                 m: Sys, t: Sys, params: OpeningParams, hex: Bytes, p: Bytes, txid: TxId)
    requires Comes(w, tm, fromTaker, New(tm, makerKey), m) && Claimed(m)
    requires Comes(w, PeerOf(tm), fromMaker, New(PeerOf(tm), takerKey), t) && Claimed(t)
    requires (forall e :: e in fromTaker ==> e in t.log) && (forall e :: e in fromMaker ==> e in m.log)
    requires Spent(ByPreimage, params, hex, p, txid) in t.log
    ensures Completes(w, tm, makerKey, takerKey, params, hex, p, txid)
  {
    hide Run, CrashFree, HearsOnly;
    var makerRun :| Run(w, New(tm, makerKey), makerRun) == m && HearsOnly(tm, makerRun, fromTaker);
    var takerRun :| Run(w, New(PeerOf(tm), takerKey), takerRun) == t && HearsOnly(PeerOf(tm), takerRun, fromMaker);
    HearsMore(tm, makerRun, fromTaker, t.log);
    HearsMore(PeerOf(tm), takerRun, fromMaker, m.log);
  }

  lemma Extends(log: seq<Entry>, all: seq<Entry>, e: Entry)
    requires log <= all && e in log
    ensures e in all
  {
    var i :| 0 <= i < |log| && log[i] == e;
    assert all[i] == e;
  }

  lemma OpeningFits(w: World, t: Table, r: Request, a: Agreement, m: Opening, hex: Bytes)
    requires GoodOpening(w, t, r, a, m, hex)
    ensures Fit(w, r) && w.decode(m.payreq).Some?
  {
    hide Fit, ValidateTx, InvoiceAcceptable;
  }

  /** The contract a good opening is checked against. */
  function Settled(w: World, t: Table, r: Request, a: Agreement, m: Opening): OpeningParams
    requires Fit(w, r) && w.decode(m.payreq).Some?
  {
    ContractOf(w, t, r, a, w.decode(m.payreq).value.hash, m.blindingKey)
  }

  lemma BoundHash(w: World, t: Table, r: Request, a: Agreement, h: u32, m: Opening, d: Data)
    requires TakerBound(w, t, r, a, h, m, d)
    ensures w.decode(m.payreq).Some? && d.claimPaymentHash == w.decode(m.payreq).value.hash
  {
  }

  lemma SwapInMakerCompletes(w: World, key: Bytes, r: Request, a: Agreement, mc: Outcome, mo: Outcome)
    returns (end: Sys)
    requires Fit(w, r) && r.pubkey == w.pub(key) && |a.pubkey| == 33 && a.premium <= r.premiumLimit
    requires mc.sent && (ChainOf(r).Lbtc? ==> mc.newKey.Some? && mc.height.Some?)
    requires Willing(mo) && mo.height.Some? && mo.scriptOk
    ensures Comes(w, SwapInSender, [Sent(AgreementMessage(a))], New(SwapInSender, key), end) && Claimed(end)
    ensures Sent(RequestMessage(r)) in end.log
    ensures Sent(OpeningMessage(MessageOf(r, BlindOf(r, mc), mo))) in end.log
  {
    hide Comes, Next, Fit, MakerHas, Willing, MessageOf;
    StartPath(SwapInSender);
    var t, peer := SwapInSender, [Sent(AgreementMessage(a))];
    var d, log := SwapInMakerBegins(w, peer, key, r, a, mc);
    end := MakerFinishes(w, t, peer, New(t, key), AwaitAgreement, OnAgreementReceived, key, r, a, BlindOf(r, mc), d,
                         log, mo);
    Extends(log, end.log, Sent(RequestMessage(r)));
  }

  lemma TakerCompletes(w: World, t: Table, peer: seq<Entry>, s0: Sys, c: State, r: Request, a: Agreement, h: u32,
                       m: Opening, hex: Bytes, p: Bytes, d: Data, log: seq<Entry>, o: Outcome)
    returns (end: Sys)
    requires Comes(w, t, peer, s0, Stand(t, c, d, 0, None, Pending(ActionSucceeded), log)) && !IsMaker(t)
    requires Next(t, c, ActionSucceeded) == Some(AwaitTxBroadcastedMessage)
    requires GoodOpening(w, t, r, a, m, hex) && TakerHas(t, r, a, d) && AnchoredAt(r, h, d) && Able(h, p, o)
    requires Sent(OpeningMessage(m)) in peer
    ensures Comes(w, t, peer, s0, end) && Claimed(end) && log <= end.log
    ensures Fit(w, r) && w.decode(m.payreq).Some?
    ensures Spent(ByPreimage, Settled(w, t, r, a, m), hex, p, o.spent.value) in end.log
  {
    OpeningFits(w, t, r, a, m, hex);
    hide Comes, Next, Fit, GoodOpening, TakerBound, TakerHas, AnchoredAt, Timely, ContractOf;
    var f, more := TakerBinds(w, t, peer, s0, c, r, a, h, m, hex, p, d, log, o);
    BoundHash(w, t, r, a, h, m, f);
    end := TakerSettles(w, t, peer, s0, r, a, h, m, hex, p, f, log + more, o);
  }

  lemma SwapInTakerCompletes(w: World, key: Bytes, r: Request, h: u32, m: Opening, hex: Bytes, p: Bytes, o: Outcome)
    returns (end: Sys)
    requires o.sent && o.requestAllowed && o.premium.Some? && Able(h, p, o)
    requires GoodOpening(w, SwapInReceiver, r, SwapInAgreement(w, key, o), m, hex)
    ensures Comes(w, SwapInReceiver, [Sent(RequestMessage(r)), Sent(OpeningMessage(m))], New(SwapInReceiver, key), end)
    ensures Claimed(end) && Sent(AgreementMessage(SwapInAgreement(w, key, o))) in end.log
    ensures Fit(w, r) && w.decode(m.payreq).Some?
    ensures Spent(ByPreimage, Settled(w, SwapInReceiver, r, SwapInAgreement(w, key, o), m), hex, p, o.spent.value)
            in end.log
  {
    OpeningFits(w, SwapInReceiver, r, SwapInAgreement(w, key, o), m, hex);
    hide Comes, Next, Fit, GoodOpening, TakerHas, AnchoredAt, Timely, ContractOf, Execute, WithRequest;
    var t, a, peer := SwapInReceiver, SwapInAgreement(w, key, o), [Sent(RequestMessage(r)), Sent(OpeningMessage(m))];
    StartPath(t);
    SwapInTakerCreates(w, key, r, h, o);
    var x := Execute(w, t, CreateSwap, WithRequest(t, NewData(key), r), None, 0, o);
    var log := Opens(w, t, peer, key, r, SendAgreement, x, o);
    end := TakerCompletes(w, t, peer, New(t, key), SendAgreement, r, a, h, m, hex, p, x.data, log, o);
    Extends(log, end.log, Sent(AgreementMessage(a)));
  }

  /** A swap-in completes on either chain: a valid request, an agreement within the premium limit,
      services that answer, an opening transaction with the agreed output, an invoice for the claim
      amount, and one payment attempt that succeeds in time are enough. */
  lemma SwapInCompletes(w: World, makerKey: Bytes, takerKey: Bytes, r: Request, h: u32, mc: Outcome, mo: Outcome,
                        p: Bytes, ot: Outcome)
    requires Fit(w, r) && r.pubkey == w.pub(makerKey) && |w.pub(takerKey)| == 33
    requires mc.sent && (ChainOf(r).Lbtc? ==> mc.newKey.Some? && mc.height.Some?)
    requires Willing(mo) && mo.height.Some? && mo.scriptOk
    requires ot.sent && ot.requestAllowed && ot.premium.Some? && ot.premium.value <= r.premiumLimit && Able(h, p, ot)
    requires GoodOpening(w, SwapInReceiver, r, SwapInAgreement(w, takerKey, ot), MessageOf(r, BlindOf(r, mc), mo),
                         mo.funded.value.txHex)
    ensures w.decode(mo.payreq.value).Some?
    ensures Completes(w, SwapInSender, makerKey, takerKey,
                      Settled(w, SwapInReceiver, r, SwapInAgreement(w, takerKey, ot), MessageOf(r, BlindOf(r, mc), mo)),
                      mo.funded.value.txHex, p, ot.spent.value)
  {
    hide Comes, Completes, Fit, GoodOpening, Timely, ContractOf, BlindOf, Settled;
    var a, m, hex := SwapInAgreement(w, takerKey, ot), MessageOf(r, BlindOf(r, mc), mo), mo.funded.value.txHex;
    var fromTaker, fromMaker := [Sent(AgreementMessage(a))], [Sent(RequestMessage(r)), Sent(OpeningMessage(m))];
    var endm := SwapInMakerCompletes(w, makerKey, r, a, mc, mo);
    var endt := SwapInTakerCompletes(w, takerKey, r, h, m, hex, p, ot);
    BothDone(w, SwapInSender, makerKey, takerKey, fromTaker, fromMaker, endm, endt,
             Settled(w, SwapInReceiver, r, a, m), hex, p, ot.spent.value);
  }

  /** The initiator of a swap-out, up to the payment of the fee. */
  lemma SwapOutTakerBegins(w: World, peer: seq<Entry>, key: Bytes, r: Request, b: Agreement, h: u32, o: Outcome)
    returns (d: Data, log: seq<Entry>)
    requires Fit(w, r) && r.pubkey == w.pub(key) && o.sent && o.height == Some(h) && FeePayable(w, r, b, o)
    requires |b.pubkey| == 33 && Sent(AgreementMessage(b)) in peer
    ensures Comes(w, SwapOutSender, peer, New(SwapOutSender, key),
                  Stand(SwapOutSender, PayFeeInvoice, d, 0, None, Pending(ActionSucceeded), log))
    ensures TakerHas(SwapOutSender, r, b, d) && AnchoredAt(r, h, d) && Sent(RequestMessage(r)) in log
  {
    hide Comes, Execute, Next, Fit, TakerHas, AnchoredAt, FeePayable, WithRequest;
    var t, s0 := SwapOutSender, New(SwapOutSender, key);
    var x := Execute(w, t, CreateSwap, WithRequest(t, NewData(key), r), None, 0, o);
    SwapOutTakerCreates(w, key, r, b, h, o);
    StartPath(t);
    var l2 := Opens(w, t, peer, key, r, SendRequest, x, o);
    RestsThere(w, t, AwaitAgreement, x.data, |l2|, o);
    Goes(w, t, peer, s0, Stand(t, SendRequest, x.data, 0, None, Pending(ActionSucceeded), l2), o, AwaitAgreement,
         Ran(x.data, NoOp, [], None));
    var l3 := l2 + [Moved(SendRequest, AwaitAgreement, ActionSucceeded)] + [];
    Listens(w, t, peer, s0, Stand(t, AwaitAgreement, x.data, 0, None, Idle, l3), SwapOutAgreementReceived(b));
    assert l3 + InputLog(SwapOutAgreementReceived(b)) == l3;
    var e := x.data.(swapOutAgreement := Some(b));
    assert AnchoredAt(r, h, e) by { AnchorKept(r, h, x.data, b); }
    SwapOutTakerPaysFee(w, r, b, h, e, |l3|, o);
    var y := Execute(w, t, PayFeeInvoice, e, None, |l3|, o);
    Goes(w, t, peer, s0, Stand(t, AwaitAgreement, e, 0, None, Pending(OnFeeInvoiceReceived), l3), o, PayFeeInvoice, y);
    d, log := y.data, l3 + [Moved(AwaitAgreement, PayFeeInvoice, OnFeeInvoiceReceived)] + y.log;
    Extends(l2, log, Sent(RequestMessage(r)));
  }

  lemma AnchorKept(r: Request, h: u32, d: Data, b: Agreement)
    requires AnchoredAt(r, h, d)
    ensures AnchoredAt(r, h, d.(swapOutAgreement := Some(b)))
  {
  }

  lemma SwapOutMakerCompletes(w: World, key: Bytes, r: Request, mc: Outcome, mo: Outcome) returns (end: Sys)
    requires Fit(w, r) && mc.sent && CanAgree(r, mc) && mc.premium.value <= r.premiumLimit
    requires Willing(mo) && mo.height.Some? && mo.scriptOk
    ensures Comes(w, SwapOutReceiver, [Sent(RequestMessage(r))], New(SwapOutReceiver, key), end) && Claimed(end)
    ensures Sent(AgreementMessage(SwapOutAgreement(w, key, mc))) in end.log
    ensures Sent(OpeningMessage(MessageOf(r, BlindOf(r, mc), mo))) in end.log
  {
    hide Comes, Next, Fit, MakerHas, Willing, MessageOf;
    StartPath(SwapOutReceiver);
    var t, b, peer := SwapOutReceiver, SwapOutAgreement(w, key, mc), [Sent(RequestMessage(r))];
    var d, log := SwapOutMakerBegins(w, peer, key, r, mc);
    end := MakerFinishes(w, t, peer, New(t, key), AwaitFeeInvoicePayment, OnFeeInvoicePaid, key, r, b, BlindOf(r, mc),
                         d, log, mo);
    Extends(log, end.log, Sent(AgreementMessage(b)));
  }

  lemma SwapOutTakerCompletes(w: World, key: Bytes, r: Request, b: Agreement, h: u32, m: Opening, hex: Bytes, p: Bytes,
                              o: Outcome)
    returns (end: Sys)
    requires r.pubkey == w.pub(key) && |b.pubkey| == 33 && o.sent && Able(h, p, o) && FeePayable(w, r, b, o)
    requires GoodOpening(w, SwapOutSender, r, b, m, hex)
    ensures Comes(w, SwapOutSender, [Sent(AgreementMessage(b)), Sent(OpeningMessage(m))], New(SwapOutSender, key), end)
    ensures Claimed(end) && Sent(RequestMessage(r)) in end.log
    ensures Fit(w, r) && w.decode(m.payreq).Some?
    ensures Spent(ByPreimage, Settled(w, SwapOutSender, r, b, m), hex, p, o.spent.value) in end.log
  {
    OpeningFits(w, SwapOutSender, r, b, m, hex);
    hide Comes, Next, Fit, GoodOpening, TakerHas, AnchoredAt, Timely, ContractOf, FeePayable;
    var t, peer := SwapOutSender, [Sent(AgreementMessage(b)), Sent(OpeningMessage(m))];
    StartPath(t);
    var d, log := SwapOutTakerBegins(w, peer, key, r, b, h, o);
    end := TakerCompletes(w, t, peer, New(t, key), PayFeeInvoice, r, b, h, m, hex, p, d, log, o);
    Extends(log, end.log, Sent(RequestMessage(r)));
  }

  /** A swap-out completes on either chain; besides, its fee invoice is paid first. */
  lemma SwapOutCompletes(w: World, makerKey: Bytes, takerKey: Bytes, r: Request, h: u32, mc: Outcome, mo: Outcome,
                         p: Bytes, ot: Outcome)
    requires Fit(w, r) && r.pubkey == w.pub(takerKey) && |w.pub(makerKey)| == 33
    requires mc.sent && CanAgree(r, mc) && mc.premium.value <= r.premiumLimit
    requires Willing(mo) && mo.height.Some? && mo.scriptOk
    requires ot.sent && Able(h, p, ot) && FeePayable(w, r, SwapOutAgreement(w, makerKey, mc), ot)
    requires GoodOpening(w, SwapOutSender, r, SwapOutAgreement(w, makerKey, mc), MessageOf(r, BlindOf(r, mc), mo),
                         mo.funded.value.txHex)
    ensures w.decode(mo.payreq.value).Some?
    ensures Completes(w, SwapOutReceiver, makerKey, takerKey,
                      Settled(w, SwapOutSender, r, SwapOutAgreement(w, makerKey, mc), MessageOf(r, BlindOf(r, mc), mo)),
                      mo.funded.value.txHex, p, ot.spent.value)
  {
    hide Comes, Completes, Fit, GoodOpening, Timely, ContractOf, BlindOf, Settled, FeePayable;
    var b, m, hex := SwapOutAgreement(w, makerKey, mc), MessageOf(r, BlindOf(r, mc), mo), mo.funded.value.txHex;
    var fromTaker, fromMaker := [Sent(RequestMessage(r))], [Sent(AgreementMessage(b)), Sent(OpeningMessage(m))];
    var endm := SwapOutMakerCompletes(w, makerKey, r, mc, mo);
    var endt := SwapOutTakerCompletes(w, takerKey, r, b, h, m, hex, p, ot);
    BothDone(w, SwapOutReceiver, makerKey, takerKey, fromTaker, fromMaker, endm, endt,
             Settled(w, SwapOutSender, r, b, m), hex, p, ot.spent.value);
  }

  /** In the plain world an opening of 1000 satoshis at no premium is good for either direction. */
  lemma PlainOpening(t: Table, m: Opening)
    requires !IsMaker(t) && |m.txid| == 32 && m.blindingKey == []
    ensures var w := PlainWorld();
            GoodOpening(w, t, PlainRequest(), Agreement(PROTOCOL_VERSION, w.pub([]), m.payreq, 0), m, [5])
    ensures var w := PlainWorld();
            GoodOpening(w, t, PlainRequest(), Agreement(PROTOCOL_VERSION, w.pub([]), [], 0), m, [5])
  {
    var w, r := PlainWorld(), PlainRequest();
    assert Msat(1000) == 1_000_000 && (1000 + 0) % TWO_64 == 1000;
    forall fee: Bytes ensures GoodOpening(w, t, r, Agreement(PROTOCOL_VERSION, w.pub([]), fee, 0), m, [5]) {
      var c := ContractOf(w, t, r, Agreement(PROTOCOL_VERSION, w.pub([]), fee, 0), seq(32, _ => 0), []);
      var outs := [Output([], 1000)];
      assert First(outs, SearchKey(w, Btc, c)) == Some(0) by { assert SearchKey(w, Btc, c)(outs[0]); }
      assert ValidateTx(w, Btc, c, [5]);
    }
  }

  function PlainRequest(): Request {
    Request(PROTOCOL_VERSION, "mainnet", [], "1x1x1", 1000, seq(33, _ => 2), 0)
  }

  /** A world and answers that meet the conditions of both theorems. */
  lemma PlainSwapsComplete(mc: Outcome, mo: Outcome, ot: Outcome)
    requires mc.sent && mc.requestAllowed && mc.flatFee == Some(1000) && mc.balance == Some(1_000_000)
    requires mc.preimage.Some? && mc.payreq == mo.payreq && mc.premium == Some(0)
    requires Willing(mo) && mo.height.Some? && mo.scriptOk && |mo.funded.value.txid| == 32
    requires mo.funded.value.txHex == [5]
    requires ot.sent && ot.requestAllowed && ot.premium == Some(0) && ot.height == Some(100) && ot.scriptOk
    requires ot.ticks == [Tick(Some(100), None), Tick(Some(101), Some([7]))] && ot.spent.Some? && ot.feePayment.Some?
    requires ot.flatFee == Some(1000) && ot.spendable == Some(2_000_000) && ot.probeOk
    ensures var w, r := PlainWorld(), PlainRequest();
            var m := MessageOf(r, [], mo);
            && Fit(w, r)
            && Completes(w, SwapInSender, [1], [2], Settled(w, SwapInReceiver, r, SwapInAgreement(w, [2], ot), m), [5],
                         [7], ot.spent.value)
            && Completes(w, SwapOutReceiver, [2], [1], Settled(w, SwapOutSender, r, SwapOutAgreement(w, [2], mc), m),
                         [5], [7], ot.spent.value)
  {
    var w, r := PlainWorld(), PlainRequest();
    var m := MessageOf(r, [], mo);
    PlainOpening(SwapInReceiver, m);
    PlainOpening(SwapOutSender, m);
    assert ValidRequest(w, r);
    assert PaysInTime(100, ot.ticks, 1, [7]);
    assert (1000 + 1000) % TWO_64 == 2000;
    assert Msat(1000) == 1_000_000 && (1_000_000 + 1_000_000) % TWO_64 == 2_000_000;
    assert BlindOf(r, mc) == [];
    hide Completes, GoodOpening, Settled, Timely;
    SwapInCompletes(w, [1], [2], r, 100, mc, mo, [7], ot);
    SwapOutCompletes(w, [2], [1], r, 100, mc, mo, [7], ot);
  }
}
