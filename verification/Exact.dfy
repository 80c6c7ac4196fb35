/** Exactly when each action succeeds and exactly what it leaves behind, in terms of the swap data
    and the services' answers alone. */
module Exact {
  import opened Base
  import opened Timelock
  import opened SwapData
  import opened OnChain
  import opened States
  import opened Actions
  import opened Fsm

  // ------------------------------------------------------------ claim payment

  /** A tick at which the payment loop pays. */
  predicate Allowed(d: Data, policy: Policy, tick: Tick) {
    tick.height.Some? && MayPay(d, tick.height.value, policy)
  }

  /** The loop comes to its `k`-th tick: it paid at all earlier ones, in vain. */
  predicate ComesTo(d: Data, policy: Policy, ticks: seq<Tick>, k: nat) {
    k <= |ticks| && forall i :: 0 <= i < k ==> Allowed(d, policy, ticks[i]) && ticks[i].preimage.None?
  }

  /** Its `k`-th tick brings the preimage. */
  predicate PaysAt(d: Data, policy: Policy, ticks: seq<Tick>, k: nat, p: Bytes) {
    k < |ticks| && ComesTo(d, policy, ticks, k) && Allowed(d, policy, ticks[k]) && ticks[k].preimage == Some(p)
  }

  ghost predicate Pays(d: Data, policy: Policy, ticks: seq<Tick>, p: Bytes) {
    exists k: nat :: PaysAt(d, policy, ticks, k, p)
  }

  /** It makes `n` payments: the leading allowed ticks, up to and including the first success. */
  predicate Makes(d: Data, policy: Policy, ticks: seq<Tick>, n: nat) {
    && n <= |ticks| && (forall i :: 0 <= i < n ==> Allowed(d, policy, ticks[i]))
    && (forall i :: 0 <= i < n - 1 ==> ticks[i].preimage.None?)
    && (n == |ticks| || !Allowed(d, policy, ticks[n]) || (n > 0 && ticks[n - 1].preimage.Some?))
  }

  lemma PaysLater(d: Data, policy: Policy, ticks: seq<Tick>, p: Bytes)
    requires ticks != [] && Allowed(d, policy, ticks[0]) && ticks[0].preimage.None?
    ensures Pays(d, policy, ticks, p) <==> Pays(d, policy, ticks[1..], p)
  {
    hide Allowed;
    var rest := ticks[1..];
    assert forall i :: 0 < i < |ticks| ==> ticks[i] == rest[i - 1];
    if k: nat :| PaysAt(d, policy, ticks, k, p) {
      assert PaysAt(d, policy, rest, k - 1, p);
    }
    if k: nat :| PaysAt(d, policy, rest, k, p) {
      assert PaysAt(d, policy, ticks, k + 1, p);
    }
  }

  lemma PaysNow(d: Data, policy: Policy, ticks: seq<Tick>, p: Bytes)
    requires ticks == [] || !Allowed(d, policy, ticks[0]) || ticks[0].preimage.Some?
    ensures Pays(d, policy, ticks, p) <==>
            ticks != [] && Allowed(d, policy, ticks[0]) && ticks[0].preimage == Some(p)
  {
    hide Allowed;
    if k: nat :| PaysAt(d, policy, ticks, k, p) {
      assert k == 0;
    }
    if ticks != [] && Allowed(d, policy, ticks[0]) && ticks[0].preimage == Some(p) {
      assert PaysAt(d, policy, ticks, 0, p);
    }
  }

  /** The payment is retried: it returns a preimage if and only if some tick brings it and all
      ticks before were allowed and failed; and it makes one payment at each tick it comes to. */
  lemma {:induction false} PayRoundsExactly(w: World, d: Data, policy: Policy, ticks: seq<Tick>)
    requires d.AmountsKnown() && d.openingTxBroadcasted.Some?
    ensures var r := PayRounds(w, d, policy, ticks);
            && (forall p :: r.0 == Some(p) <==> Pays(d, policy, ticks, p))
            && Makes(d, policy, ticks, |r.1|)
            && (forall i :: 0 <= i < |r.1| ==>
                  r.1[i] == PaymentEntry(w, d, ticks[i].height.value, policy, ticks[i].preimage))
  {
    hide MayPay, PaymentEntry, Pays;
    var r := PayRounds(w, d, policy, ticks);
    if ticks != [] && Allowed(d, policy, ticks[0]) && ticks[0].preimage.None? {
      var rest := ticks[1..];
      PayRoundsExactly(w, d, policy, rest);
      var q := PayRounds(w, d, policy, rest);
      assert r.1 == [PaymentEntry(w, d, ticks[0].height.value, policy, None)] + q.1 && r.0 == q.0;
      hide PayRounds;
      forall p ensures Pays(d, policy, ticks, p) <==> Pays(d, policy, rest, p) { PaysLater(d, policy, ticks, p); }
      assert forall i :: 0 < i < |ticks| ==> ticks[i] == rest[i - 1];
      MakesLater(d, policy, ticks, |q.1|);
    } else {
      forall p ensures r.0 == Some(p) <==> Pays(d, policy, ticks, p) { PaysNow(d, policy, ticks, p); }
    }
  }

  lemma MakesLater(d: Data, policy: Policy, ticks: seq<Tick>, n: nat)
    requires ticks != [] && Allowed(d, policy, ticks[0]) && ticks[0].preimage.None? && Makes(d, policy, ticks[1..], n)
    ensures Makes(d, policy, ticks, n + 1)
  {
    hide Allowed;
    var rest := ticks[1..];
    assert forall i :: 0 < i < |ticks| ==> ticks[i] == rest[i - 1];
  }

  /** The claim invoice is paid, where the policy allows it, if and only if the transaction
      validates and some tick brings a preimage; where it does not, if and only if it validates
      and a preimage is there or recovered. */
  lemma PaymentSucceedsExactly(w: World, d: Data, o: Outcome, snd: Option<nat>)
    requires d.AmountsKnown() && d.openingTxBroadcasted.Some? && d.GetPolicy().Some?
    ensures var x := ValidateAndPay(w, d, o, snd);
            var valid := ValidateTx(w, d.GetChain(), d.GetOpeningParams(w), d.openingTxHex);
            && x.Ran?
            && (d.AllowsNewPayment() ==>
                  && (x.event.ActionSucceeded? <==> valid && exists p :: Pays(d, d.GetPolicy().value, o.ticks, p))
                  && (x.event.ActionSucceeded? ==> Pays(d, d.GetPolicy().value, o.ticks, x.data.claimPreimage))
                  && (valid ==> Makes(d, d.GetPolicy().value, o.ticks, |x.log|)))
            && (!d.AllowsNewPayment() ==>
                  (x.event.ActionSucceeded? <==> valid && (d.claimPreimage != [] || o.recovered.Some?)))
  {
    hide PayRounds, ValidateTx, Pays, Makes;
    var r := PayRounds(w, d, d.GetPolicy().value, o.ticks);
    PayRoundsExactly(w, d, d.GetPolicy().value, o.ticks);
    if r.0.Some? { assert Pays(d, d.GetPolicy().value, o.ticks, r.0.value); }
  }

  /** The heights at which the loop may pay, in numbers. */
  lemma MayPayExactly(d: Data, h: u32)
    requires d.AllowsNewPayment()
    ensures var a, policy := d.startingBlockHeight, d.GetPolicy().value;
            && (d.GetChain().Lbtc? ==> (MayPay(d, h, policy) <==> d.startingBlockHeightSet && a <= h < a + 60))
            && (d.GetChain().Btc? && a <= h ==> (MayPay(d, h, policy) <==> h <= a + 504))
            && (d.GetChain().Btc? && h < a ==> (MayPay(d, h, policy) <==> h + 0x1_0000_0000 <= a + 504))
  {
  }

  // ------------------------------------------------------------------ waiting

  /** A v7 Liquid swap is one with the policy of a week's lock. */
  lemma LiquidV7Exactly(d: Data)
    ensures IsLiquidV7(d) <==> d.GetChain().Lbtc? && d.GetProtocolVersion() == 7
    ensures IsLiquidV7(d) <==> d.GetPolicy() == Some(Policy(10080, 60, 29, 32, true))
  {
  }

  /** Waiting for the opening message goes on if and only if the height can be read and is early
      enough; the first height read is kept, and a v7 Liquid anchor is never touched. */
  lemma StartingHeightExactly(d: Data, o: Outcome, snd: Option<nat>)
    ensures var x, a := SetStartingHeight(d, o, snd), d.startingBlockHeight;
            && (x.event.NoOp? <==>
                  && !d.GetChain().Unknown? && o.height.Some?
                  && (if IsLiquidV7(d) then d.startingBlockHeightSet && a <= o.height.value < a + 60
                      else a == 0 || o.height.value < (a + (if d.GetChain().Btc? then 504 else 30)) % 0x1_0000_0000))
            && (x.data == if x.event.NoOp? && !IsLiquidV7(d) && a == 0
                          then d.(startingBlockHeight := o.height.value) else d)
  {
  }

  /** The height is one at which a taker may start to wait for the confirmation. */
  predicate EarlyEnough(d: Data, h: u32) {
    var a := d.startingBlockHeight;
    if d.GetChain().Btc? then a != 0 && h < (a + 504) % 0x1_0000_0000
    else d.startingBlockHeightSet && a <= h < a + 60
  }

  /** Waiting for the confirmation starts, where the policy allows new payments, if and only if
      the invoice decodes and is acceptable, the height is early enough and the output script is
      known; its hash is then bound. A legacy swap only picks up a payment that was already made. */
  lemma ConfirmationExactly(w: World, d: Data, o: Outcome, snd: Option<nat>)
    requires d.AmountsKnown() && d.openingTxBroadcasted.Some?
    ensures var x, invoice := AwaitConfirmation(w, d, o, snd), w.decode(d.openingTxBroadcasted.value.payreq);
            && x.Ran?
            && (d.AllowsNewPayment() ==>
                  (x.event.NoOp? <==>
                     && invoice.Some?
                     && InvoiceAcceptable(d.GetChain(), d.GetPolicy().value, invoice.value, d.GetClaimAmount())
                     && o.height.Some? && EarlyEnough(d, o.height.value) && o.scriptOk))
            && (x.event.NoOp? ==> x.data == d.(claimPaymentHash := invoice.value.hash))
            && (d.GetPolicy().Some? && !d.AllowsNewPayment() ==>
                  && (x.event.OnTxConfirmed? <==> d.openingTxHex != [] && o.recovered.Some?)
                  && (x.event.OnTxConfirmed? ==> x.data == d.(claimPreimage := o.recovered.value)))
  {
    hide InvoiceAcceptable;
  }

  /** The maker waits for the payment or the lock if and only if its policy and the output script
      are known. */
  lemma WaitingExactly(d: Data, o: Outcome, snd: Option<nat>)
    requires d.AmountsKnown() && d.openingTxBroadcasted.Some?
    ensures var x := AwaitPaymentOrCsv(d, o, snd); x.Ran? && (x.event.NoOp? <==> d.GetPolicy().Some? && o.scriptOk)
    ensures var x := AwaitCsv(d, o, snd); x.Ran? && (x.event.NoOp? <==> d.GetPolicy().Some? && o.scriptOk)
  {
  }

  // ----------------------------------------------------------------- creation

  /** An initiator's creation succeeds if and only if a v7 Liquid anchor can be read. */
  lemma RequestExactly(d: Data, o: Outcome, snd: Option<nat>)
    requires d.GetRequest().Some?
    ensures var x := CreateRequest(d, o, snd);
            && (x.event.ActionSucceeded? <==> (IsLiquidV7(d) ==> o.height.Some?))
            && (x.event.ActionSucceeded? ==> x.data.nextMessage == Some(RequestMessage(d.GetRequest().value)))
            && (x.event.ActionSucceeded? && IsLiquidV7(d) ==> x.data.startingBlockHeight == o.height.value)
  {
  }

  /** A responder of a swap-in agrees if and only if the request is allowed, of the current
      version and on a known chain, and anchor and premium can be read. */
  lemma SwapInAgreementExactly(w: World, d: Data, o: Outcome, snd: Option<nat>)
    ensures var x := AgreeSwapIn(w, d, o, snd);
            var a := Agreement(7, w.pub(d.privkey), [], if o.premium.Some? then o.premium.value else 0);
            && (x.event.ActionSucceeded? <==>
                  && o.requestAllowed && !d.GetChain().Unknown? && d.GetProtocolVersion() == 7
                  && (d.GetChain().Lbtc? ==> o.height.Some?) && o.premium.Some?)
            && (x.event.ActionSucceeded? ==>
                  x.data.swapInAgreement == Some(a) && x.data.nextMessage == Some(AgreementMessage(a)))
  {
  }

  /** A responder of a swap-out agrees if and only if, besides, it has the coins: the amount and
      the expected fee, in 64 bits. */
  lemma SwapOutAgreementExactly(w: World, d: Data, o: Outcome, snd: Option<nat>)
    ensures var x := AgreeSwapOut(w, d, o, snd);
            && (x.event.ActionSucceeded? <==>
                  && o.requestAllowed && !d.GetChain().Unknown? && d.GetProtocolVersion() == 7
                  && (d.GetChain().Lbtc? ==> o.newKey.Some?)
                  && o.flatFee.Some? && o.balance.Some? && o.preimage.Some? && o.payreq.Some? && o.premium.Some?
                  && (d.GetRequest().value.amount + o.flatFee.value) % 0x1_0000_0000_0000_0000 <= o.balance.value)
            && (x.event.ActionSucceeded? ==>
                  var a := Agreement(7, w.pub(d.privkey), o.payreq.value, o.premium.value);
                  x.data.swapOutAgreement == Some(a) && x.data.nextMessage == Some(AgreementMessage(a)))
  {
  }

  /** The premium check passes if and only if the agreed premium is at most the limit. */
  lemma PremiumCheckExactly(d: Data)
    ensures d.swapInRequest.Some? && d.swapInAgreement.Some? ==>
            (CheckPremium(d).Passed? <==> d.swapInAgreement.value.premium <= d.swapInRequest.value.premiumLimit)
    ensures d.swapInAgreement.None? && d.swapOutRequest.Some? && d.swapOutAgreement.Some? ==>
            (CheckPremium(d).Passed? <==> d.swapOutAgreement.value.premium <= d.swapOutRequest.value.premiumLimit)
  {
  }

  /** The fee is paid if and only if the premium is within the limit, the invoice decodes, the channel
      holds the swap amount and the fee, the probe goes through, and the fee is at most three times
      the expected one. */
  lemma FeePaidExactly(w: World, d: Data, o: Outcome, snd: Option<nat>)
    requires d.swapInAgreement.None? && d.swapOutRequest.Some? && d.swapOutAgreement.Some? && !d.GetChain().Unknown?
    ensures var x, b := PayFee(w, d, o, snd), d.swapOutAgreement.value;
            var invoice := w.decode(b.payreq);
            && x.Ran?
            && (x.log == [FeePayment(b.payreq, o.feePayment)] <==>
                  && b.premium <= d.swapOutRequest.value.premiumLimit && invoice.Some?
                  && o.spendable.Some? && o.probeOk && o.flatFee.Some?
                  && ((d.swapOutRequest.value.amount * 1000) % 0x1_0000_0000_0000_0000 + invoice.value.amountMsat)
                     % 0x1_0000_0000_0000_0000 <= o.spendable.value
                  && invoice.value.amountMsat / 1000 <= 3 * o.flatFee.value)
            && (x.log != [FeePayment(b.payreq, o.feePayment)] ==> x.log == [] && x.event.ActionFailed?)
  {
    hide PayFee, Data.GetChain;
  }

  /** What paying the fee leaves behind. */
  lemma FeeExactly(w: World, d: Data, o: Outcome, snd: Option<nat>)
    requires MayPayFee(w, d, o) && o.feePayment.Some?
    ensures var x := PayFee(w, d, o, snd);
            && x.Ran? && x.event.ActionSucceeded?
            && x.data == d.(feePreimage := o.feePayment.value,
                            openingTxFee := w.decode(d.swapOutAgreement.value.payreq).value.amountMsat / 1000)
  {
  }

  // ------------------------------------------------------- opening and claiming

  /** A first opening succeeds if and only if every service answers and the parameters are
      known; the message it records is the one it will announce, and carries the invoice, the
      transaction and, on Liquid, the blinding key. */
  lemma OpeningExactly(w: World, d: Data, o: Outcome, snd: Option<nat>)
    requires d.AmountsKnown() && d.openingTxBroadcasted.None? && (d.GetChain().Lbtc? ==> d.blindingKey != [])
    ensures var x := OpenSwap(w, d, o, snd);
            && x.Ran?
            && (x.event.ActionSucceeded? <==>
                  && d.GetPolicy().Some? && o.preimage.Some? && o.payreq.Some? && o.funded.Some? && o.height.Some?)
            && (x.event.ActionSucceeded? ==>
                  var key := if d.GetChain().Lbtc? then d.blindingKey else [];
                  var m := Opening(o.payreq.value, o.funded.value.txid, o.funded.value.vout, key);
                  && x.data.openingTxBroadcasted == Some(m) && x.data.nextMessage == Some(OpeningMessage(m))
                  && x.data.openingTxHex == o.funded.value.txHex && x.data.claimPreimage == o.preimage.value
                  && x.data.startingBlockHeight == o.height.value)
  {
  }

  /** A claim succeeds if and only if one is on record, or the wallet is willing and the raw
      opening transaction can be spent. Only the cooperative close gives up at once. */
  lemma ClaimExactly(w: World, kind: SpendKind, d: Data, o: Outcome, snd: Option<nat>)
    requires d.AmountsKnown() && !d.GetChain().Unknown? && (kind.ByCoop? ==> d.coopClose.Some?)
    ensures var x := Claim(w, kind, d, o, snd);
            var can := Spendable(w, d.GetChain(), d.GetOpeningParams(w), d.openingTxHex);
            && x.Ran?
            && (x.event.ActionSucceeded? <==> d.claimTxId != [] || (o.spent.Some? && can))
            && (!x.event.ActionSucceeded? ==> x.event == if kind.ByCoop? then ActionFailed else OnRetry)
            && (x.data == if d.claimTxId == [] && o.spent.Some? && can then d.(claimTxId := o.spent.value) else d)
  {
    hide Spendable;
  }

  // ----------------------------------------------------------------- messages

  /** What is sent is the message that was prepared, and nothing else. */
  lemma SendingExactly(d: Data, o: Outcome, snd: Option<nat>, id: nat)
    requires d.nextMessage.Some?
    ensures SendMessage(d, o, snd)
            == Ran(d, if o.sent then ActionSucceeded else ActionFailed, [Sent(d.nextMessage.value)], snd)
    ensures snd.None? ==>
            SendWithRetry(d, snd, id)
            == Ran(d, ActionSucceeded, [Registered(id), Sent(d.nextMessage.value)], Some(id))
    ensures snd.Some? ==> SendWithRetry(d, snd, id) == Ran(d, ActionFailed, [], snd)
  {
  }

  // ------------------------------------------------------- retries and recovery

  /** An action that asks for a retry gets twenty of them; then the machine rests. */
  lemma RetriesExactly(s: Sys)
    requires s.phase == Executed(OnRetry)
    ensures ApplyPersist(s).phase.Idle? <==> s.retries >= 20
    ensures s.retries < 20 ==> ApplyPersist(s).phase == Pending(OnRetry) && ApplyPersist(s).retries == s.retries + 1
    ensures s.retries >= 20 ==> ApplyPersist(s).retries == 0
    ensures ApplyPersist(s).stored == Some(Snapshot(s.current, s.data))
  {
  }

  /** Stored swaps that are not worth going on with after a crash. */
  predicate GivenUp(t: Table, c: State) {
    || c.CreateSwap? || (t.SwapOutReceiver? && c.AwaitFeeInvoicePayment?)
    || (t.SwapOutSender? && (c.SendRequest? || c.AwaitAgreement? || c.PayFeeInvoice?))
  }

  lemma GivenUpEdges(t: Table, c: State)
    requires GivenUp(t, c)
    ensures FailOnRecover(t, c) && !IsFinished(c) && !c.Default?
    ensures Next(t, c, ActionFailed) == Some(SwapCanceled) || Next(t, c, ActionFailed) == Some(SendCancel)
    ensures Next(t, SendCancel, ActionFailed) == Next(t, SendCancel, ActionSucceeded) == Some(SwapCanceled)
  {
  }

  lemma CancelingRuns(w: World, t: Table, d: Data, snd: Option<nat>, id: nat, o: Outcome)
    ensures Execute(w, t, SendCancel, d, snd, id, o)
            == Ran(d, if o.sent then ActionSucceeded else ActionFailed, [], snd)
    ensures Execute(w, t, SwapCanceled, d, snd, id, o) == Ran(d, Done, [], snd)
  {
    hide Create, PayFee, Broadcast, SendWithRetry, RefundAction, TakerAction;
  }

  /** A crashed swap that is given up is cancelled by the restart, without any call but the cancel
      message. */
  lemma GivenUpIsCanceled(w: World, s: Sys, o: Outcome)
    requires s.phase.Down? && GivenUp(s.table, s.current)
    ensures var r := Run(w, s, [Restart(o), Dispatch(o), Persist, Dispatch(o), Persist]);
            && r.current.SwapCanceled? && r.phase.Idle? && r.data == s.data
            && r.stored == Some(Snapshot(SwapCanceled, s.data))
            && s.log <= r.log && forall i :: |s.log| <= i < |r.log| ==> r.log[i].Moved?
  {
    hide Run, Next, Execute, FailOnRecover, GivenUp;
    RunFive(w, s, Restart(o), Dispatch(o), Persist, Dispatch(o), Persist);
    GivenUpEdges(s.table, s.current);
    CancelingRuns(w, s.table, s.data, s.sender, |s.log|, o);
    CancelingRuns(w, s.table, s.data, s.sender, |s.log| + 1, o);
    var r1 := Apply(w, s, Restart(o));
    assert r1 == s.(phase := Pending(ActionFailed));
    var n := Next(s.table, s.current, ActionFailed).value;
    var r2 := Apply(w, r1, Dispatch(o));
    assert r2 == Move(r1, n, Execute(w, s.table, n, s.data, s.sender, |s.log|, o));
    var r3 := Apply(w, r2, Persist);
    assert r3.log == s.log + [Moved(s.current, n, ActionFailed)];
  }

  /** Every other unfinished swap re-runs the action of the state it was stored in. */
  lemma OtherwiseResumed(w: World, s: Sys, o: Outcome)
    requires s.phase.Down? && InTable(s.table, s.current) && !s.current.Default?
    requires !GivenUp(s.table, s.current) && !IsFinished(s.current)
    ensures var x := Execute(w, s.table, s.current, s.data, s.sender, |s.log|, o);
            Apply(w, s, Restart(o)) == if x.Ran? then Resume(s, x) else ApplyCrash(s)
  {
    hide Execute;
  }

  // ------------------------------------------------------------------- inputs

  /** The peer's message is malformed. */
  predicate Malformed(chain: Chain, i: Input) {
    match i
    case SwapInAgreementReceived(a) => |a.pubkey| != 33
    case SwapOutAgreementReceived(a) => |a.pubkey| != 33
    case OpeningReceived(m) => |m.txid| != 32 || (chain.Lbtc? && |m.blindingKey| != 32)
    case CoopCloseReceived(k) => |k| != 32
    case _ => false
  }

  /** The peer's message is there already. */
  predicate Repeated(d: Data, i: Input) {
    match i
    case SwapInAgreementReceived(_) => d.swapInAgreement.Some?
    case SwapOutAgreementReceived(_) => d.swapOutAgreement.Some?
    case OpeningReceived(_) => d.openingTxBroadcasted.Some?
    case CoopCloseReceived(_) => d.coopClose.Some?
    case _ => false
  }

  /** A malformed message changes no data and is turned into its own event; a repeated one does
      nothing at all; any other is stored before its event is looked up. */
  lemma DeliveryExactly(s: Sys, i: Input)
    requires s.phase.Idle? && s.stored == Some(Snapshot(s.current, s.data))
    ensures var r := ApplyDeliver(s, i);
            if Malformed(s.data.GetChain(), i) then r == s.(phase := Pending(OnInvalidMessage))
            else if Repeated(s.data, i) then r == s
            else && r.phase == Pending(EventOf(i)) && r.stored == Some(Snapshot(s.current, r.data))
                 && Grows(s.data, r.data)
                 && r.current == s.current && r.sender == s.sender && r.retries == s.retries
  {
  }

  /** A request starts a swap if and only if its key has 33 bytes, it names an asset of 33 bytes or
      one of the known networks but not both, and its channel id is well formed. */
  lemma StartExactly(w: World, s: Sys, r: Request)
    requires MayStart(w, s, r) && s.current.Default?
    ensures var t := ApplyStart(w, s, r);
            var networks := {"mainnet", "testnet", "testnet3", "testnet4", "signet", "regtest"};
            && t.stored == Some(Snapshot(Default, t.data))
            && (t.phase == Pending(OnStarted) <==>
                  && |r.pubkey| == 33 && w.scidOk(r.scid)
                  && ((r.asset == [] && r.network in networks) || (|r.asset| == 33 && r.network == "")))
            && (t.phase != Pending(OnStarted) ==> t.phase == Pending(OnInvalidMessage) && t.data == s.data)
  {
  }
}
