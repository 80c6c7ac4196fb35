/** What an action can do, seen from outside: the events it may return, the fields it may
    change and the calls it may log, state by state. The whole-run arguments use only this
    summary of the actions. */
module Effects {
  import opened Base
  import opened SwapData
  import opened OnChain
  import opened States
  import opened Actions

  /** The events an action can return. */
  predicate Returns(s: State, e: Event) {
    match e
    case ActionSucceeded | ActionFailed | NoOp => !IsFinished(s)
    case OnRetry => s.ClaimSwapCsv? || s.ClaimSwap?
    case OnTxConfirmed => s.AwaitTxConfirmation?
    case Done => IsFinished(s)
    case _ => false
  }

  /** The calls an action can make. */
  predicate MayLog(s: State, e: Entry) {
    match e
    case Anchored(_) => s.CreateSwap?
    case Sent(_) => s.SendRequest? || s.SendFeeInvoice? || s.SendAgreement? || s.SendCoopClose?
                    || s.SendTxBroadcastedMessage?
    case Registered(_) => s.SendTxBroadcastedMessage?
    case Stopped(_) => Stops(s)
    case Funded(_, _, _, _) => s.BroadcastOpeningTx?
    case ClaimPayment(_, _, _, _, _, _, _) => s.ValidateTxAndPayClaimInvoice?
    case FeePayment(_, _) => s.PayFeeInvoice?
    case BuiltPrivkeyMessage => s.SendPrivkey?
    case Spent(_, _, _, _, _) => Claims(s)
    case _ => false
  }

  predicate Claims(s: State) { s.ClaimSwap? || s.ClaimSwapCsv? || s.ClaimSwapCoop? }

  /** States whose action first stops a redundant sender. */
  predicate Stops(s: State) {
    || s.ClaimSwapCsv? || s.ClaimSwapCoop? || s.WaitCsv? || s.AwaitTxConfirmation?
    || s.ClaimedPreimage? || s.ClaimedCsv? || s.ClaimedCoop?
  }

  /** Which parts of the data a state's action leaves alone. */
  predicate Keeps(s: State, d: Data, e: Data) {
    && SameSwap(d, e)
    && (!s.CreateSwap? ==> SameAgreements(d, e))
    && (!s.BroadcastOpeningTx? ==>
          d.openingTxBroadcasted == e.openingTxBroadcasted && d.openingTxHex == e.openingTxHex)
    && (!Claims(s) ==> d.claimTxId == e.claimTxId)
    && (!s.AwaitTxConfirmation? ==> d.claimPaymentHash == e.claimPaymentHash)
    && (!s.BroadcastOpeningTx? && !s.AwaitTxConfirmation? && !s.ValidateTxAndPayClaimInvoice? ==>
          d.claimPreimage == e.claimPreimage)
    && (!s.CreateSwap? && !s.BroadcastOpeningTx? && !s.AwaitTxBroadcastedMessage? ==> SameAnchor(d, e))
    && (!s.CreateSwap? ==> d.blindingKey == e.blindingKey)
  }

  /** How the registered sender and the log of senders change. */
  predicate SenderEffect(s: State, snd: Option<nat>, id: nat, x: Exec)
    requires x.Ran?
  {
    if s.SendTxBroadcastedMessage? then
      if x.event.ActionSucceeded? then snd.None? && x.sender == Some(id) && Mentions(x.log, Registered(id))
      else x.sender == snd && x.log == []
    else if Stops(s) && !s.AwaitTxConfirmation? then
      x.sender.None? && (snd.Some? ==> |x.log| > 0 && x.log[0] == Stopped(snd.value)) && StopsOnce(snd, x.log)
    else (x.sender == snd || x.sender.None?) && StopsOnce(snd, x.log)
         && (x.sender != snd ==> |x.log| > 0 && x.log[0] == Stopped(snd.value))
  }

  predicate Mentions(log: seq<Entry>,
                     e: Entry) { |log| > 0 && log[0] == e && forall i :: 0 < i < |log| ==> !log[i].Registered? }

  predicate StopsOnce(snd: Option<nat>, log: seq<Entry>) {
    forall i :: 0 <= i < |log| && log[i].Stopped? ==> i == 0 && snd == Some(log[i].id)
  }

  ghost predicate Summary(s: State, d: Data, snd: Option<nat>, id: nat, x: Exec)
    requires x.Ran?
  {
    && Returns(s, x.event)
    && Keeps(s, d, x.data)
    && (forall i :: 0 <= i < |x.log| ==> MayLog(s, x.log[i]))
    && SenderEffect(s, snd, id, x)
  }

  lemma ClaimSummary(w: World, d: Data, snd: Option<nat>, id: nat, o: Outcome)
    ensures var x := Claim(w, ByPreimage, d, o, snd); x.Ran? ==> Summary(ClaimSwap, d, snd, id, x)
  {
    hide Claim;
  }

  lemma CsvClaimSummary(w: World, d: Data, snd: Option<nat>, id: nat, o: Outcome)
    ensures var x := Stopping(snd, Claim(w, ByCsv, d, o, None)); x.Ran? ==> Summary(ClaimSwapCsv, d, snd, id, x)
  {
    hide Claim, Data.GetOpeningParams, Data.AmountsKnown, Data.GetChain;
  }

  lemma CoopClaimSummary(w: World, d: Data, snd: Option<nat>, id: nat, o: Outcome)
    ensures var x := Stopping(snd, Claim(w, ByCoop, d, o, None)); x.Ran? ==> Summary(ClaimSwapCoop, d, snd, id, x)
  {
    hide Claim, Data.GetOpeningParams, Data.AmountsKnown, Data.GetChain;
  }

  lemma RefundSummary(w: World, s: State, d: Data, snd: Option<nat>, id: nat, o: Outcome)
    requires s.AwaitClaimPayment? || s.ClaimSwapCsv? || s.ClaimSwapCoop? || s.WaitCsv?
    ensures var x := RefundAction(w, s, d, snd, o); x.Ran? ==> Summary(s, d, snd, id, x)
  {
    hide AwaitPaymentOrCsv, AwaitCsv, Claim;
    if s.ClaimSwapCsv? {
      CsvClaimSummary(w, d, snd, id, o);
    } else if s.ClaimSwapCoop? {
      CoopClaimSummary(w, d, snd, id, o);
    }
  }

  lemma AwaitSummary(w: World, t: Table, s: State, d: Data, snd: Option<nat>, id: nat, o: Outcome)
    requires s.AwaitTxBroadcastedMessage? || s.AwaitTxConfirmation?
    ensures var x := TakerAction(w, t, s, d, snd, o); x.Ran? ==> Summary(s, d, snd, id, x)
  {
    hide Claim, SetStartingHeight, AwaitConfirmation, ValidateAndPay;
  }

  lemma ValidateSummary(w: World, d: Data, snd: Option<nat>, id: nat, o: Outcome)
    ensures var x := ValidateAndPay(w, d, o, snd); x.Ran? ==> Summary(ValidateTxAndPayClaimInvoice, d, snd, id, x)
  {
    hide ValidateAndPay;
  }

  lemma TakerSummary(w: World, t: Table, s: State, d: Data, snd: Option<nat>, id: nat, o: Outcome)
    requires s.AwaitTxBroadcastedMessage? || s.AwaitTxConfirmation? || s.ValidateTxAndPayClaimInvoice? || s.ClaimSwap?
    ensures var x := TakerAction(w, t, s, d, snd, o); x.Ran? ==> Summary(s, d, snd, id, x)
  {
    hide Claim, SetStartingHeight, AwaitConfirmation, ValidateAndPay;
    if s.ClaimSwap? {
      ClaimSummary(w, d, snd, id, o);
    } else if s.ValidateTxAndPayClaimInvoice? {
      ValidateSummary(w, d, snd, id, o);
    } else {
      AwaitSummary(w, t, s, d, snd, id, o);
    }
    hide Summary;
  }

  lemma FinishSummary(s: State, d: Data, snd: Option<nat>, id: nat, o: Outcome)
    requires s.SendPrivkey? || s.SendCancel? || IsFinished(s)
    ensures var x := PlainAction(s, d, snd, o); x.Ran? ==> Summary(s, d, snd, id, x)
  {
    hide SendMessage;
  }

  lemma PlainSummary(s: State, d: Data, snd: Option<nat>, id: nat, o: Outcome)
    requires || s.SendRequest? || s.SendFeeInvoice? || s.SendAgreement? || s.SendCoopClose? || s.AwaitAgreement?
             || s.AwaitFeeInvoicePayment? || s.SendPrivkey? || s.SendCancel? || IsFinished(s)
    ensures var x := PlainAction(s, d, snd, o); x.Ran? ==> Summary(s, d, snd, id, x)
  {
    hide SendMessage;
    if s.SendPrivkey? || s.SendCancel? || IsFinished(s) {
      FinishSummary(s, d, snd, id, o);
    }
  }

  lemma CreateSummary(w: World, t: Table, d: Data, snd: Option<nat>, id: nat, o: Outcome)
    ensures var x := Create(w, t, d, o, snd); x.Ran? ==> Summary(CreateSwap, d, snd, id, x)
  {
    hide CreateRequest, AgreeSwapOut, AgreeSwapIn;
  }

  lemma OpeningSummary(w: World, t: Table, s: State, d: Data, snd: Option<nat>, id: nat, o: Outcome)
    requires s.PayFeeInvoice? || s.BroadcastOpeningTx? || s.SendTxBroadcastedMessage?
    ensures var x := Execute(w, t, s, d, snd, id, o); x.Ran? ==> Summary(s, d, snd, id, x)
  {
    hide PayFee, Broadcast, SendWithRetry, RefundAction, TakerAction, PlainAction, Create;
  }

  /** Every action stays within its summary. */
  lemma ExecuteSummary(w: World, t: Table, s: State, d: Data, snd: Option<nat>, id: nat, o: Outcome)
    requires !s.Default?
    ensures var x := Execute(w, t, s, d, snd, id, o); x.Ran? ==> Summary(s, d, snd, id, x)
  {
    if s.CreateSwap? {
      CreateSummary(w, t, d, snd, id, o);
    } else if s.PayFeeInvoice? || s.BroadcastOpeningTx? || s.SendTxBroadcastedMessage? {
      OpeningSummary(w, t, s, d, snd, id, o);
    } else if s.AwaitClaimPayment? || s.ClaimSwapCsv? || s.ClaimSwapCoop? || s.WaitCsv? {
      RefundSummary(w, s, d, snd, id, o);
    } else if s.AwaitTxBroadcastedMessage? || s.AwaitTxConfirmation? || s.ValidateTxAndPayClaimInvoice?
              || s.ClaimSwap? {
      TakerSummary(w, t, s, d, snd, id, o);
    } else {
      PlainSummary(s, d, snd, id, o);
    }
    hide RefundAction, TakerAction, PlainAction, Create, PayFee, Broadcast, SendWithRetry, Summary;
  }

  // ---------------------------------------------------------------- details

  /** The claim actions: a transaction is created only while none is recorded. */
  predicate ClaimDetails(w: World, kind: SpendKind, d: Data, x: Exec)
    requires x.Ran?
  {
    && x.data == d.(claimTxId := x.data.claimTxId)
    && (x.data.claimTxId == d.claimTxId ==> forall i :: 0 <= i < |x.log| ==> !x.log[i].Spent?)
    && (x.data.claimTxId != d.claimTxId ==>
          && d.claimTxId == [] && x.data.claimTxId != [] && d.AmountsKnown() && x.log != []
          && Spendable(w, d.GetChain(), d.GetOpeningParams(w), d.openingTxHex)
          && x.log[|x.log| - 1] == Spent(kind, d.GetOpeningParams(w), d.openingTxHex, d.claimPreimage, x.data.claimTxId)
          && forall i :: 0 <= i < |x.log| - 1 ==> !x.log[i].Spent?)
  }

  predicate CreateDetails(w: World, t: Table, d: Data, x: Exec)
    requires x.Ran?
  {
    && SameClaim(d, x.data) && |x.log| <= 1
    && (x.data.blindingKey != d.blindingKey ==> IsMaker(t) && d.GetChain().Lbtc?)
    && (!t.SwapInReceiver? ==> x.data.swapInAgreement == d.swapInAgreement)
    && (!t.SwapOutReceiver? ==> x.data.swapOutAgreement == d.swapOutAgreement)
    && (x.event.ActionSucceeded? ==>
          && (t.SwapInReceiver? ==> x.data.swapInAgreement.Some?
                                    && x.data.swapInAgreement.value.pubkey == w.pub(d.privkey))
          && (t.SwapOutReceiver? ==> x.data.swapOutAgreement.Some?
                                     && x.data.swapOutAgreement.value.pubkey == w.pub(d.privkey))
          && (!t.SwapOutReceiver? ==> AnchorContract(d, x))
          && (IsMaker(t) && d.GetChain().Lbtc? ==> x.data.blindingKey != []))
  }

  predicate ConfirmationDetails(w: World, d: Data, x: Exec)
    requires x.Ran?
  {
    && x.data == d.(claimPaymentHash := x.data.claimPaymentHash, claimPreimage := x.data.claimPreimage)
    && (d.AllowsNewPayment() ==> x.data.claimPreimage == d.claimPreimage && Rests(x))
    && (x.event.NoOp? ==> InvoiceBound(w, x.data))
    && (d.AllowsNewPayment() && InvoiceBound(w, d) ==> x.data == d)
  }

  predicate PaymentDetails(w: World, d: Data, x: Exec)
    requires x.Ran?
  {
    && Reports(x)
    && x.data == d.(claimPreimage := x.data.claimPreimage)
    && (d.AllowsNewPayment() && (x.log != [] || x.event.ActionSucceeded?) ==>
          && d.AmountsKnown() && d.openingTxBroadcasted.Some?
          && ValidateTx(w, d.GetChain(), d.GetOpeningParams(w), d.openingTxHex)
          && (if x.event.ActionFailed?
              then forall i :: 0 <= i < |x.log| ==> FailedRound(w, d, d.GetPolicy().value, x.log[i])
              else |x.log| > 0 && PaidRound(w, d, d.GetPolicy().value, x.log[|x.log| - 1], x.data.claimPreimage)
                   && forall i :: 0 <= i < |x.log| - 1 ==> FailedRound(w, d, d.GetPolicy().value, x.log[i])))
    && (!d.AllowsNewPayment() ==> x.log == [])
  }

  /** The opening message is there and nothing can fail when its action runs again. */
  predicate OpeningDone(t: Table, d: Data) {
    && d.openingTxBroadcasted.Some? && !d.GetChain().Unknown?
    && (t.SwapInSender? ==> CheckPremium(d).Passed?)
  }

  /** The entry is a successful funding of the swap's parameters, under the transaction id of
      the opening message on record. */
  predicate Funds(w: World, d: Data, e: Entry) {
    && d.openingTxBroadcasted.Some? && d.AmountsKnown() && d.GetPolicy().Some?
    && d.openingTxBroadcasted.value.blindingKey == d.GetBlindingKey()
    && e.Funded? && e.usable && e.txHex != []
    && e.params == d.GetOpeningParams(w) && e.txid == d.openingTxBroadcasted.value.txid
  }

  /** The opening message on record was funded with the parameters of the swap, and the raw
      transaction on record is the funded one unless a watcher has replaced it. */
  ghost predicate FundedAs(w: World, log: seq<Entry>, d: Data) {
    exists i :: && 0 <= i < |log| && log[i].Funded? && Funds(w, d, log[i])
                && (Strayed(log) || log[i].txHex == d.openingTxHex)
  }

  /** A maker's data before the opening transaction. */
  predicate Unopened(d: Data) {
    d.openingTxBroadcasted.None? && d.claimPaymentHash == [] && (d.blindingKey != [] ==> d.GetChain().Lbtc?)
  }

  /** What the actions with the most at stake do, beyond the summary. */
  ghost predicate Details(w: World, t: Table, s: State, d: Data, snd: Option<nat>, x: Exec)
    requires x.Ran?
  {
    match s
    case CreateSwap => CreateDetails(w, t, d, x)
    case PayFeeInvoice => |x.log| <= 1
    case BroadcastOpeningTx =>
      && OpeningContract(d, snd, x)
      && (x.event.ActionSucceeded? && t.SwapInSender? ==> CheckPremium(d).Passed?)
      && (OpeningDone(t, d) ==> x.event.ActionSucceeded?)
      && (x.event.ActionSucceeded? && Unopened(d) ==> FundedAs(w, x.log, x.data))
    case ClaimSwapCsv => ClaimDetails(w, ByCsv, d, x)
    case ClaimSwapCoop => ClaimDetails(w, ByCoop, d, x) && Reports(x)
    case SendTxBroadcastedMessage => Reports(x)
    case ClaimSwap => ClaimDetails(w, ByPreimage, d, x)
    case AwaitTxBroadcastedMessage => (IsLiquidV7(d) ==> x.data == d)
    case AwaitTxConfirmation => ConfirmationDetails(w, d, x)
    case ValidateTxAndPayClaimInvoice => PaymentDetails(w, d, x)
    case SendPrivkey => x.event.ActionSucceeded? && x.log == [BuiltPrivkeyMessage]
    case _ => true
  }

  lemma RefundDetails(w: World, t: Table, s: State, d: Data, snd: Option<nat>, o: Outcome)
    requires s.ClaimSwapCsv? || s.ClaimSwapCoop?
    ensures var x := RefundAction(w, s, d, snd, o); x.Ran? ==> Details(w, t, s, d, snd, x)
  {
    hide AwaitPaymentOrCsv, AwaitCsv, Claim;
  }

  lemma TakerDetails(w: World, t: Table, s: State, d: Data, snd: Option<nat>, o: Outcome)
    requires s.AwaitTxBroadcastedMessage? || s.AwaitTxConfirmation? || s.ValidateTxAndPayClaimInvoice? || s.ClaimSwap?
    ensures var x := TakerAction(w, t, s, d, snd, o); x.Ran? ==> Details(w, t, s, d, snd, x)
  {
    hide Claim, SetStartingHeight, AwaitConfirmation, ValidateAndPay;
  }

  lemma CreationDetails(w: World, t: Table, d: Data, snd: Option<nat>, o: Outcome)
    ensures var x := Create(w, t, d, o, snd); x.Ran? ==> Details(w, t, CreateSwap, d, snd, x)
  {
    hide CreateRequest, AgreeSwapOut, AgreeSwapIn;
  }

  /** Funding records exactly the parameters the maker will compute from then on. */
  lemma OpenedParams(w: World, d: Data, o: Outcome, snd: Option<nat>)
    requires Unopened(d)
    ensures var x := OpenSwap(w, d, o, snd);
            x.Ran? && x.event.ActionSucceeded? ==> FundedAs(w, x.log, x.data)
  {
    var x := OpenSwap(w, d, o, snd);
    if x.Ran? && x.event.ActionSucceeded? {
      assert Funds(w, x.data, x.log[0]) && x.log[0].txHex == x.data.openingTxHex;
    }
  }

  lemma BroadcastDetails(w: World, t: Table, d: Data, snd: Option<nat>, o: Outcome)
    ensures var x := Broadcast(w, t, d, o, snd);
            x.Ran? && x.event.ActionSucceeded? && Unopened(d) ==> FundedAs(w, x.log, x.data)
  {
    if Unopened(d) { OpenedParams(w, d, o, snd); }
    hide OpenSwap, FundedAs;
  }

  lemma ExecuteDetails(w: World, t: Table, s: State, d: Data, snd: Option<nat>, id: nat, o: Outcome)
    requires !s.Default?
    ensures var x := Execute(w, t, s, d, snd, id, o); x.Ran? ==> Details(w, t, s, d, snd, x)
  {
    hide RefundAction, TakerAction, Create, PayFee, Broadcast, SendWithRetry;
    if s.BroadcastOpeningTx? {
      BroadcastDetails(w, t, d, snd, o);
    } else if s.CreateSwap? {
      CreationDetails(w, t, d, snd, o);
      hide Details;
    } else if s.ClaimSwapCsv? || s.ClaimSwapCoop? {
      RefundDetails(w, t, s, d, snd, o);
      hide Details;
    } else if s.AwaitTxBroadcastedMessage? || s.AwaitTxConfirmation? || s.ValidateTxAndPayClaimInvoice?
              || s.ClaimSwap? {
      TakerDetails(w, t, s, d, snd, o);
      hide Details;
    }
  }
}
