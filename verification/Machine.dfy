/** The state machine as the program runs it: one object whose fields the actions update
    step by step, driven by `SendEvent` and `Recover` (swap/fsm.go, swap/actions.go). Every
    method is proved against the transition system of module `Fsm`. */
module Machine {
  import opened Base
  import opened Timelock
  import opened SwapData
  import opened OnChain
  import opened States
  import opened Actions
  import opened Effects
  import opened Fsm
  import Progress

  datatype Error = EventRejected | MessageExists | ConfigError

  /** What a call returns, unless a nil dereference takes the process down. */
  datatype Reply = Returned(done: bool, error: Option<Error>) | Died

  /** A crash that loses nothing: memory and store agreed. */
  function QuietCrash(snap: Snapshot): Entry {
    Crashed(false, false, Reopens(snap), snap.current)
  }

  function PhaseAfter(r: Reply): Phase {
    if r.Died? then Down else Idle
  }

  /** A method did what the action `x` of the transition system does. */
  predicate Performs(x: Exec, event: Option<Event>, d: Data, snd: Option<nat>, before: seq<Entry>, after: seq<Entry>) {
    match x
    case Panic => event.None? && before <= after
    case Ran(d', e, log, snd') => event == Some(e) && d == d' && snd == snd' && after == before + log
  }

  /** `k` rounds of the event loop, the environment answering as `oracle` says. */
  function Turns(oracle: nat -> Outcome, k: nat): seq<Label> {
    if k == 0 then [] else Turns(oracle, k - 1) + [Dispatch(oracle(k - 1)), Persist]
  }

  /** The answers after the first. */
  function After(oracle: nat -> Outcome): nat -> Outcome {
    (k: nat) => oracle(k + 1)
  }

  lemma OneTurn(w: World, s: Sys, oracle: nat -> Outcome, k: nat)
    ensures Run(w, s, Turns(oracle, k + 1)) == ApplyPersist(ApplyDispatch(w, Run(w, s, Turns(oracle, k)), oracle(k)))
  {
    var a, b, c := Turns(oracle, k), Dispatch(oracle(k)), Persist;
    assert Turns(oracle, k + 1) == a + [b, c];
    assert (a + [b, c])[..|a| + 1] == a + [b] && (a + [b])[..|a|] == a;
    hide Apply, Turns;
    assert Run(w, s, a + [b]) == Apply(w, Run(w, s, a), b);
    assert Run(w, s, a + [b, c]) == Apply(w, Run(w, s, a + [b]), c);
    LabelsApply(w, Run(w, s, a), oracle(k));
  }

  lemma LabelsApply(w: World, s: Sys, o: Outcome)
    ensures Apply(w, s, Dispatch(o)) == ApplyDispatch(w, s, o)
    ensures Apply(w, ApplyDispatch(w, s, o), Persist) == ApplyPersist(ApplyDispatch(w, s, o))
  {
    hide ApplyDispatch, ApplyPersist;
  }

  class SwapStateMachine {
    const w: World
    const table: Table
    var current: State
    var data: Data
    var retries: nat
    var sender: Option<nat>
    var stored: Option<Snapshot>
    var log: seq<Entry>

    constructor (w: World, table: Table, privkey: Bytes)
      ensures this.w == w && this.table == table && Abs(Idle) == New(table, privkey)
    {
      this.w, this.table, current, data, retries, sender, stored, log :=
        w, table, Default, NewData(privkey), 0, None, None, [];
    }

    ghost function Abs(p: Phase): Sys
      reads this
    {
      Sys(table, current, data, retries, sender, stored, p, log)
    }

    /** At rest with a snapshot. */
    ghost predicate Valid()
      reads this
    {
      stored.Some? && InSync(Abs(Idle)) && InTable(table, current)
    }

    // ------------------------------------------------------------- actions

    /** `setLiquidPaymentWindowAnchor`. */
    method SetPaymentWindowAnchor(o: Outcome) returns (ok: bool)
      modifies this`data, this`log
      ensures ok == WithAnchor(old(data), o).Some?
      ensures data == if ok then WithAnchor(old(data), o).value else old(data)
      ensures log == old(log) + AnchorLog(old(data), o)
    {
      if !IsLiquidV7(data) {
        return true;
      }
      if o.height.None? {
        return false;
      }
      log := log + [Anchored(o.height.value)];
      data := data.(startingBlockHeight := o.height.value);
      data := data.(startingBlockHeightSet := true);
      return true;
    }

    method SetBlindingKey(o: Outcome) returns (ok: bool)
      modifies this`data
      ensures ok == WithBlindingKey(old(data), o).Some?
      ensures data == if ok then WithBlindingKey(old(data), o).value else old(data)
    {
      if data.GetChain().Lbtc? {
        if o.newKey.None? {
          return false;
        }
        data := data.(blindingKey := o.newKey.value);
      }
      return true;
    }

    method CreateSwapRequest(o: Outcome) returns (event: Option<Event>)
      modifies this`data, this`log
      ensures Performs(CreateRequest(old(data), o, sender), event, data, sender, old(log), log)
    {
      var ok := SetPaymentWindowAnchor(o);
      if !ok {
        return Some(ActionFailed);
      }
      if data.GetRequest().None? {
        return None;
      }
      data := data.(nextMessage := Some(RequestMessage(data.GetRequest().value)));
      return Some(ActionSucceeded);
    }

    method CreateSwapOutAgreement(o: Outcome) returns (event: Option<Event>)
      modifies this`data
      ensures Performs(AgreeSwapOut(w, old(data), o, sender), event, data, sender, log, log)
    {
      assert log + [] == log;
      if !RequestAccepted(data, o) {
        return Some(ActionFailed);
      }
      var ok := SetBlindingKey(o);
      if !ok || o.flatFee.None? || o.balance.None? {
        return Some(ActionFailed);
      }
      var needed := (data.GetRequest().value.amount + o.flatFee.value) % TWO_64;
      if o.balance.value < needed || o.preimage.None? || o.payreq.None? || o.premium.None? {
        return Some(ActionFailed);
      }
      var message := Agreement(PROTOCOL_VERSION, w.pub(data.privkey), o.payreq.value, o.premium.value);
      data := data.(swapOutAgreement := Some(message));
      data := data.(nextMessage := Some(AgreementMessage(message)));
      return Some(ActionSucceeded);
    }

    method CreateSwapInAgreement(o: Outcome) returns (event: Option<Event>)
      modifies this`data, this`log
      ensures Performs(AgreeSwapIn(w, old(data), o, sender), event, data, sender, old(log), log)
    {
      if !RequestAccepted(data, o) {
        return Some(ActionFailed);
      }
      var ok := SetPaymentWindowAnchor(o);
      if !ok || o.premium.None? {
        return Some(ActionFailed);
      }
      var message := Agreement(PROTOCOL_VERSION, w.pub(data.privkey), [], o.premium.value);
      data := data.(swapInAgreement := Some(message));
      data := data.(nextMessage := Some(AgreementMessage(message)));
      return Some(ActionSucceeded);
    }

    method CreateSwapAction(o: Outcome) returns (event: Option<Event>)
      modifies this`data, this`log
      ensures Performs(Create(w, table, old(data), o, sender), event, data, sender, old(log), log)
    {
      hide CreateRequest, AgreeSwapOut, AgreeSwapIn;
      match table {
        case SwapInSender =>
          var ok := SetBlindingKey(o);
          if !ok {
            return Some(ActionFailed);
          }
          event := CreateSwapRequest(o);
        case SwapOutSender => event := CreateSwapRequest(o);
        case SwapOutReceiver => event := CreateSwapOutAgreement(o);
        case SwapInReceiver => event := CreateSwapInAgreement(o);
      }
    }

    method SendNextMessage(o: Outcome) returns (event: Option<Event>)
      modifies this`log
      ensures Performs(SendMessage(data, o, sender), event, data, sender, old(log), log)
    {
      if data.nextMessage.None? {
        return Some(ActionFailed);
      }
      log := log + [Sent(data.nextMessage.value)];
      return Some(if o.sent then ActionSucceeded else ActionFailed);
    }

    /** `SendMessageWithRetryAction`: only one redundant sender per swap. */
    method SendMessageWithRetry(id: nat) returns (event: Option<Event>)
      modifies this`log, this`sender
      ensures Performs(SendWithRetry(data, old(sender), id), event, data, sender, old(log), log)
    {
      if data.nextMessage.None? || sender.Some? {
        return Some(ActionFailed);
      }
      sender := Some(id);
      log := log + [Registered(id)];
      log := log + [Sent(data.nextMessage.value)];
      return Some(ActionSucceeded);
    }

    method StopSender()
      modifies this`sender, this`log
      ensures sender.None? && log == old(log) + StopLog(old(sender))
    {
      if sender.Some? {
        log := log + [Stopped(sender.value)];
        sender := None;
      }
    }

    /** The three claim actions: a recorded transaction is never replaced. */
    method ClaimWith(kind: SpendKind, o: Outcome) returns (event: Option<Event>)
      modifies this`data, this`log
      ensures Performs(Claim(w, kind, old(data), o, sender), event, data, sender, old(log), log)
    {
      if data.GetChain().Unknown? {
        return Some(if kind.ByCsv? then OnRetry else ActionFailed);
      }
      if kind.ByCoop? && data.coopClose.None? {
        return None;
      }
      if data.claimTxId == [] {
        if !data.AmountsKnown() {
          return None;
        }
        if o.spent.None? || !Spendable(w, data.GetChain(), data.GetOpeningParams(w), data.openingTxHex) {
          return Some(if kind.ByCoop? then ActionFailed else OnRetry);
        }
        log := log + [Spent(kind, data.GetOpeningParams(w), data.openingTxHex, data.claimPreimage, o.spent.value)];
        data := data.(claimTxId := o.spent.value);
      }
      return Some(ActionSucceeded);
    }

    method PayFeeInvoice(o: Outcome) returns (event: Option<Event>)
      modifies this`data, this`log
      ensures Performs(PayFee(w, old(data), o, sender), event, data, sender, old(log), log)
    {
      match CheckPremium(data) {
        case NilRequest => return None;
        case TooHigh => return Some(ActionFailed);
        case Unexpected => return Some(ActionFailed);
        case Passed =>
      }
      if data.GetChain().Unknown? {
        return Some(ActionFailed);
      }
      if data.swapOutAgreement.None? || data.swapOutRequest.None? {
        return None;
      }
      var payreq := data.swapOutAgreement.value.payreq;
      var invoice := w.decode(payreq);
      if invoice.None? || o.spendable.None? {
        return Some(ActionFailed);
      }
      var required := (Msat(data.swapOutRequest.value.amount) + invoice.value.amountMsat) % TWO_64;
      if o.spendable.value < required || !o.probeOk {
        return Some(ActionFailed);
      }
      data := data.(openingTxFee := invoice.value.amountMsat / 1000);
      if o.flatFee.None? || data.openingTxFee > 3 * o.flatFee.value {
        return Some(ActionFailed);
      }
      log := log + [FeePayment(payreq, o.feePayment)];
      if o.feePayment.None? {
        return Some(ActionFailed);
      }
      data := data.(feePreimage := o.feePayment.value);
      return Some(ActionSucceeded);
    }

    method CreateAndBroadcastOpeningTransaction(o: Outcome) returns (event: Option<Event>)
      modifies this`data, this`log
      ensures Performs(OpenSwap(w, old(data), o, sender), event, data, sender, old(log), log)
    {
      if data.GetChain().Unknown? {
        return Some(ActionFailed);
      }
      if data.openingTxBroadcasted.Some? {
        return Some(ActionSucceeded);
      }
      if o.preimage.None? {
        return Some(ActionFailed);
      }
      data := data.(claimPreimage := o.preimage.value);
      var policy := data.GetPolicy();
      if policy.None? {
        return Some(ActionFailed);
      }
      if !data.AmountsKnown() {
        return None;
      }
      if o.payreq.None? {
        return Some(ActionFailed);
      }
      if data.GetChain().Lbtc? && data.GetBlindingKey() == [] {
        return None;
      }
      if o.funded.None? {
        return Some(ActionFailed);
      }
      var params := FundingParams(w, data, o.preimage.value, policy.value);
      log := log + [Funded(params, o.funded.value.txid, o.funded.value.txHex, o.height.Some?)];
      if o.height.None? {
        return Some(ActionFailed);
      }
      data := data.(startingBlockHeight := o.height.value);
      if IsLiquidV7(data) {
        data := data.(startingBlockHeightSet := true);
      }
      data := data.(openingTxHex := o.funded.value.txHex);
      var message := Opening(o.payreq.value, o.funded.value.txid, o.funded.value.vout, params.blindingKey);
      data := data.(openingTxBroadcasted := Some(message));
      data := data.(nextMessage := Some(OpeningMessage(message)));
      return Some(ActionSucceeded);
    }

    /** The swap-in sender checks the premium first. */
    method BroadcastOpening(o: Outcome) returns (event: Option<Event>)
      modifies this`data, this`log
      ensures Performs(Broadcast(w, table, old(data), o, sender), event, data, sender, old(log), log)
    {
      hide OpenSwap;
      if table.SwapInSender? {
        match CheckPremium(data) {
          case NilRequest => return None;
          case TooHigh => return Some(ActionFailed);
          case Unexpected => return Some(ActionFailed);
          case Passed =>
        }
      }
      event := CreateAndBroadcastOpeningTransaction(o);
    }

    method SetStartingBlockHeight(o: Outcome) returns (event: Option<Event>)
      modifies this`data
      ensures Performs(SetStartingHeight(old(data), o, sender), event, data, sender, log, log)
    {
      assert log + [] == log;
      if data.GetChain().Unknown? || o.height.None? {
        return Some(ActionFailed);
      }
      var now := o.height.value;
      if IsLiquidV7(data) {
        if !InPaymentWindow(data.startingBlockHeight, data.startingBlockHeightSet, now, data.GetPolicy().value) {
          return Some(ActionFailed);
        }
        return Some(NoOp);
      }
      if data.startingBlockHeight == 0 {
        data := data.(startingBlockHeight := now);
      } else if now >= WrapU32(data.startingBlockHeight + SafetyLimit(data.GetChain())) {
        return Some(ActionFailed);
      }
      return Some(NoOp);
    }

    method AwaitTxConfirmation(o: Outcome) returns (event: Option<Event>)
      modifies this`data
      ensures Performs(AwaitConfirmation(w, old(data), o, sender), event, data, sender, log, log)
    {
      assert log + [] == log;
      var policy := data.GetPolicy();
      if data.GetChain().Unknown? || policy.None? {
        return Some(ActionFailed);
      }
      if !policy.value.allowNewClaimPayment {
        if data.openingTxHex == [] {
          return Some(ActionFailed);
        }
        if data.openingTxBroadcasted.None? {
          return None;
        }
        if o.recovered.None? {
          return Some(ActionFailed);
        }
        data := data.(claimPreimage := o.recovered.value);
        return Some(OnTxConfirmed);
      }
      if data.openingTxBroadcasted.None? {
        return None;
      }
      var invoice := w.decode(data.openingTxBroadcasted.value.payreq);
      if invoice.None? {
        return Some(ActionFailed);
      }
      if !data.AmountsKnown() {
        return None;
      }
      if !InvoiceAcceptable(data.GetChain(), policy.value, invoice.value, data.GetClaimAmount()) {
        return Some(ActionFailed);
      }
      data := data.(claimPaymentHash := invoice.value.hash);
      if o.height.None? || !MayAwait(data, o.height.value, policy.value) || !o.scriptOk {
        return Some(ActionFailed);
      }
      return Some(NoOp);
    }

    /** The retry loop: one payment per tick until one returns a preimage, the height is
        missing or out of range, or the retry time is over. */
    method PayUntilDone(policy: Policy, ticks: seq<Tick>) returns (preimage: Option<Bytes>)
      requires data.AmountsKnown() && data.openingTxBroadcasted.Some?
      modifies this`log
      ensures preimage == PayRounds(w, data, policy, ticks).0
      ensures log == old(log) + PayRounds(w, data, policy, ticks).1
    {
      var i := 0;
      assert ticks[0..] == ticks;
      while i < |ticks|
        invariant 0 <= i <= |ticks|
        invariant PayRounds(w, data, policy, ticks).0 == PayRounds(w, data, policy, ticks[i..]).0
        invariant old(log) + PayRounds(w, data, policy, ticks).1 == log + PayRounds(w, data, policy, ticks[i..]).1
      {
        var tick := ticks[i];
        assert ticks[i..][0] == tick && ticks[i..][1..] == ticks[i + 1..];
        if tick.height.None? || !MayPay(data, tick.height.value, policy) {
          return None;
        }
        log := log + [PaymentEntry(w, data, tick.height.value, policy, tick.preimage)];
        if tick.preimage.Some? {
          return tick.preimage;
        }
        i := i + 1;
      }
      return None;
    }

    method ValidateTxAndPayClaimInvoice(o: Outcome) returns (event: Option<Event>)
      modifies this`data, this`log
      ensures Performs(ValidateAndPay(w, old(data), o, sender), event, data, sender, old(log), log)
    {
      hide PayRounds, ValidateTx;
      var policy := data.GetPolicy();
      if data.GetChain().Unknown? || policy.None? {
        return Some(ActionFailed);
      }
      if !data.AmountsKnown() {
        return None;
      }
      if !ValidateTx(w, data.GetChain(), data.GetOpeningParams(w), data.openingTxHex) {
        return Some(ActionFailed);
      }
      if !policy.value.allowNewClaimPayment {
        if data.claimPreimage != [] {
          return Some(ActionSucceeded);
        }
        if data.openingTxBroadcasted.None? {
          return None;
        }
        if o.recovered.None? {
          return Some(ActionFailed);
        }
        data := data.(claimPreimage := o.recovered.value);
        return Some(ActionSucceeded);
      }
      if data.openingTxBroadcasted.None? {
        return None;
      }
      var preimage := PayUntilDone(policy.value, o.ticks);
      if preimage.None? {
        return Some(ActionFailed);
      }
      data := data.(claimPreimage := preimage.value);
      return Some(ActionSucceeded);
    }

    // ------------------------------------------------------------ dispatch

    /** The actions that may stop the redundant sender and then refund or wait. */
    method ExecuteRefund(n: State, o: Outcome) returns (event: Option<Event>)
      modifies this`data, this`log, this`sender
      ensures var x := RefundAction(w, n, old(data), old(sender), o);
              Performs(x, event, data, sender, old(log), log)
    {
      hide Claim;
      if n.WaitCsv? {
        StopSender();
        var x := AwaitCsv(data, o, None);
        return if x.Panic? then None else Some(x.event);
      } else if n.ClaimSwapCsv? {
        StopSender();
        event := ClaimWith(ByCsv, o);
      } else if n.ClaimSwapCoop? {
        StopSender();
        event := ClaimWith(ByCoop, o);
      } else {
        var x := AwaitPaymentOrCsv(data, o, sender);
        return if x.Panic? then None else Some(x.event);
      }
    }

    method ExecuteTaker(n: State, o: Outcome) returns (event: Option<Event>)
      modifies this`data, this`log, this`sender
      ensures var x := TakerAction(w, table, n, old(data), old(sender), o);
              Performs(x, event, data, sender, old(log), log)
    {
      hide Claim, SetStartingHeight, AwaitConfirmation, ValidateAndPay;
      if n.AwaitTxBroadcastedMessage? {
        event := SetStartingBlockHeight(o);
      } else if n.AwaitTxConfirmation? {
        if table.SwapInReceiver? {
          StopSender();
        }
        event := AwaitTxConfirmation(o);
      } else if n.ValidateTxAndPayClaimInvoice? {
        event := ValidateTxAndPayClaimInvoice(o);
      } else {
        event := ClaimWith(ByPreimage, o);
      }
    }

    method ExecutePlain(n: State, o: Outcome) returns (event: Option<Event>)
      modifies this`data, this`log, this`sender
      ensures Performs(PlainAction(n, old(data), old(sender), o), event, data, sender, old(log), log)
    {
      hide SendMessage;
      match n {
        case SendRequest | SendFeeInvoice | SendAgreement | SendCoopClose => event := SendNextMessage(o);
        case AwaitFeeInvoicePayment => return if data.swapOutAgreement.None? then None else Some(NoOp);
        case SendPrivkey =>
          log := log + [BuiltPrivkeyMessage];
          data := data.(nextMessage := Some(CoopCloseMessage(data.privkey)));
          return Some(ActionSucceeded);
        case SendCancel => return Some(if o.sent then ActionSucceeded else ActionFailed);
        case SwapCanceled => return Some(Done);
        case ClaimedPreimage | ClaimedCsv | ClaimedCoop =>
          StopSender();
          return Some(Done);
        case _ => return Some(NoOp);
      }
    }

    /** The action of a state. A panic leaves whatever it had done; the process is gone. */
    method ExecuteAction(n: State, id: nat, o: Outcome) returns (event: Option<Event>)
      modifies this`data, this`log, this`sender
      ensures var x := Execute(w, table, n, old(data), old(sender), id, o);
              Performs(x, event, data, sender, old(log), log)
    {
      hide RefundAction, TakerAction, PlainAction, Create, PayFee, Broadcast, SendWithRetry;
      match n {
        case CreateSwap => event := CreateSwapAction(o);
        case PayFeeInvoice => event := PayFeeInvoice(o);
        case BroadcastOpeningTx => event := BroadcastOpening(o);
        case SendTxBroadcastedMessage => event := SendMessageWithRetry(id);
        case AwaitClaimPayment | ClaimSwapCsv | ClaimSwapCoop | WaitCsv => event := ExecuteRefund(n, o);
        case AwaitTxBroadcastedMessage | AwaitTxConfirmation | ValidateTxAndPayClaimInvoice | ClaimSwap =>
          event := ExecuteTaker(n, o);
        case _ => event := ExecutePlain(n, o);
      }
    }

    /** `UpdateData`. */
    method Store()
      modifies this`stored
      ensures stored == Some(Snapshot(current, data))
    {
      stored := Some(Snapshot(current, data));
    }

    /** The process dies: memory is gone, and with it everything after `length` in the
        history, which never left the process. */
    method Die(length: nat)
      requires stored.Some? && length <= |log|
      modifies this`current, this`data, this`retries, this`sender, this`log
      ensures current == stored.value.current && data == stored.value.data && retries == 0 && sender.None?
      ensures log == old(log)[..length] + [QuietCrash(stored.value)]
    {
      current, data, retries, sender := stored.value.current, stored.value.data, 0, None;
      log := log[..length] + [QuietCrash(stored.value)];
    }

    // ---------------------------------------------------------------- loop

    /** One round of the event loop on an event with an edge: enter the state, run its action
        and store the result. None when the process died. */
    method Round(event: Event, next: State, o: Outcome) returns (result: Option<Event>)
      requires InSync(Abs(Pending(event))) && InTable(table, current)
      requires Next(table, current, event) == Some(next)
      modifies this
      ensures var before := old(Abs(Pending(event)));
              var r := ApplyDispatch(w, before, o);
              match result
              case None => Abs(Down) == r
              case Some(e) => Abs(Executed(e)) == Save(r) && r.phase == Executed(e)
                              && !next.Default? && Returns(next, e) && current == next && retries == old(retries)
      ensures stored.Some? && InTable(table, current)
    {
      hide Next, Execute;
      ghost var before := Abs(Pending(event));
      var from, length := current, |log|;
      NoEdgeToDefault(table, current, event);
      TablesAreClosed(table, current, event);
      ExecuteSummary(w, table, next, data, sender, length, o);
      hide Summary;
      current := next;
      log := log + [Moved(from, next, event)];
      result := ExecuteAction(next, length, o);
      if result.None? {
        Die(length);
        assert log == before.log + [QuietCrash(stored.value)];
      } else {
        Store();
      }
    }

    /** One pass through the loop body: look the event up, run a round, and decide how to go
        on. Some(e) is the event of the next pass. */
    method Pass(event: Event, o: Outcome) returns (again: Option<Event>, reply: Reply)
      requires InSync(Abs(Pending(event))) && InTable(table, current)
      modifies this
      ensures Abs(if again.Some? then Pending(again.value) else PhaseAfter(reply))
              == ApplyPersist(ApplyDispatch(w, old(Abs(Pending(event))), o))
      ensures stored.Some? && InTable(table, current)
      ensures again.Some? ==> Returns(current, again.value) && !again.value.Done? && !again.value.NoOp?
      ensures again.Some? ==>
              if event.OnRetry? then
                && current == old(current)
                && (if again.value.OnRetry? then retries == old(retries) + 1 <= MAX_RETRIES
                    else retries == old(retries))
              else
                !(IsMaker(table) && event.OnCoopCloseReceived?) ==>
                  Progress.Rank(table, current) < Progress.Rank(table, old(current))
      ensures again.Some? ==> !IsFinished(old(current))
      ensures IsFinished(old(current)) ==>
              again.None? && reply == Returned(false, Some(EventRejected)) && Abs(Idle) == old(Abs(Idle))
      ensures again.None? ==> Decided(reply, old(current), current)
    {
      hide Next, ApplyDispatch, ApplyPersist, Progress.Rank;
      ghost var s := Abs(Pending(event));
      var next := Next(table, current, event);
      TablesAreClosed(table, current, event);
      Progress.EdgesDescend(table, current, event);
      if next.None? {
        Rejected(w, s, o);
        return None, Returned(false, Some(EventRejected));
      }
      var result := Round(event, next.value, o);
      if result.None? {
        DeadStaysDown(ApplyDispatch(w, s, o));
        return None, Died;
      }
      Persisted(ApplyDispatch(w, s, o), result.value);
      reply := Returned(result.value.Done?, None);
      if result.value.Done? || result.value.NoOp? {
        return None, reply;
      }
      if result.value.OnRetry? {
        retries := retries + 1;
        if retries > MAX_RETRIES {
          retries := 0;
          return None, reply;
        }
      }
      again := result;
    }

    /** The loop of `SendEvent`. It ends because every pass but the first goes down in rank,
        retries for one of at most twenty times, or is the one after a retry. */
    method Drive(first: Event, oracle: nat -> Outcome) returns (reply: Reply, rounds: nat)
      requires InSync(Abs(Pending(first))) && InTable(table, current)
      modifies this
      ensures Abs(PhaseAfter(reply)) == Run(w, old(Abs(Pending(first))), Turns(oracle, rounds))
      ensures InSync(Abs(PhaseAfter(reply))) && stored.Some? && InTable(table, current)
      ensures Decided(reply, old(current), current)
      ensures IsFinished(old(current)) ==>
              reply == Returned(false, Some(EventRejected)) && Abs(Idle) == old(Abs(Idle))
    {
      ghost var start := Abs(Pending(first));
      hide Run, Turns, Progress.Rank, ApplyDispatch, ApplyPersist;
      var event := first;
      rounds := 0;
      NoTurns(w, start, oracle);
      while true
        invariant Abs(Pending(event)) == Run(w, start, Turns(oracle, rounds))
        invariant InSync(Abs(Pending(event))) && InTable(table, current)
        invariant rounds == 0 ==> Abs(Idle) == old(Abs(Idle)) && event == first
        invariant rounds > 0 ==> Returns(current, event) && !event.Done? && !IsFinished(old(current))
        decreases if rounds == 0 then 1 else 0, Progress.Rank(table, current), MAX_RETRIES + 1 - retries,
                  if event.OnRetry? then 1 else 0
      {
        ghost var s := Abs(Pending(event));
        OneTurn(w, start, oracle, rounds);
        TurnInSync(w, s, oracle(rounds));
        var again;
        again, reply := Pass(event, oracle(rounds));
        rounds := rounds + 1;
        if again.None? {
          return;
        }
        event := again.value;
      }
    }

    // ------------------------------------------------------------ interface

    /** `SendEvent` for a message or notification. The message is applied and stored before
        its event is looked up, so a rejected event can still leave it behind. */
    method SendEvent(input: Input, oracle: nat -> Outcome) returns (reply: Reply, rounds: nat)
      requires Valid()
      modifies this
      ensures Abs(PhaseAfter(reply)) == Run(w, old(Abs(Idle)), [Deliver(input)] + Turns(oracle, rounds))
      ensures InSync(Abs(PhaseAfter(reply))) && stored.Some? && InTable(table, current) && retries <= 20
      ensures Decided(reply, old(current), current)
      ensures IsFinished(old(current)) ==> current == old(current)
    {
      ghost var s := Abs(Idle);
      hide Run, Turns;
      if !ValidInput(data, input) {
        Store();
        reply, rounds := Drive(OnInvalidMessage, oracle);
        Delivered(w, s, input, Turns(oracle, rounds));
        return;
      }
      var applied := ApplyInput(data, input);
      if applied.None? {
        NoTurns(w, s, oracle);
        Delivered(w, s, input, Turns(oracle, 0));
        return Returned(false, Some(MessageExists)), 0;
      }
      data := applied.value;
      log := log + InputLog(input);
      Store();
      InputEvents(input);
      hide ApplyInput, ValidInput, EventOf;
      reply, rounds := Drive(EventOf(input), oracle);
      Delivered(w, s, input, Turns(oracle, rounds));
    }

    /** The first event of a machine: a request, checked, applied and stored. */
    method Start(request: Request, oracle: nat -> Outcome) returns (reply: Reply, rounds: nat)
      requires InSync(Abs(Idle)) && current.Default? && MayStart(w, Abs(Idle), request)
      modifies this
      ensures Abs(PhaseAfter(reply)) == Run(w, old(Abs(Idle)), [Label.Start(request)] + Turns(oracle, rounds))
      ensures InSync(Abs(PhaseAfter(reply))) && stored.Some? && InTable(table, current) && retries <= 20
      ensures Decided(reply, Default, current)
    {
      ghost var s := Abs(Idle);
      var event := OnInvalidMessage;
      if ValidRequest(w, request) {
        data := WithRequest(table, data, request);
        event := OnStarted;
      }
      Store();
      assert Abs(Pending(event)) == ApplyStart(w, s, request);
      hide ValidRequest, Run, Turns, ApplyStart;
      reply, rounds := Drive(event, oracle);
      Started(w, s, request, Turns(oracle, rounds));
    }

    /** `RecoverSwaps` and `Recover`: after a crash the action of the stored state is run
        again, unless the swap is finished or its state fails on recovery. */
    method Recover(oracle: nat -> Outcome) returns (reply: Reply, rounds: nat)
      requires InSync(Abs(Down)) && stored.Some? && InTable(table, current)
      modifies this
      ensures Abs(PhaseAfter(reply)) ==
              Run(w, old(Abs(Down)), [Restart(oracle(0)), Persist] + Turns(After(oracle), rounds))
      ensures InSync(Abs(PhaseAfter(reply))) && stored.Some? && InTable(table, current) && retries <= 20
      ensures Decided(reply, old(current), current)
      ensures IsFinished(old(current)) || old(current).Default? ==> current == old(current)
    {
      ghost var s := Abs(Down);
      var later := After(oracle);
      var o := oracle(0);
      rounds := 0;
      hide Run, Turns, ApplyPersist, ApplyRestart;
      if IsFinished(current) || current.Default? {
        Rested(w, s, o, later);
        return Returned(false, if current.Default? then Some(ConfigError) else None), 0;
      }
      if FailOnRecover(table, current) {
        FailsOnRecovery(w, s, o);
        reply, rounds := Drive(ActionFailed, later);
        Resumed(w, s, o, Turns(later, rounds));
        return;
      }
      var event := Rerun(o);
      if event.None? || event.value.NoOp? {
        reply := if event.None? then Died else Returned(false, None);
        NoTurns(w, Abs(PhaseAfter(reply)), later);
        Resumed(w, s, o, Turns(later, 0));
        return;
      }
      reply, rounds := Drive(event.value, later);
      Resumed(w, s, o, Turns(later, rounds));
    }

    /** Running the action of the stored state again, and storing what it did. */
    method Rerun(o: Outcome) returns (event: Option<Event>)
      requires InSync(Abs(Down)) && stored.Some? && InTable(table, current)
      requires !IsFinished(current) && !current.Default? && !FailOnRecover(table, current)
      modifies this
      ensures var p := match event case None => Down case Some(e) => if e.NoOp? then Idle else Pending(e);
              Abs(p) == ApplyPersist(ApplyRestart(w, old(Abs(Down)), o)) && InSync(Abs(p))
      ensures stored.Some? && current == old(current) && (event.Some? ==> Returns(current, event.value))
    {
      ghost var s := Abs(Down);
      var length := |log|;
      ExecuteSummary(w, table, current, data, sender, length, o);
      RecoverInSync(w, s, o);
      hide Execute, Summary, InSync;
      event := ExecuteAction(current, length, o);
      if event.None? {
        Die(length);
        assert log == s.log + [QuietCrash(stored.value)];
      } else {
        Store();
      }
    }
  }

  lemma NoTurns(w: World, s: Sys, oracle: nat -> Outcome)
    ensures Run(w, s, Turns(oracle, 0)) == s
  {
  }

  /** `done` without an error is reported exactly for a swap that has just finished. */
  predicate Decided(reply: Reply, before: State, after: State) {
    && (reply.Returned? && reply.error.Some? ==> !reply.done)
    && (reply == Returned(true, None) <==> reply.Returned? && IsFinished(after) && !IsFinished(before))
  }

  lemma TurnInSync(w: World, s: Sys, o: Outcome)
    requires InSync(s)
    ensures InSync(ApplyDispatch(w, s, o)) && InSync(ApplyPersist(ApplyDispatch(w, s, o)))
  {
    LabelsApply(w, s, o);
    StepInSync(w, s, Dispatch(o));
    StepInSync(w, ApplyDispatch(w, s, o), Persist);
    hide Apply, InSync;
  }

  lemma Rejected(w: World, s: Sys, o: Outcome)
    requires s.phase.Pending? && Next(s.table, s.current, s.phase.event).None?
    ensures ApplyPersist(ApplyDispatch(w, s, o)) == s.(phase := Idle)
  {
    hide Next;
  }

  lemma DeadStaysDown(r: Sys)
    requires r.phase.Down?
    ensures ApplyPersist(r) == r
  {
  }

  /** Storing the result of an action and deciding how to go on. */
  lemma Persisted(r: Sys, e: Event)
    requires r.phase == Executed(e)
    ensures e.Done? || e.NoOp? ==> ApplyPersist(r) == Save(r).(phase := Idle)
    ensures e.OnRetry? ==>
            ApplyPersist(r) == if r.retries + 1 > MAX_RETRIES then Save(r).(retries := 0, phase := Idle)
                               else Save(r).(retries := r.retries + 1, phase := Pending(e))
    ensures !e.Done? && !e.NoOp? && !e.OnRetry? ==> ApplyPersist(r) == Save(r).(phase := Pending(e))
  {
  }

  lemma InputEvents(i: Input)
    ensures !EventOf(i).NoOp? && !EventOf(i).Done?
  {
  }

  lemma Delivered(w: World, s: Sys, i: Input, rest: seq<Label>)
    ensures Run(w, s, [Deliver(i)] + rest) == Run(w, ApplyDeliver(s, i), rest)
  {
    RunCons(w, s, Deliver(i), rest);
    hide Run, ApplyDeliver;
  }

  lemma Started(w: World, s: Sys, r: Request, rest: seq<Label>)
    ensures Run(w, s, [Label.Start(r)] + rest) == Run(w, ApplyStart(w, s, r), rest)
  {
    RunCons(w, s, Label.Start(r), rest);
    hide Run, ApplyStart;
  }

  lemma Resumed(w: World, s: Sys, o: Outcome, rest: seq<Label>)
    ensures Run(w, s, [Restart(o), Persist] + rest) == Run(w, ApplyPersist(ApplyRestart(w, s, o)), rest)
  {
    assert [Restart(o), Persist] + rest == [Restart(o)] + ([Persist] + rest);
    RunCons(w, s, Restart(o), [Persist] + rest);
    RunCons(w, ApplyRestart(w, s, o), Persist, rest);
    hide Run, ApplyRestart, ApplyPersist;
  }

  lemma Rested(w: World, s: Sys, o: Outcome, later: nat -> Outcome)
    requires s.phase.Down? && (IsFinished(s.current) || s.current.Default?)
    ensures Run(w, s, [Restart(o), Persist] + Turns(later, 0)) == s.(phase := Idle)
  {
    var r := s.(phase := Idle);
    assert ApplyRestart(w, s, o) == r && ApplyPersist(r) == r;
    hide ApplyRestart, ApplyPersist;
    Resumed(w, s, o, Turns(later, 0));
    NoTurns(w, r, later);
  }

  lemma FailsOnRecovery(w: World, s: Sys, o: Outcome)
    requires s.phase.Down? && FailOnRecover(s.table, s.current)
    ensures ApplyPersist(ApplyRestart(w, s, o)) == s.(phase := Pending(ActionFailed))
  {
    hide Execute;
  }

  lemma RecoverInSync(w: World, s: Sys, o: Outcome)
    requires InSync(s)
    ensures InSync(ApplyPersist(ApplyRestart(w, s, o)))
  {
    StepInSync(w, s, Restart(o));
    StepInSync(w, ApplyRestart(w, s, o), Persist);
    hide InSync, ApplyRestart, ApplyPersist;
  }
}
