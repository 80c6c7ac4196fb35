/** Which messages a machine holds in which state, on every run. The actions dereference
    peer messages without asking whether they are there; this is why they may. */
module Presence {
  import opened Base
  import opened SwapData
  import opened States
  import opened Actions
  import opened Effects
  import opened Fsm

  predicate IsSwapIn(t: Table) { t.SwapInSender? || t.SwapInReceiver? }

  function OwnRequest(t: Table, d: Data): Option<Request> {
    if IsSwapIn(t) then d.swapInRequest else d.swapOutRequest
  }

  function OtherRequest(t: Table, d: Data): Option<Request> {
    if IsSwapIn(t) then d.swapOutRequest else d.swapInRequest
  }

  function OwnAgreement(t: Table, d: Data): Option<Agreement> {
    if IsSwapIn(t) then d.swapInAgreement else d.swapOutAgreement
  }

  predicate NeedsRequest(s: State) { !s.Default? && !s.SendCancel? && !s.SwapCanceled? }

  predicate PastCreation(s: State) { NeedsRequest(s) && !s.CreateSwap? }

  predicate NeedsAgreement(s: State) { PastCreation(s) && !s.SendRequest? && !s.AwaitAgreement? }

  predicate NeedsOpening(s: State) {
    || s.SendTxBroadcastedMessage? || s.AwaitClaimPayment? || s.ClaimSwapCsv? || s.ClaimSwapCoop? || s.WaitCsv?
    || s.AwaitTxConfirmation? || s.ValidateTxAndPayClaimInvoice? || s.ClaimSwap?
  }

  /** The messages at hand in a state. */
  predicate Ready(t: Table, s: State, d: Data) {
    && OtherRequest(t, d).None?
    && (NeedsRequest(s) ==> OwnRequest(t, d).Some?)
    && (NeedsAgreement(s) ==> OwnAgreement(t, d).Some?)
    && (NeedsOpening(s) ==> d.openingTxBroadcasted.Some? && (IsMaker(t) ==> !d.GetChain().Unknown?))
    && (PastCreation(s) && IsMaker(t) && d.GetChain().Lbtc? ==> d.blindingKey != [])
    && (s.ClaimSwapCoop? ==> d.coopClose.Some?)
  }

  /** What is at hand in addition once the action of a state has succeeded. */
  predicate Succeeded(t: Table, s: State, d: Data) {
    && (s.CreateSwap? && (t.SwapInReceiver? || t.SwapOutReceiver?) ==> OwnAgreement(t, d).Some?)
    && (s.CreateSwap? && IsMaker(t) && d.GetChain().Lbtc? ==> d.blindingKey != [])
    && (s.BroadcastOpeningTx? ==> OpeningDone(t, d))
  }

  /** A pending message event comes with its message. */
  predicate Heard(t: Table, e: Event, d: Data) {
    match e
    case OnStarted => OwnRequest(t, d).Some?
    case OnAgreementReceived => d.swapInAgreement.Some?
    case OnFeeInvoiceReceived => d.swapOutAgreement.Some?
    case OnTxOpenedMessage => d.openingTxBroadcasted.Some?
    case OnCoopCloseReceived => d.coopClose.Some?
    case _ => true
  }

  ghost predicate Holds(s: Sys) {
    && InTable(s.table, s.current)
    && Ready(s.table, s.current, s.data)
    && (s.stored.Some? ==> InTable(s.table, s.stored.value.current)
                           && Ready(s.table, s.stored.value.current, s.stored.value.data))
    && (s.stored.None? ==> OwnRequest(s.table, s.data).None?)
    && (s.phase.Pending? ==> Heard(s.table, s.phase.event, s.data))
    && (Reported(s.phase) ==> Succeeded(s.table, s.current, s.data))
  }

  predicate Reported(p: Phase) {
    p == Pending(ActionSucceeded) || p == Executed(ActionSucceeded) || p == Recovered(ActionSucceeded)
  }

  // ------------------------------------------------------------------ edges

  /** Where the messages come from: the edges into states that need more than the
      previous state did. */
  predicate Supplied(t: Table, s: State, e: Event, n: State) {
    && (NeedsRequest(n) && !NeedsRequest(s) ==> e.OnStarted?)
    && (PastCreation(n) && !PastCreation(s) ==> s.CreateSwap? && e.ActionSucceeded?)
    && (NeedsAgreement(n) && !NeedsAgreement(s) ==>
          || (t.SwapInSender? && e.OnAgreementReceived?) || (t.SwapOutSender? && e.OnFeeInvoiceReceived?)
          || ((t.SwapInReceiver? || t.SwapOutReceiver?) && s.CreateSwap? && e.ActionSucceeded?))
    && (NeedsOpening(n) && !NeedsOpening(s) ==>
          if IsMaker(t) then s.BroadcastOpeningTx? && e.ActionSucceeded? else e.OnTxOpenedMessage?)
    && (n.ClaimSwapCoop? ==> e.OnCoopCloseReceived?)
    && (n.CreateSwap? ==> s.Default?)
  }

  lemma SwapInSenderSupplied(s: State, e: Event)
    requires InTable(SwapInSender, s) && !s.SendCancel?
    ensures var n := SwapInSenderNext(s, e); n.Some? ==> Supplied(SwapInSender, s, e, n.value)
  {
  }

  lemma SwapOutReceiverSupplied(s: State, e: Event)
    requires InTable(SwapOutReceiver, s) && !s.SendCancel?
    ensures var n := SwapOutReceiverNext(s, e); n.Some? ==> Supplied(SwapOutReceiver, s, e, n.value)
  {
  }

  lemma SwapOutSenderSupplied(s: State, e: Event)
    requires InTable(SwapOutSender, s) && !s.SendCancel?
    ensures var n := SwapOutSenderNext(s, e); n.Some? ==> Supplied(SwapOutSender, s, e, n.value)
  {
  }

  lemma SwapInReceiverSupplied(s: State, e: Event)
    requires InTable(SwapInReceiver, s) && !s.SendCancel?
    ensures var n := SwapInReceiverNext(s, e); n.Some? ==> Supplied(SwapInReceiver, s, e, n.value)
  {
  }

  lemma EdgesSupply(t: Table, s: State, e: Event)
    requires InTable(t, s)
    ensures Next(t, s, e).Some? ==> Supplied(t, s, e, Next(t, s, e).value)
  {
    if !s.SendCancel? {
      match t
      case SwapInSender => SwapInSenderSupplied(s, e);
      case SwapOutReceiver => SwapOutReceiverSupplied(s, e);
      case SwapOutSender => SwapOutSenderSupplied(s, e);
      case SwapInReceiver => SwapInReceiverSupplied(s, e);
    }
    hide SwapInSenderNext, SwapOutReceiverNext, SwapOutSenderNext, SwapInReceiverNext;
  }

  // ------------------------------------------------------------------ steps

  /** Before the action runs, the state entered has what it needs. */
  lemma Entering(t: Table, s: State, e: Event, n: State, d: Data)
    requires Ready(t, s, d) && Heard(t, e, d) && (e.ActionSucceeded? ==> Succeeded(t, s, d))
    requires Supplied(t, s, e, n)
    ensures Ready(t, n, d)
  {
  }

  /** Running the action keeps it so, and success adds what it promises. */
  lemma Acting(w: World, t: Table, n: State, d: Data, snd: Option<nat>, id: nat, x: Exec)
    requires Ready(t, n, d) && x.Ran? && !n.Default? && Summary(n, d, snd, id, x) && Details(w, t, n, d, snd, x)
    ensures Ready(t, n, x.data) && (x.event.ActionSucceeded? ==> Succeeded(t, n, x.data))
  {
    hide MayLog, SenderEffect, PaymentDetails, ClaimDetails, ConfirmationDetails;
  }

  lemma MoveHolds(w: World, s: Sys, n: State, x: Exec)
    requires Holds(s) && InSync(s) && s.phase.Pending?
    requires Next(s.table, s.current, s.phase.event) == Some(n) && Acts(w, s, n, x)
    ensures Holds(Move(s, n, x))
  {
    TablesAreClosed(s.table, s.current, s.phase.event);
    EdgesSupply(s.table, s.current, s.phase.event);
    Entering(s.table, s.current, s.phase.event, n, s.data);
    Acting(w, s.table, n, s.data, s.sender, |s.log|, x);
    hide Next, Ready, Succeeded, Supplied, Details, Summary;
  }

  lemma StartHolds(w: World, s: Sys, r: Request)
    requires Holds(s) && InSync(s)
    ensures Holds(ApplyStart(w, s, r))
  {
  }

  lemma DeliverHolds(s: Sys, i: Input)
    requires Holds(s) && InSync(s)
    ensures Holds(ApplyDeliver(s, i))
  {
    if s.stored.Some? && ApplyInput(s.data, i).Some? {
      Hearing(s.table, s.current, s.data, i);
    }
    hide Ready, Succeeded, ApplyInput, ValidInput;
  }

  /** A message only adds to what is at hand, and its event finds it there. */
  lemma Hearing(t: Table, s: State, d: Data, i: Input)
    requires Ready(t, s, d) && ApplyInput(d, i).Some?
    ensures Ready(t, s, ApplyInput(d, i).value) && Heard(t, EventOf(i), ApplyInput(d, i).value)
    ensures OwnRequest(t, ApplyInput(d, i).value) == OwnRequest(t, d)
    ensures !EventOf(i).ActionSucceeded?
  {
    hide Heard, ApplyInput, EventOf;
    HearsItself(t, d, i);
  }

  lemma HearsItself(t: Table, d: Data, i: Input)
    requires ApplyInput(d, i).Some?
    ensures Heard(t, EventOf(i), ApplyInput(d, i).value) && !EventOf(i).ActionSucceeded?
  {
  }

  lemma PersistHolds(s: Sys)
    requires Holds(s) && InSync(s)
    ensures Holds(ApplyPersist(s))
  {
    hide Ready, Succeeded;
  }

  lemma CrashHolds(s: Sys)
    requires Holds(s) && InSync(s)
    ensures Holds(ApplyCrash(s))
  {
    hide Ready, Succeeded;
  }

  lemma DispatchHolds(w: World, s: Sys, o: Outcome)
    requires Holds(s) && InSync(s)
    ensures Holds(ApplyDispatch(w, s, o))
  {
    CrashHolds(s);
    var n, x := DispatchCases(w, s, o);
    if s.phase.Pending? && Next(s.table, s.current, s.phase.event) == Some(n) && Acts(w, s, n, x) {
      MoveHolds(w, s, n, x);
    }
    hide Ready, Succeeded, Next, Acts, Move, ApplyDispatch, ApplyCrash;
  }

  lemma RestartHolds(w: World, s: Sys, o: Outcome)
    requires Holds(s) && InSync(s)
    ensures Holds(ApplyRestart(w, s, o))
  {
    CrashHolds(s);
    var x := RestartCases(w, s, o);
    if Acts(w, s, s.current, x) {
      Acting(w, s.table, s.current, s.data, s.sender, |s.log|, x);
    }
    hide Ready, Succeeded, Acts, ApplyRestart, ApplyCrash;
  }

  lemma StepHolds(w: World, s: Sys, l: Label)
    requires Holds(s) && InSync(s)
    ensures Holds(Apply(w, s, l))
  {
    match l
    case Start(r) => StartHolds(w, s, r);
    case Deliver(i) => DeliverHolds(s, i);
    case Dispatch(o) => DispatchHolds(w, s, o);
    case Persist => PersistHolds(s);
    case Crash => CrashHolds(s);
    case Restart(o) => RestartHolds(w, s, o);
    hide Holds, ApplyStart, ApplyDeliver, ApplyDispatch, ApplyPersist, ApplyCrash, ApplyRestart;
  }

  lemma {:induction false} AlwaysHolds(w: World, t: Table, key: Bytes, labels: seq<Label>)
    ensures Holds(Run(w, New(t, key), labels))
  {
    if labels != [] {
      var before := labels[..|labels| - 1];
      AlwaysHolds(w, t, key, before);
      AlwaysInSync(w, t, key, before);
      StepHolds(w, Run(w, New(t, key), before), labels[|labels| - 1]);
    }
    hide Apply;
  }

  // ------------------------------------------------------------ no nil dereference

  /** The one action that can still meet a missing message: the swap-out sender's premium
      check looks at a swap-in agreement first, if a peer ever sent one. */
  predicate Safe(t: Table, s: State, d: Data) {
    Ready(t, s, d) && !s.Default? && (t.SwapOutSender? && s.PayFeeInvoice? ==> d.swapInAgreement.None?)
  }

  lemma SafeTaker(w: World, t: Table, s: State, d: Data, snd: Option<nat>, id: nat, o: Outcome)
    requires Safe(t, s, d) && InTable(t, s) && !IsMaker(t)
    ensures Execute(w, t, s, d, snd, id, o).Ran?
  {
    hide CreateRequest, AgreeSwapOut, AgreeSwapIn, SendMessage, SendWithRetry, PayFee, Broadcast,
      RefundAction, Claim, SetStartingHeight, AwaitConfirmation, ValidateAndPay;
  }

  lemma SafeMaker(w: World, t: Table, s: State, d: Data, snd: Option<nat>, id: nat, o: Outcome)
    requires Safe(t, s, d) && InTable(t, s) && IsMaker(t)
    ensures Execute(w, t, s, d, snd, id, o).Ran?
  {
    hide CreateRequest, AgreeSwapOut, AgreeSwapIn, SendMessage, SendWithRetry, PayFee, Broadcast,
      AwaitPaymentOrCsv, AwaitCsv, Claim, TakerAction;
  }

  lemma PremiumCheckPanics(w: World, d: Data, snd: Option<nat>, o: Outcome)
    requires d.swapInRequest.None? && d.swapInAgreement.Some?
    ensures PayFee(w, d, o, snd).Panic?
  {
  }

  /** On every run no action dereferences a message that is not there, with one exact
      exception: a swap-out sender that enters `PayFeeInvoice` holding a swap-in agreement,
      which `SendEvent` stored although it rejected its event. */
  lemma {:induction false} NoNilDereference(w: World, t: Table, key: Bytes, labels: seq<Label>, o: Outcome)
    ensures var s := Run(w, New(t, key), labels);
            && (s.phase.Pending? && Next(s.table, s.current, s.phase.event).Some? ==>
                  var n := Next(s.table, s.current, s.phase.event).value;
                  Execute(w, s.table, n, s.data, s.sender, |s.log|, o).Panic? <==>
                  s.table.SwapOutSender? && n.PayFeeInvoice? && s.data.swapInAgreement.Some?)
            && (s.phase.Down? && !s.current.Default? && !FailOnRecover(s.table, s.current) ==>
                  Execute(w, s.table, s.current, s.data, s.sender, |s.log|, o).Ran?)
  {
    var s := Run(w, New(t, key), labels);
    AlwaysHolds(w, t, key, labels);
    hide Run;
    if s.phase.Pending? && Next(s.table, s.current, s.phase.event).Some? {
      var n := Next(s.table, s.current, s.phase.event).value;
      NoEdgeToDefault(s.table, s.current, s.phase.event);
      TablesAreClosed(s.table, s.current, s.phase.event);
      EdgesSupply(s.table, s.current, s.phase.event);
      Entering(s.table, s.current, s.phase.event, n, s.data);
      NoNilDereferenceIn(w, s, n, o);
    } else if s.phase.Down? && !s.current.Default? && !FailOnRecover(s.table, s.current) {
      NoNilDereferenceIn(w, s, s.current, o);
    }
    hide Next, Execute;
  }

  lemma NoNilDereferenceIn(w: World, s: Sys, n: State, o: Outcome)
    requires Ready(s.table, n, s.data) && InTable(s.table, n) && !n.Default?
    ensures Execute(w, s.table, n, s.data, s.sender, |s.log|, o).Panic? <==>
            s.table.SwapOutSender? && n.PayFeeInvoice? && s.data.swapInAgreement.Some?
  {
    if s.table.SwapOutSender? && n.PayFeeInvoice? && s.data.swapInAgreement.Some? {
      PremiumCheckPanics(w, s.data, s.sender, o);
      hide PayFee, Create, Broadcast, RefundAction, TakerAction, PlainAction;
    } else {
      if IsMaker(s.table) { SafeMaker(w, s.table, n, s.data, s.sender, |s.log|, o); }
      else { SafeTaker(w, s.table, n, s.data, s.sender, |s.log|, o); }
      hide Execute, Ready;
    }
  }
}
