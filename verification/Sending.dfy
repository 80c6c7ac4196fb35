/** What a machine tells its peer is what it has on record: on every run each message that was
    sent matches the request, agreement, opening or key of the swap, and an announced opening was
    funded before. Two peers that hear only each other therefore hold the same messages. */
module Sending {
  import opened Base
  import opened SwapData
  import opened States
  import opened Actions
  import opened Effects
  import opened Fsm
  import opened Presence
  import opened Exchange
  import Progress
  import Spending = Claims

  predicate Initiates(t: Table) { t.SwapInSender? || t.SwapOutSender? }

  /** The request of an initiator, the agreement of a responder. */
  function FirstMessage(t: Table, d: Data): Option<Message> {
    if Initiates(t) then
      match OwnRequest(t, d)
      case None => None
      case Some(q) => Some(RequestMessage(q))
    else
      match OwnAgreement(t, d)
      case None => None
      case Some(a) => Some(AgreementMessage(a))
  }

  /** A taker that gives up. */
  predicate Closing(c: State) { c.SendPrivkey? || c.SendCoopClose? || c.ClaimedCoop? }

  /** The message a machine has ready in each state after its creation. */
  function NextOf(t: Table, foreign: bool, c: State, d: Data): Option<Message> {
    if IsMaker(t) && !foreign && d.openingTxBroadcasted.Some? then Some(OpeningMessage(d.openingTxBroadcasted.value))
    else if !IsMaker(t) && Closing(c) then Some(CoopCloseMessage(d.privkey))
    else FirstMessage(t, d)
  }

  /** The message matches the record of a machine that may send it. */
  predicate Tells(t: Table, d: Data, m: Message) {
    match m
    case RequestMessage(q) => Initiates(t) && OwnRequest(t, d) == Some(q)
    case AgreementMessage(a) => !Initiates(t) && OwnAgreement(t, d) == Some(a)
    case OpeningMessage(o) => IsMaker(t) && d.openingTxBroadcasted == Some(o)
    case CoopCloseMessage(k) => !IsMaker(t) && k == d.privkey
  }

  ghost predicate SentTruly(t: Table, log: seq<Entry>, d: Data) {
    forall i :: 0 <= i < |log| && log[i].Sent? ==> Tells(t, d, log[i].message)
  }

  ghost predicate Unsent(log: seq<Entry>) {
    forall i :: 0 <= i < |log| ==> !log[i].Sent?
  }

  predicate IsOpening(e: Entry, m: Opening) { e == Sent(OpeningMessage(m)) }

  /** The entry funds a usable output for this opening message. */
  predicate FundsOpening(e: Entry, m: Opening) {
    e.Funded? && e.usable && e.txid == m.txid && e.params.blindingKey == m.blindingKey
  }

  ghost predicate FundedBefore(log: seq<Entry>, j: nat, m: Opening) {
    exists i :: 0 <= i < j <= |log| && FundsOpening(log[i], m)
  }

  ghost predicate OpeningsFunded(log: seq<Entry>) {
    forall j: nat, m :: j < |log| && IsOpening(log[j], m) ==> FundedBefore(log, j, m)
  }

  // ----------------------------------------------------------------- actions

  /** What an action sends and which message it leaves ready. */
  ghost predicate Says(t: Table, n: State, d: Data, x: Exec)
    requires x.Ran?
  {
    && (forall i :: 0 <= i < |x.log| && x.log[i].Sent? ==> d.nextMessage == Some(x.log[i].message))
    && (match n
        case CreateSwap =>
          OtherRequest(t, d).None? && x.event.ActionSucceeded? ==> x.data.nextMessage == FirstMessage(t, x.data)
        case BroadcastOpeningTx =>
          x.data.nextMessage ==
          if d.openingTxBroadcasted.None? && x.data.openingTxBroadcasted.Some?
          then Some(OpeningMessage(x.data.openingTxBroadcasted.value)) else d.nextMessage
        case SendPrivkey => x.data.nextMessage == Some(CoopCloseMessage(d.privkey))
        case _ => x.data.nextMessage == d.nextMessage)
  }

  lemma CreateSays(w: World, t: Table, d: Data, o: Outcome, snd: Option<nat>)
    ensures var x := Create(w, t, d, o, snd); x.Ran? ==> Says(t, CreateSwap, d, x)
  {
  }

  lemma BroadcastSays(w: World, t: Table, d: Data, o: Outcome, snd: Option<nat>)
    ensures var x := Broadcast(w, t, d, o, snd); x.Ran? ==> Says(t, BroadcastOpeningTx, d, x)
  {
    hide FundingParams;
  }

  lemma RefundSays(w: World, t: Table, s: State, d: Data, snd: Option<nat>, o: Outcome)
    requires s.AwaitClaimPayment? || s.ClaimSwapCsv? || s.ClaimSwapCoop? || s.WaitCsv?
    ensures var x := RefundAction(w, s, d, snd, o); x.Ran? ==> Says(t, s, d, x)
  {
    hide AwaitPaymentOrCsv, AwaitCsv, Claim, Data.GetOpeningParams, Data.AmountsKnown, Data.GetChain;
  }

  lemma TakerSays(w: World, t: Table, s: State, d: Data, snd: Option<nat>, o: Outcome)
    requires s.AwaitTxBroadcastedMessage? || s.AwaitTxConfirmation? || s.ValidateTxAndPayClaimInvoice? || s.ClaimSwap?
    ensures var x := TakerAction(w, t, s, d, snd, o); x.Ran? ==> Says(t, s, d, x)
  {
    hide Claim, SetStartingHeight, AwaitConfirmation, ValidateAndPay;
  }

  lemma ExecuteSays(w: World, t: Table, s: State, d: Data, snd: Option<nat>, id: nat, o: Outcome)
    requires !s.Default?
    ensures var x := Execute(w, t, s, d, snd, id, o); x.Ran? ==> Says(t, s, d, x)
  {
    hide RefundAction, TakerAction, Create, Broadcast, PayFee;
    if s.CreateSwap? {
      CreateSays(w, t, d, o, snd);
    } else if s.BroadcastOpeningTx? {
      BroadcastSays(w, t, d, o, snd);
    } else if s.AwaitClaimPayment? || s.ClaimSwapCsv? || s.ClaimSwapCoop? || s.WaitCsv? {
      RefundSays(w, t, s, d, snd, o);
    } else if s.AwaitTxBroadcastedMessage? || s.AwaitTxConfirmation? || s.ValidateTxAndPayClaimInvoice?
              || s.ClaimSwap? {
      TakerSays(w, t, s, d, snd, o);
    } else if s.PayFeeInvoice? {
      FeeSays(w, t, d, snd, o);
    }
  }

  lemma FeeSays(w: World, t: Table, d: Data, snd: Option<nat>, o: Outcome)
    ensures var x := PayFee(w, d, o, snd); x.Ran? ==> Says(t, PayFeeInvoice, d, x)
  {
    hide CheckPremium, Data.GetChain;
  }

  /** The action of `n`, run on this machine, may end like `x` and says what it should. */
  ghost predicate ActsAndSays(w: World, s: Sys, n: State, x: Exec) {
    Acts(w, s, n, x) && Says(s.table, n, s.data, x)
  }

  lemma DispatchSays(w: World, s: Sys, o: Outcome) returns (n: State, x: Exec)
    ensures var r := ApplyDispatch(w, s, o);
            || r == s
            || (s.phase.Pending? && r == s.(phase := Idle))
            || (s.phase.Pending? && r == ApplyCrash(s))
            || (s.phase.Pending? && Next(s.table, s.current, s.phase.event) == Some(n) && ActsAndSays(w, s, n, x)
                && r == Move(s, n, x))
  {
    hide Next, Execute, Summary, Details, Says;
    n, x := Default, Panic;
    if s.phase.Pending? && Next(s.table, s.current, s.phase.event).Some? {
      n := Next(s.table, s.current, s.phase.event).value;
      NoEdgeToDefault(s.table, s.current, s.phase.event);
      ExecuteSummary(w, s.table, n, s.data, s.sender, |s.log|, o);
      ExecuteDetails(w, s.table, n, s.data, s.sender, |s.log|, o);
      ExecuteSays(w, s.table, n, s.data, s.sender, |s.log|, o);
      x := Execute(w, s.table, n, s.data, s.sender, |s.log|, o);
    }
  }

  lemma RestartSays(w: World, s: Sys, o: Outcome) returns (x: Exec)
    ensures var r := ApplyRestart(w, s, o);
            || r == s
            || (s.phase.Down? && (IsFinished(s.current) || s.current.Default?) && r == s.(phase := Idle))
            || (s.phase.Down? && FailOnRecover(s.table, s.current) && r == s.(phase := Pending(ActionFailed)))
            || (s.phase.Down? && r == ApplyCrash(s))
            || (s.phase.Down? && !FailOnRecover(s.table, s.current) && !s.current.Default?
                && ActsAndSays(w, s, s.current, x) && r == Resume(s, x))
  {
    hide Execute, Summary, Details, Says, FailOnRecover;
    x := Panic;
    if s.phase.Down? && !s.current.Default? {
      ExecuteSummary(w, s.table, s.current, s.data, s.sender, |s.log|, o);
      ExecuteDetails(w, s.table, s.current, s.data, s.sender, |s.log|, o);
      ExecuteSays(w, s.table, s.current, s.data, s.sender, |s.log|, o);
      x := Execute(w, s.table, s.current, s.data, s.sender, |s.log|, o);
    }
  }

  // ------------------------------------------------------------- the invariant

  /** Before its creation is through, a maker has no opening of its own; after it, the message
      of its state is ready. */
  predicate Prepared(t: Table, foreign: bool, c: State, d: Data) {
    && (PastCreation(c) ==> d.nextMessage == NextOf(t, foreign, c, d))
    && (IsMaker(t) && !foreign && (c.Default? || c.CreateSwap?) ==> d.openingTxBroadcasted.None?)
  }

  ghost predicate Truthful(t: Table, log: seq<Entry>, c: State, d: Data) {
    Prepared(t, Foreign(log), c, d) && SentTruly(t, log, d) && (c.Default? ==> Unsent(log))
  }

  ghost predicate Spoken(s: Sys) {
    && Truthful(s.table, s.log, s.current, s.data)
    && (s.stored.Some? ==> Truthful(s.table, s.log, s.stored.value.current, s.stored.value.data))
    && (s.current.CreateSwap? && Reported(s.phase) ==> s.data.nextMessage == FirstMessage(s.table, s.data))
    && OpeningsFunded(s.log)
  }

  lemma PreparedTells(t: Table, foreign: bool, c: State, d: Data, m: Message)
    requires NextOf(t, foreign, c, d) == Some(m)
    ensures Tells(t, d, m)
    ensures m.OpeningMessage? ==> IsMaker(t) && !foreign && d.openingTxBroadcasted == Some(m.opening)
  {
  }

  /** Nothing a message is compared with has changed. */
  predicate SameRecord(a: Data, b: Data) {
    && a.swapInRequest == b.swapInRequest && a.swapOutRequest == b.swapOutRequest && a.privkey == b.privkey
    && SameAgreements(a, b) && a.openingTxBroadcasted == b.openingTxBroadcasted
  }

  /** What was told before stays told: write-once records only grow. */
  predicate GrowsRecord(a: Data, b: Data) {
    && a.swapInRequest == b.swapInRequest && a.swapOutRequest == b.swapOutRequest && a.privkey == b.privkey
    && (a.swapInAgreement.Some? ==> a.swapInAgreement == b.swapInAgreement)
    && (a.swapOutAgreement.Some? ==> a.swapOutAgreement == b.swapOutAgreement)
    && (a.openingTxBroadcasted.Some? ==> a.openingTxBroadcasted == b.openingTxBroadcasted)
  }

  lemma TellsGrows(t: Table, log: seq<Entry>, a: Data, b: Data)
    requires SentTruly(t, log, a) && (GrowsRecord(a, b) || Unsent(log))
    ensures SentTruly(t, log, b)
  {
  }

  lemma SentAppends(t: Table, log: seq<Entry>, more: seq<Entry>, d: Data)
    ensures SentTruly(t, log, d) && SentTruly(t, more, d) ==> SentTruly(t, log + more, d)
    ensures Unsent(log) && Unsent(more) ==> Unsent(log + more)
    ensures Unsent(more) ==> SentTruly(t, more, d)
  {
    hide Tells;
    var all := log + more;
    assert forall i :: 0 <= i < |all| ==> all[i] == if i < |log| then log[i] else more[i - |log|];
  }

  /** New openings are funded by what was there before. */
  lemma FundedAppends(log: seq<Entry>, more: seq<Entry>)
    requires OpeningsFunded(log)
    requires forall i, m :: 0 <= i < |more| && IsOpening(more[i], m) ==> FundedBefore(log, |log|, m)
    ensures OpeningsFunded(log + more)
  {
    hide FundsOpening;
    var all := log + more;
    forall j: nat, m | j < |all| && IsOpening(all[j], m) ensures FundedBefore(all, j, m) {
      var end := if j < |log| then j else |log|;
      assert FundedBefore(log, end, m) by {
        if j < |log| { assert IsOpening(log[j], m); } else { assert IsOpening(more[j - |log|], m); }
      }
      var i :| 0 <= i < end && FundsOpening(log[i], m);
      assert FundsOpening(all[i], m);
    }
  }

  predicate ClosingEdge(s: State, n: Option<State>) {
    n.Some? ==> (Closing(s) && PastCreation(n.value) ==> Closing(n.value))
                && (Closing(n.value) ==> n.value.SendPrivkey? || Closing(s))
  }

  lemma SwapOutSenderClosing(s: State, e: Event)
    ensures ClosingEdge(s, SwapOutSenderNext(s, e))
  {
  }

  lemma SwapInReceiverClosing(s: State, e: Event)
    ensures ClosingEdge(s, SwapInReceiverNext(s, e))
  {
  }

  lemma ClosingEdges(t: Table, s: State, e: Event)
    requires !IsMaker(t)
    ensures ClosingEdge(s, Next(t, s, e))
  {
    hide SwapInSenderNext, SwapOutReceiverNext, SwapOutSenderNext, SwapInReceiverNext;
    if t.SwapOutSender? { SwapOutSenderClosing(s, e); } else { SwapInReceiverClosing(s, e); }
  }

  /** What an action does to the record and to the message that is ready. */
  lemma ActionRecord(w: World, s: Sys, n: State, x: Exec)
    requires ActsAndSays(w, s, n, x)
    ensures x.Ran? && Unheard(x.log)
    ensures !n.CreateSwap? ==> GrowsRecord(s.data, x.data) && SameAgreements(s.data, x.data)
    ensures !n.CreateSwap? && !n.BroadcastOpeningTx? ==> SameRecord(s.data, x.data)
    ensures n.CreateSwap? ==>
            s.data.openingTxBroadcasted == x.data.openingTxBroadcasted && s.data.swapInRequest == x.data.swapInRequest
            && s.data.swapOutRequest == x.data.swapOutRequest
    ensures !Sends(n) ==> Unsent(x.log)
    ensures Sends(n) ==> x.data.nextMessage == s.data.nextMessage
    ensures forall i :: 0 <= i < |x.log| && x.log[i].Sent? ==> s.data.nextMessage == Some(x.log[i].message)
  {
    hide SenderEffect, PaymentDetails, ClaimDetails, ConfirmationDetails, CreateDetails, FundedAs;
  }

  predicate Sends(n: State) {
    n.SendRequest? || n.SendFeeInvoice? || n.SendAgreement? || n.SendCoopClose? || n.SendTxBroadcastedMessage?
  }

  /** The message of the new state is ready once its action has run. */
  lemma ActionPrepares(w: World, s: Sys, n: State, x: Exec, foreign: bool)
    requires ActsAndSays(w, s, n, x) && !n.CreateSwap? && !n.Default? && InTable(s.table, n)
    requires foreign && IsMaker(s.table) ==> s.data.openingTxBroadcasted.Some?
    requires PastCreation(n) ==>
               && s.data.nextMessage == NextOf(s.table, foreign, s.current, s.data)
               && (!IsMaker(s.table) && Closing(n) ==> n.SendPrivkey? || Closing(s.current))
               && (!IsMaker(s.table) && Closing(s.current) ==> Closing(n))
    ensures Prepared(s.table, foreign, n, x.data)
  {
    ActionRecord(w, s, n, x);
    hide Acts;
  }

  /** Where a machine that is about to enter `n` has its message from. */
  lemma Carries(s: Sys, n: State)
    requires Spoken(s) && InSync(s) && Holds(s) && s.phase.Pending?
    requires Next(s.table, s.current, s.phase.event) == Some(n) && PastCreation(n)
    ensures s.data.nextMessage == NextOf(s.table, Foreign(s.log), s.current, s.data)
    ensures n.CreateSwap? ==> s.current.Default?
  {
    EdgesSupply(s.table, s.current, s.phase.event);
    hide Next, OpeningsFunded, SentTruly, Foreign, Ready;
  }

  /** A new opening message goes out with its funding behind it. */
  lemma OpeningIsFunded(w: World, t: Table, log: seq<Entry>, c: State, d: Data, m: Opening)
    requires Sourced(w, t, log, c, d) && IsMaker(t) && !Foreign(log) && d.openingTxBroadcasted == Some(m)
    ensures FundedBefore(log, |log|, m)
  {
    hide Strayed, Foreign, MakerKey;
    var i :| 0 <= i < |log| && log[i].Funded? && Funds(w, d, log[i]);
    assert FundsOpening(log[i], m);
  }

  /** The history after an action: what it sent is true of the data before and after it, and an
      opening it announced was funded before. */
  lemma ActionSends(w: World, s: Sys, n: State, x: Exec)
    requires ActsAndSays(w, s, n, x) && !n.CreateSwap? && Sourced(w, s.table, s.log, s.current, s.data)
    requires Sends(n) ==> Prepared(s.table, Foreign(s.log), n, x.data)
    ensures SentTruly(s.table, x.log, s.data) && SentTruly(s.table, x.log, x.data)
    ensures forall i, m :: 0 <= i < |x.log| && IsOpening(x.log[i], m) ==> FundedBefore(s.log, |s.log|, m)
  {
    ActionRecord(w, s, n, x);
    hide Acts, Says, Sourced, Foreign, FundedBefore, NextOf;
    forall i | 0 <= i < |x.log| && x.log[i].Sent?
      ensures Tells(s.table, s.data, x.log[i].message) && Tells(s.table, x.data, x.log[i].message)
      ensures x.log[i].message.OpeningMessage? ==> FundedBefore(s.log, |s.log|, x.log[i].message.opening)
    {
      var m := x.log[i].message;
      PreparedTells(s.table, Foreign(s.log), n, x.data, m);
      if m.OpeningMessage? { OpeningIsFunded(w, s.table, s.log, s.current, s.data, m.opening); }
    }
  }

  lemma CreationTruthful(w: World, s: Sys, x: Exec, pre: seq<Entry>)
    requires ActsAndSays(w, s, CreateSwap, x) && s.current.Default? && Truthful(s.table, s.log, Default, s.data)
    requires Unheard(pre) && Unsent(pre) && OtherRequest(s.table, s.data).None?
    ensures Truthful(s.table, s.log + pre + x.log, CreateSwap, x.data)
    ensures x.event.ActionSucceeded? ==> x.data.nextMessage == FirstMessage(s.table, x.data)
    ensures Unsent(pre + x.log)
  {
    ActionRecord(w, s, CreateSwap, x);
    hide Acts, Foreign, Tells;
    var more := pre + x.log;
    assert s.log + pre + x.log == s.log + more && Unheard(more);
    HistoryGrows(s.log, more);
    SentAppends(s.table, pre, x.log, x.data);
    SentAppends(s.table, s.log, more, x.data);
  }

  /** Entering or re-running a state after creation. */
  lemma ActionTruthful(w: World, s: Sys, n: State, x: Exec, pre: seq<Entry>)
    requires ActsAndSays(w, s, n, x) && !n.CreateSwap? && !n.Default? && InTable(s.table, n)
    requires Truthful(s.table, s.log, s.current, s.data) && Sourced(w, s.table, s.log, s.current, s.data)
    requires OpeningsFunded(s.log) && Unheard(pre) && Unsent(pre)
    requires PastCreation(n) ==>
               && s.data.nextMessage == NextOf(s.table, Foreign(s.log), s.current, s.data)
               && (!IsMaker(s.table) && Closing(n) ==> n.SendPrivkey? || Closing(s.current))
               && (!IsMaker(s.table) && Closing(s.current) ==> Closing(n))
    ensures Truthful(s.table, s.log + pre + x.log, n, x.data)
    ensures SentTruly(s.table, s.log + pre + x.log, s.data) && OpeningsFunded(s.log + pre + x.log)
    ensures Foreign(s.log + pre + x.log) == Foreign(s.log)
  {
    hide ActsAndSays, Foreign, FundedBefore, NextOf, FundedAs, Tells, Prepared, MakerKey;
    ActionRecord(w, s, n, x);
    ActionPrepares(w, s, n, x, Foreign(s.log));
    ActionSends(w, s, n, x);
    var t, more := s.table, pre + x.log;
    assert s.log + pre + x.log == s.log + more && Unheard(more);
    HistoryGrows(s.log, more);
    TellsGrows(t, s.log, s.data, x.data);
    assert forall i :: 0 <= i < |more| ==> more[i] == if i < |pre| then pre[i] else x.log[i - |pre|];
    FundedAppends(s.log, more);
    hide OpeningsFunded, SentTruly, Unsent;
    forall d | d == s.data || d == x.data ensures SentTruly(t, s.log + more, d) {
      SentAppends(t, pre, pre, d);
      SentAppends(t, pre, x.log, d);
      SentAppends(t, s.log, more, d);
    }
  }

  // ------------------------------------------------------------------ steps

  lemma MoveCreates(w: World, s: Sys, x: Exec)
    requires Spoken(s) && InSync(s) && Holds(s) && s.phase.Pending? && s.current.Default?
    requires ActsAndSays(w, s, CreateSwap, x)
    ensures x.Ran? && Spoken(Move(s, CreateSwap, x))
  {
    hide ActsAndSays, Foreign, FundedBefore, Tells, Prepared;
    var pre, t := [Moved(s.current, CreateSwap, s.phase.event)], s.table;
    ActionRecord(w, s, CreateSwap, x);
    CreationTruthful(w, s, x, pre);
    var more := pre + x.log;
    assert s.log + pre + x.log == s.log + more && Unheard(more);
    HistoryGrows(s.log, more);
    SentAppends(t, s.log, more, s.data);
    FundedAppends(s.log, more);
  }

  lemma MoveSpoken(w: World, s: Sys, n: State, x: Exec)
    requires Spoken(s) && Provenance(w, s) && InSync(s) && Holds(s) && s.phase.Pending?
    requires Next(s.table, s.current, s.phase.event) == Some(n) && ActsAndSays(w, s, n, x)
    ensures x.Ran? && Spoken(Move(s, n, x))
  {
    hide ActsAndSays, Next, Foreign, FundedBefore, NextOf, Tells, Ready, Sourced, SentTruly, OpeningsFunded, Prepared;
    var e, pre := s.phase.event, [Moved(s.current, n, s.phase.event)];
    EdgesSupply(s.table, s.current, e);
    TablesAreClosed(s.table, s.current, e);
    NoEdgeToDefault(s.table, s.current, e);
    if n.CreateSwap? {
      MoveCreates(w, s, x);
    } else {
      if PastCreation(n) { Carries(s, n); }
      if !IsMaker(s.table) { ClosingEdges(s.table, s.current, e); }
      ActionRecord(w, s, n, x);
      ActionTruthful(w, s, n, x, pre);
      SentAppends(s.table, pre, x.log, s.data);
      SentAppends(s.table, s.log, pre + x.log, s.data);
      assert s.log + pre + x.log == s.log + (pre + x.log);
    }
  }

  lemma ResumeSpoken(w: World, s: Sys, x: Exec)
    requires Spoken(s) && Provenance(w, s) && InSync(s) && Holds(s) && s.phase.Down? && s.stored.Some?
    requires ActsAndSays(w, s, s.current, x) && !s.current.Default? && !s.current.CreateSwap?
    ensures x.Ran? && Spoken(Resume(s, x))
  {
    hide Foreign, FundedBefore, NextOf, Tells, Ready, Sourced, SentTruly, OpeningsFunded, Says, Summary, Details;
    ActionTruthful(w, s, s.current, x, []);
    assert s.log + [] + x.log == s.log + x.log;
  }

  lemma CrashSpoken(s: Sys)
    requires Spoken(s)
    ensures Spoken(ApplyCrash(s))
  {
    hide Foreign, Tells, NextOf;
    if s.stored.Some? {
      var more := [CrashEntry(s, s.stored.value)];
      HistoryGrows(s.log, more);
      SentAppends(s.table, s.log, more, s.stored.value.data);
      FundedAppends(s.log, more);
      hide SentTruly, Unsent, OpeningsFunded;
    }
  }

  lemma CreationFails(t: Table)
    ensures FailOnRecover(t, CreateSwap)
  {
  }

  lemma DispatchSpoken(w: World, s: Sys, o: Outcome)
    requires Spoken(s) && Provenance(w, s) && InSync(s) && Holds(s)
    ensures Spoken(ApplyDispatch(w, s, o))
  {
    hide ApplyCrash, ApplyDispatch, Move, ActsAndSays, Next, Holds, Truthful, OpeningsFunded, Provenance;
    CrashSpoken(s);
    var n, x := DispatchSays(w, s, o);
    if s.phase.Pending? && Next(s.table, s.current, s.phase.event) == Some(n) && ActsAndSays(w, s, n, x) {
      MoveSpoken(w, s, n, x);
    }
  }

  lemma RestartSpoken(w: World, s: Sys, o: Outcome)
    requires Spoken(s) && Provenance(w, s) && InSync(s) && Holds(s)
    ensures Spoken(ApplyRestart(w, s, o))
  {
    hide ApplyCrash, ApplyRestart, Resume, ActsAndSays, Holds, Truthful, OpeningsFunded, Provenance, FailOnRecover;
    CrashSpoken(s);
    CreationFails(s.table);
    var x := RestartSays(w, s, o);
    if s.phase.Down? && s.stored.Some? && !s.current.Default? && !s.current.CreateSwap?
       && ActsAndSays(w, s, s.current, x) {
      ResumeSpoken(w, s, x);
    }
  }

  /** An input leaves the message that is ready as it is, and it stays the right one. */
  lemma HeardPrepared(t: Table, foreign: bool, c: State, d: Data, i: Input)
    requires Prepared(t, foreign, c, d) && InTable(t, c) && Ready(t, c, d) && ApplyInput(d, i).Some?
    ensures Prepared(t, foreign || i.OpeningReceived?, c, ApplyInput(d, i).value)
  {
    InputOpens(d, i);
    hide ApplyInput, InputLog, EventOf, Foreign, Strayed, FirstMessage;
    if PastCreation(c) { FirstStays(t, c, d, ApplyInput(d, i).value); }
    hide Ready, InTable;
  }

  lemma FirstStays(t: Table, c: State, d: Data, e: Data)
    requires PastCreation(c) && InTable(t, c) && Ready(t, c, d) && Grows(d, e)
    ensures FirstMessage(t, e) == FirstMessage(t, d)
  {
  }

  lemma HeardTruthful(t: Table, log: seq<Entry>, c: State, d: Data, i: Input)
    requires Truthful(t, log, c, d) && InTable(t, c) && Ready(t, c, d) && ApplyInput(d, i).Some?
    ensures Truthful(t, log + InputLog(i), c, ApplyInput(d, i).value)
  {
    InputOpens(d, i);
    var e, more := ApplyInput(d, i).value, InputLog(i);
    assert Unsent(more);
    hide Foreign, Strayed, ApplyInput, InputLog, Tells, Prepared, InTable, Ready;
    HeardPrepared(t, Foreign(log), c, d, i);
    HistoryGrows(log, more);
    Appended(log, more);
    TellsGrowsBy(t, log, d, e);
    SentAppends(t, log, more, e);
    hide SentTruly, Unsent, Grows;
  }

  lemma TellsGrowsBy(t: Table, log: seq<Entry>, d: Data, e: Data)
    requires SentTruly(t, log, d) && Grows(d, e)
    ensures SentTruly(t, log, e)
  {
    TellsGrows(t, log, d, e);
  }

  lemma DeliverSpoken(s: Sys, i: Input)
    requires Spoken(s) && InSync(s) && Holds(s)
    ensures Spoken(ApplyDeliver(s, i))
  {
    hide ApplyInput, ValidInput, EventOf, Truthful, InputLog, Ready;
    if s.phase.Idle? && s.stored.Some? && ApplyInput(s.data, i).Some? {
      InputOpens(s.data, i);
      HeardTruthful(s.table, s.log, s.current, s.data, i);
      InputFunds(s.log, i);
      hide OpeningsFunded;
    }
  }

  lemma InputFunds(log: seq<Entry>, i: Input)
    requires OpeningsFunded(log)
    ensures OpeningsFunded(log + InputLog(i))
  {
    hide FundedBefore;
    FundedAppends(log, InputLog(i));
  }

  lemma PersistSpoken(s: Sys)
    requires Spoken(s) && InSync(s)
    ensures Spoken(ApplyPersist(s))
  {
    hide Truthful, OpeningsFunded;
  }

  lemma StartSpoken(w: World, s: Sys, r: Request)
    requires Spoken(s) && InSync(s)
    ensures Spoken(ApplyStart(w, s, r))
  {
    hide ValidRequest, Foreign, OpeningsFunded, Tells;
  }

  lemma StepSpoken(w: World, s: Sys, l: Label)
    requires Spoken(s) && Provenance(w, s) && InSync(s) && Holds(s)
    ensures Spoken(Apply(w, s, l))
  {
    hide Provenance, Spoken, Holds;
    match l
    case Start(r) => hide ApplyStart; StartSpoken(w, s, r);
    case Deliver(i) => hide ApplyDeliver; DeliverSpoken(s, i);
    case Dispatch(o) => hide ApplyDispatch; DispatchSpoken(w, s, o);
    case Persist => hide ApplyPersist; PersistSpoken(s);
    case Crash => hide ApplyCrash; CrashSpoken(s);
    case Restart(o) => hide ApplyRestart; RestartSpoken(w, s, o);
  }

  lemma {:induction false} AlwaysSpoken(w: World, t: Table, key: Bytes, labels: seq<Label>)
    ensures Spoken(Run(w, New(t, key), labels))
  {
    if labels != [] {
      var before := labels[..|labels| - 1];
      AlwaysSpoken(w, t, key, before);
      AlwaysProvenance(w, t, key, before);
      AlwaysInSync(w, t, key, before);
      AlwaysHolds(w, t, key, before);
      hide Apply, Holds, InSync, Provenance, Spoken;
      StepSpoken(w, Run(w, New(t, key), before), labels[|labels| - 1]);
    }
  }

  // ------------------------------------------------------------ main results

  /** On every run, crashes included: each request, agreement, opening and key that was sent is
      the one the machine has on record, in memory and in the store; it comes from a machine whose
      part it is to send it; and each opening was funded before it was announced, with a usable
      output under its transaction id and its blinding key. */
  lemma {:induction false} SentMessagesAreOnRecord(w: World, t: Table, key: Bytes, labels: seq<Label>)
    ensures var s := Run(w, New(t, key), labels);
            && SentTruly(t, s.log, s.data)
            && (s.stored.Some? ==> SentTruly(t, s.log, s.stored.value.data))
            && OpeningsFunded(s.log)
  {
    AlwaysSpoken(w, t, key, labels);
    Progress.TableIsFixed(w, New(t, key), labels);
    hide Run;
  }

  /** A sending state is entered with its own message ready: only a maker that accepted a foreign
      opening repeats its first message when it should announce one. */
  lemma ReadyToSend(w: World, s: Sys, n: State)
    requires Spoken(s) && Provenance(w, s) && InSync(s) && Holds(s) && s.phase.Pending?
    requires Next(s.table, s.current, s.phase.event) == Some(n) && Sends(n)
    ensures var m := s.data.nextMessage;
            && m.Some?
            && (n.SendRequest? ==> Initiates(s.table) && Some(m.value) == FirstMessage(s.table, s.data))
            && (n.SendFeeInvoice? || n.SendAgreement? ==>
                  !Initiates(s.table) && Some(m.value) == FirstMessage(s.table, s.data))
            && (n.SendCoopClose? ==> m.value == CoopCloseMessage(s.data.privkey))
            && (n.SendTxBroadcastedMessage? ==>
                  && s.data.openingTxBroadcasted.Some?
                  && (if Foreign(s.log) then Some(m.value) == FirstMessage(s.table, s.data)
                      else m.value == OpeningMessage(s.data.openingTxBroadcasted.value)))
  {
    var e := s.phase.event;
    EdgesSupply(s.table, s.current, e);
    TablesAreClosed(s.table, s.current, e);
    SendingEdges(s.table, s.current, e);
    Carries(s, n);
    if !IsMaker(s.table) { ClosingEdges(s.table, s.current, e); }
    Entering(s.table, s.current, e, n, s.data);
    hide Next, Foreign, SentTruly, OpeningsFunded, Sourced, Unsent;
  }

  predicate SendingEdge(maker: bool, s: State, n: Option<State>) {
    n.Some? ==>
      && (n.value.SendRequest? || n.value.SendFeeInvoice? || n.value.SendAgreement? ==> s.CreateSwap?)
      && (n.value.SendTxBroadcastedMessage? ==> maker && s.BroadcastOpeningTx?)
      && (n.value.SendCoopClose? ==> !maker && s.SendPrivkey?)
  }

  lemma MakerSendingEdges(s: State, e: Event)
    ensures SendingEdge(true, s, SwapInSenderNext(s, e)) && SendingEdge(true, s, SwapOutReceiverNext(s, e))
  {
    assert SendingEdge(true, s, MakerNext(s, e));
    hide MakerNext;
  }

  lemma SwapOutSenderSendingEdges(s: State, e: Event)
    ensures SendingEdge(false, s, SwapOutSenderNext(s, e))
  {
  }

  lemma SwapInReceiverSendingEdges(s: State, e: Event)
    ensures SendingEdge(false, s, SwapInReceiverNext(s, e))
  {
  }

  lemma SendingEdges(t: Table, s: State, e: Event)
    ensures SendingEdge(IsMaker(t), s, Next(t, s, e))
  {
    hide SwapInSenderNext, SwapOutReceiverNext, SwapOutSenderNext, SwapInReceiverNext;
    MakerSendingEdges(s, e);
    SwapOutSenderSendingEdges(s, e);
    SwapInReceiverSendingEdges(s, e);
  }

  lemma SendingRuns(w: World, t: Table, n: State, d: Data, snd: Option<nat>, id: nat, o: Outcome)
    requires Sends(n) && d.nextMessage.Some?
    ensures Execute(w, t, n, d, snd, id, o)
            == if n.SendTxBroadcastedMessage? then SendWithRetry(d, snd, id) else SendMessage(d, o, snd)
  {
    hide Create, PayFee, Broadcast, RefundAction, TakerAction;
  }

  /** Entering a sending state sends the one message of that state, on every run: the request on
      record, the agreement on record, the opening on record, or the key of the swap. Only a maker
      that accepted a foreign opening repeats its first message where it should announce one. */
  lemma {:induction false} SendsExactly(w: World, t: Table, key: Bytes, labels: seq<Label>, n: State, o: Outcome)
    requires Sends(n)
    requires var s := Run(w, New(t, key), labels); s.phase.Pending? && Next(t, s.current, s.phase.event) == Some(n)
    ensures var s := Run(w, New(t, key), labels);
            var m := s.data.nextMessage;
            && m.Some?
            && (n.SendRequest? ==> m.value.RequestMessage? && OwnRequest(t, s.data) == Some(m.value.request))
            && (n.SendFeeInvoice? || n.SendAgreement? ==>
                  m.value.AgreementMessage? && OwnAgreement(t, s.data) == Some(m.value.agreement))
            && (n.SendCoopClose? ==> m.value == CoopCloseMessage(key))
            && (n.SendTxBroadcastedMessage? && !Foreign(s.log) ==>
                  m.value.OpeningMessage? && s.data.openingTxBroadcasted == Some(m.value.opening))
            && Apply(w, s, Dispatch(o)).log
               == s.log + [Moved(s.current, n, s.phase.event)]
                  + (if n.SendTxBroadcastedMessage? then [Registered(|s.log|), Sent(m.value)] else [Sent(m.value)])
  {
    var s := Run(w, New(t, key), labels);
    AlwaysSpoken(w, t, key, labels);
    AlwaysProvenance(w, t, key, labels);
    AlwaysInSync(w, t, key, labels);
    AlwaysHolds(w, t, key, labels);
    Spending.AlwaysSenders(w, t, key, labels);
    KeyIsFixed(w, t, key, labels);
    Progress.TableIsFixed(w, New(t, key), labels);
    hide Run, Next, Spoken, Provenance, InSync, Holds, Foreign, Execute, Spending.SendersCounted;
    ReadyToSend(w, s, n);
    SendingEdges(t, s.current, s.phase.event);
    SenderFree(s, n);
    SendingRuns(w, t, n, s.data, s.sender, |s.log|, o);
  }

  lemma SenderFree(s: Sys, n: State)
    requires Spending.SendersCounted(s) && SendingEdge(IsMaker(s.table), s.current, Some(n))
    ensures n.SendTxBroadcastedMessage? ==> s.sender.None?
  {
  }
}
