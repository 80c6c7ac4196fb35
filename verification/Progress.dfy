/** A machine's life is short: however many messages and events arrive, it changes state
    only a few times, and every `SendEvent` terminates. */
module Progress {
  import opened Base
  import opened SwapData
  import opened States
  import opened Actions
  import opened Effects
  import opened Fsm

  /** The longest way to a finished state, not counting retries and, for a maker, the one
      detour from `WaitCsv` over `ClaimSwapCoop` that a coop close message pays for. */
  function Rank(t: Table, s: State): nat {
    match s
    case SwapCanceled | ClaimedPreimage | ClaimedCsv | ClaimedCoop => 0
    case SendCancel | ClaimSwapCsv => 1
    case WaitCsv | SendCoopClose => 2
    case AwaitClaimPayment | ClaimSwapCoop | SendPrivkey => 3
    case SendTxBroadcastedMessage => 4
    case BroadcastOpeningTx => 5
    case AwaitFeeInvoicePayment => 6
    case SendFeeInvoice => 7
    case ClaimSwap => if t.SwapOutSender? then 4 else 1
    case ValidateTxAndPayClaimInvoice => if t.SwapOutSender? then 5 else 4
    case AwaitTxConfirmation => if t.SwapOutSender? then 6 else 5
    case AwaitTxBroadcastedMessage => if t.SwapOutSender? then 7 else 6
    case PayFeeInvoice => 8
    case SendAgreement => 7
    case AwaitAgreement => if t.SwapOutSender? then 9 else 6
    case SendRequest => if t.SwapOutSender? then 10 else 7
    case CreateSwap => if t.SwapOutSender? then 11 else 8
    case Default => if t.SwapOutSender? then 12 else 9
  }

  const COOP_DETOUR := 2

  /** State changes a machine of this table can make without crashing. */
  function Budget(t: Table): nat {
    match t
    case SwapInSender => 11
    case SwapOutReceiver => 11
    case SwapOutSender => 12
    case SwapInReceiver => 9
  }

  predicate Descends(t: Table, s: State, e: Event, n: Option<State>) {
    n.Some? ==>
      if e.OnRetry? then n.value == s
      else Rank(t, n.value) < Rank(t, s) + (if IsMaker(t) && e.OnCoopCloseReceived? then COOP_DETOUR else 0)
  }

  lemma MakerDescends(t: Table, s: State, e: Event)
    requires IsMaker(t)
    ensures Descends(t, s, e, MakerNext(s, e))
  {
  }

  lemma TakerDescends(t: Table, s: State, e: Event)
    requires !IsMaker(t)
    ensures Descends(t, s, e, TakerNext(t, s, e))
  {
  }

  lemma SwapInSenderDescends(s: State, e: Event)
    requires InTable(SwapInSender, s) && !s.SendCancel?
    ensures Descends(SwapInSender, s, e, SwapInSenderNext(s, e))
  {
    hide MakerNext;
    MakerDescends(SwapInSender, s, e);
  }

  lemma SwapOutReceiverDescends(s: State, e: Event)
    requires InTable(SwapOutReceiver, s) && !s.SendCancel?
    ensures Descends(SwapOutReceiver, s, e, SwapOutReceiverNext(s, e))
  {
    hide MakerNext;
    MakerDescends(SwapOutReceiver, s, e);
  }

  lemma SwapOutSenderDescends(s: State, e: Event)
    requires InTable(SwapOutSender, s) && !s.SendCancel?
    ensures Descends(SwapOutSender, s, e, SwapOutSenderNext(s, e))
  {
    hide TakerNext;
    TakerDescends(SwapOutSender, s, e);
  }

  lemma SwapInReceiverDescends(s: State, e: Event)
    requires InTable(SwapInReceiver, s) && !s.SendCancel?
    ensures Descends(SwapInReceiver, s, e, SwapInReceiverNext(s, e))
  {
    hide TakerNext;
    TakerDescends(SwapInReceiver, s, e);
  }

  /** Every edge other than a retry goes down in rank, except that a coop close message may
      lead back up by less than the detour it is worth. A retry stays where it is. */
  lemma EdgesDescend(t: Table, s: State, e: Event)
    requires InTable(t, s)
    ensures Descends(t, s, e, Next(t, s, e))
  {
    if !s.SendCancel? {
      match t
      case SwapInSender => SwapInSenderDescends(s, e);
      case SwapOutReceiver => SwapOutReceiverDescends(s, e);
      case SwapOutSender => SwapOutSenderDescends(s, e);
      case SwapInReceiver => SwapInReceiverDescends(s, e);
    }
    hide SwapInSenderNext, SwapOutReceiverNext, SwapOutSenderNext, SwapInReceiverNext;
  }

  predicate IsMove(e: Entry) { e.Moved? && !e.event.OnRetry? }

  predicate IsCrash(e: Entry) { e.Crashed? }

  /** What is left of the budget: the rank, and the detour while the one coop close message
      has not been used up. */
  function Left(s: Sys): nat {
    Rank(s.table, s.current)
    + (if IsMaker(s.table) && (s.data.coopClose.None? || s.phase == Pending(OnCoopCloseReceived))
       then COOP_DETOUR else 0)
  }

  ghost predicate WithinBudget(s: Sys) {
    && InTable(s.table, s.current)
    && (s.stored.Some? ==> InTable(s.table, s.stored.value.current))
    && (s.phase == Pending(OnCoopCloseReceived) ==> s.data.coopClose.Some?)
    && Count(s.log, IsMove) + Left(s) <= Allowance(s.table, Count(s.log, IsCrash))
    && (s.stored.Some? ==>
          Count(s.log, IsMove) + LeftInStore(s.table, s.stored.value) <= Allowance(s.table, Count(s.log, IsCrash)) + 1)
  }

  /** The same for a stored snapshot, which is at most one move behind. */
  function LeftInStore(t: Table, snap: Snapshot): nat {
    Rank(t, snap.current) + (if IsMaker(t) && snap.data.coopClose.None? then COOP_DETOUR else 0)
  }

  /** The budget, and one more move for every crash, which undoes at most one. */
  function Allowance(t: Table, crashes: nat): nat {
    Budget(t) + crashes
  }

  lemma RankWithinBudget(t: Table, s: State)
    requires InTable(t, s)
    ensures Rank(t, s) + (if IsMaker(t) then COOP_DETOUR else 0) <= Budget(t)
  {
  }

  lemma QuietLog(log: seq<Entry>, more: seq<Entry>)
    requires forall i :: 0 <= i < |more| ==> !more[i].Moved? && !more[i].Crashed?
    ensures Count(log + more, IsMove) == Count(log, IsMove)
    ensures Count(log + more, IsCrash) == Count(log, IsCrash)
  {
    CountAppend(log, more, IsMove);
    CountAppend(log, more, IsCrash);
    CountNone(more, IsMove);
    CountNone(more, IsCrash);
  }

  lemma CrashWithinBudget(s: Sys)
    requires WithinBudget(s) && InSync(s)
    ensures WithinBudget(ApplyCrash(s))
  {
    if s.stored.Some? {
      var c := ApplyCrash(s);
      var entry := [c.log[|c.log| - 1]];
      CountAppend(s.log, entry, IsMove);
      CountAppend(s.log, entry, IsCrash);
      CountsOne(entry[0]);
      hide Rank, Budget, Count;
    }
  }

  lemma MoveWithinBudget(w: World, s: Sys, n: State, x: Exec)
    requires WithinBudget(s) && InSync(s) && s.phase.Pending? && x.Ran?
    requires Next(s.table, s.current, s.phase.event) == Some(n) && Acts(w, s, n, x)
    ensures WithinBudget(Move(s, n, x))
  {
    hide Next, Rank, Allowance, Acts, Count;
    var e := s.phase.event;
    TablesAreClosed(s.table, s.current, e);
    EdgesDescend(s.table, s.current, e);
    ActionIsQuiet(w, s, n, x);
    var move := [Moved(s.current, n, e)];
    CountAppend(s.log, move, IsMove);
    CountAppend(s.log, move, IsCrash);
    CountsOne(move[0]);
    QuietLog(s.log + move, x.log);
  }

  lemma CountsOne(e: Entry)
    ensures Count([e], IsMove) == (if IsMove(e) then 1 else 0)
    ensures Count([e], IsCrash) == (if IsCrash(e) then 1 else 0)
  {
    assert [e][..0] == [];
  }

  /** No action logs a move or a crash, or touches the coop close message. */
  lemma ActionIsQuiet(w: World, s: Sys, n: State, x: Exec)
    requires Acts(w, s, n, x)
    ensures x.Ran? && x.data.coopClose == s.data.coopClose
    ensures forall i :: 0 <= i < |x.log| ==> !x.log[i].Moved? && !x.log[i].Crashed?
    ensures !x.event.OnCoopCloseReceived?
  {
    hide Details, SenderEffect;
  }

  lemma DeliverWithinBudget(s: Sys, i: Input)
    requires WithinBudget(s) && InSync(s)
    ensures WithinBudget(ApplyDeliver(s, i))
  {
    hide Rank, Allowance, Count, ApplyInput, EventOf, ValidInput;
    QuietLog(s.log, InputLog(i));
    hide InputLog;
    if ApplyInput(s.data, i).Some? { InputCoop(s.data, i); }
  }

  lemma InputCoop(d: Data, i: Input)
    requires ApplyInput(d, i).Some?
    ensures var e := ApplyInput(d, i).value;
            if EventOf(i).OnCoopCloseReceived? then d.coopClose.None? && e.coopClose.Some?
            else e.coopClose == d.coopClose
  {
  }

  lemma StartAndPersistWithinBudget(w: World, s: Sys, r: Request)
    requires WithinBudget(s) && InSync(s)
    ensures WithinBudget(ApplyStart(w, s, r)) && WithinBudget(ApplyPersist(s))
  {
    hide Rank, Allowance;
  }

  lemma DispatchWithinBudget(w: World, s: Sys, o: Outcome)
    requires WithinBudget(s) && InSync(s)
    ensures WithinBudget(ApplyDispatch(w, s, o))
  {
    CrashWithinBudget(s);
    var n, x := DispatchCases(w, s, o);
    if s.phase.Pending? && Next(s.table, s.current, s.phase.event) == Some(n) && Acts(w, s, n, x) {
      MoveWithinBudget(w, s, n, x);
    }
    hide Rank, Allowance, Next, Acts, Move, ApplyDispatch, ApplyCrash;
  }

  lemma RestartWithinBudget(w: World, s: Sys, o: Outcome)
    requires WithinBudget(s) && InSync(s)
    ensures WithinBudget(ApplyRestart(w, s, o))
  {
    hide Rank, Allowance, ApplyRestart, ApplyCrash, Summary, Details, Count;
    CrashWithinBudget(s);
    var x := RestartCases(w, s, o);
    if Acts(w, s, s.current, x) {
      ActionIsQuiet(w, s, s.current, x);
      QuietLog(s.log, x.log);
    }
  }

  lemma StepWithinBudget(w: World, s: Sys, l: Label)
    requires WithinBudget(s) && InSync(s)
    ensures WithinBudget(Apply(w, s, l))
  {
    match l
    case Start(r) => StartAndPersistWithinBudget(w, s, r);
    case Deliver(i) => DeliverWithinBudget(s, i);
    case Dispatch(o) => DispatchWithinBudget(w, s, o);
    case Persist => StartAndPersistWithinBudget(w, s, Request(0, "", [], "", 0, [], 0));
    case Crash => CrashWithinBudget(s);
    case Restart(o) => RestartWithinBudget(w, s, o);
    hide WithinBudget, ApplyStart, ApplyDeliver, ApplyDispatch, ApplyPersist, ApplyCrash, ApplyRestart;
  }

  lemma {:induction false} AlwaysWithinBudget(w: World, t: Table, key: Bytes, labels: seq<Label>)
    ensures WithinBudget(Run(w, New(t, key), labels))
  {
    if labels == [] {
      RankWithinBudget(t, Default);
    } else {
      var before := labels[..|labels| - 1];
      AlwaysWithinBudget(w, t, key, before);
      AlwaysInSync(w, t, key, before);
      StepWithinBudget(w, Run(w, New(t, key), before), labels[|labels| - 1]);
    }
    hide Apply;
  }

  /** Over a whole life, whatever arrives, the state changes other than retries number at
      most the table's budget, and one more for every crash. */
  lemma {:induction false} StateChangesAreBounded(w: World, t: Table, key: Bytes, labels: seq<Label>)
    ensures var log := Run(w, New(t, key), labels).log;
            Count(log, IsMove) <= (if IsMaker(t) then 11 else if t.SwapOutSender? then 12 else 9) + Count(log, IsCrash)
  {
    AlwaysWithinBudget(w, t, key, labels);
    TableIsFixed(w, New(t, key), labels);
    hide Apply;
  }

  lemma {:induction false} TableIsFixed(w: World, s: Sys, labels: seq<Label>)
    ensures Run(w, s, labels).table == s.table
  {
    if labels != [] {
      TableIsFixed(w, s, labels[..|labels| - 1]);
      hide Next, Execute;
    }
  }

  // -------------------------------------------------------- finished is final

  predicate Over(s: Sys) {
    IsFinished(s.current) && s.stored.Some? && s.stored.value.current == s.current
  }

  lemma StepOver(w: World, s: Sys, l: Label)
    requires Over(s) && InTable(s.table, s.current)
    ensures Over(Apply(w, s, l)) && Apply(w, s, l).current == s.current
  {
    if s.phase.Pending? { TablesAreClosed(s.table, s.current, s.phase.event); }
    hide Next, Execute, ApplyInput;
  }

  /** A finished swap at rest stays in its final state, whatever arrives and however often
      the process restarts. */
  lemma {:induction false} FinishedIsAbsorbing(w: World, s: Sys, labels: seq<Label>)
    requires Over(s) && InTable(s.table, s.current)
    ensures var r := Run(w, s, labels); Over(r) && r.current == s.current
  {
    if labels != [] {
      FinishedIsAbsorbing(w, s, labels[..|labels| - 1]);
      TableIsFixed(w, s, labels[..|labels| - 1]);
      StepOver(w, Run(w, s, labels[..|labels| - 1]), labels[|labels| - 1]);
    }
    hide Apply;
  }

  // ------------------------------------------------------ one cooperative close

  predicate IsCoopMove(e: Entry) { e.Moved? && e.to.ClaimSwapCoop? }

  /** The coop close message is the same in memory and in the store, and each move into
      `ClaimSwapCoop` has used it up. */
  ghost predicate CoopCounted(s: Sys) {
    && (s.stored.Some? ==> s.stored.value.data.coopClose == s.data.coopClose)
    && Count(s.log, IsCoopMove)
       + (if s.data.coopClose.None? || s.phase == Pending(OnCoopCloseReceived) then 1 else 0) <= 1
    && (s.phase == Pending(OnCoopCloseReceived) ==> s.data.coopClose.Some?)
  }

  lemma SwapInSenderCoop(s: State, e: Event)
    requires !s.SendCancel?
    ensures SwapInSenderNext(s, e) == Some(ClaimSwapCoop) ==> e.OnCoopCloseReceived?
  {
  }

  lemma SwapOutReceiverCoop(s: State, e: Event)
    requires !s.SendCancel?
    ensures SwapOutReceiverNext(s, e) == Some(ClaimSwapCoop) ==> e.OnCoopCloseReceived?
  {
  }

  lemma CoopEdges(t: Table, s: State, e: Event)
    requires IsMaker(t)
    ensures Next(t, s, e) == Some(ClaimSwapCoop) ==> e.OnCoopCloseReceived?
  {
    hide SwapInSenderNext, SwapOutReceiverNext, SwapOutSenderNext, SwapInReceiverNext;
    if !s.SendCancel? {
      if t.SwapInSender? { SwapInSenderCoop(s, e); } else { SwapOutReceiverCoop(s, e); }
    }
  }

  lemma QuietCoop(log: seq<Entry>, more: seq<Entry>)
    requires forall i :: 0 <= i < |more| ==> !IsCoopMove(more[i])
    ensures Count(log + more, IsCoopMove) == Count(log, IsCoopMove)
  {
    CountAppend(log, more, IsCoopMove);
    CountNone(more, IsCoopMove);
  }

  lemma DispatchCoop(w: World, s: Sys, o: Outcome)
    requires CoopCounted(s) && InSync(s) && IsMaker(s.table)
    ensures CoopCounted(ApplyDispatch(w, s, o))
  {
    hide ApplyDispatch, Next, Summary, Details, Count;
    CrashCoop(s);
    var n, x := DispatchCases(w, s, o);
    if s.phase.Pending? && Acts(w, s, n, x) {
      var move := [Moved(s.current, n, s.phase.event)];
      CoopEdges(s.table, s.current, s.phase.event);
      ActionIsQuiet(w, s, n, x);
      CountAppend(s.log, move, IsCoopMove);
      CountsOneCoop(move[0]);
      QuietCoop(s.log + move, x.log);
    }
    hide ApplyCrash;
  }

  lemma CountsOneCoop(e: Entry)
    ensures Count([e], IsCoopMove) == if IsCoopMove(e) then 1 else 0
  {
    assert [e][..0] == [];
  }

  lemma CrashCoop(s: Sys)
    requires CoopCounted(s)
    ensures CoopCounted(ApplyCrash(s))
  {
    if s.stored.Some? { QuietCoop(s.log, [CrashEntry(s, s.stored.value)]); }
  }

  lemma RestartCoop(w: World, s: Sys, o: Outcome)
    requires CoopCounted(s) && InSync(s)
    ensures CoopCounted(ApplyRestart(w, s, o))
  {
    hide ApplyRestart, Summary, Details, Count;
    CrashCoop(s);
    var x := RestartCases(w, s, o);
    if Acts(w, s, s.current, x) {
      ActionIsQuiet(w, s, s.current, x);
      QuietCoop(s.log, x.log);
    }
    hide ApplyCrash;
  }

  lemma DeliverCoop(s: Sys, i: Input)
    requires CoopCounted(s) && InSync(s)
    ensures CoopCounted(ApplyDeliver(s, i))
  {
    hide Count, ValidInput;
    QuietCoop(s.log, InputLog(i));
  }

  lemma StepCoop(w: World, s: Sys, l: Label)
    requires CoopCounted(s) && InSync(s) && IsMaker(s.table)
    ensures CoopCounted(Apply(w, s, l))
  {
    hide Count;
    match l
    case Start(r) => hide ValidRequest;
    case Deliver(i) => hide ApplyDeliver, CoopCounted; DeliverCoop(s, i);
    case Dispatch(o) => hide ApplyDispatch, CoopCounted; DispatchCoop(w, s, o);
    case Persist =>
    case Crash => hide ApplyCrash, CoopCounted; CrashCoop(s);
    case Restart(o) => hide ApplyRestart, CoopCounted; RestartCoop(w, s, o);
  }

  /** On every maker run, crashes included, `ClaimSwapCoop` is entered at most once: the coop
      close message is written once and stored before its event is handled. */
  lemma {:induction false} CoopIsTriedOnce(w: World, t: Table, key: Bytes, labels: seq<Label>)
    requires IsMaker(t)
    ensures var s := Run(w, New(t, key), labels); CoopCounted(s) && Count(s.log, IsCoopMove) <= 1
  {
    if labels != [] {
      var before := labels[..|labels| - 1];
      CoopIsTriedOnce(w, t, key, before);
      AlwaysInSync(w, t, key, before);
      TableIsFixed(w, New(t, key), before);
      hide Apply, InSync;
      StepCoop(w, Run(w, New(t, key), before), labels[|labels| - 1]);
    }
  }
}
