/** A swap machine with its stored snapshot as a transition system (swap/fsm.go). One
    `SendEvent` is a delivery followed by rounds of dispatch and persist; a crash can hit
    between any two of these steps and is followed by `Recover`. */
module Fsm {
  import opened Base
  import opened SwapData
  import opened States
  import opened Actions
  import opened Effects

  /** Where the machine's thread is. */
  datatype Phase =
    | Idle                      // no event is being handled
    | Pending(event: Event)     // head of the loop, before the event is looked up
    | Executed(event: Event)    // the action ran, its result is not stored yet
    | Recovered(event: Event)   // as Executed, but run by Recover
    | Down                      // the process died; only the snapshot is left

  datatype Snapshot = Snapshot(current: State, data: Data)

  datatype Sys = Sys(
    table: Table,
    current: State,
    data: Data,
    retries: nat,
    sender: Option<nat>,
    stored: Option<Snapshot>,
    phase: Phase,
    log: seq<Entry>)

  datatype Label =
    | Start(request: Request)
    | Deliver(input: Input)
    | Dispatch(outcome: Outcome)
    | Persist
    | Crash
    | Restart(outcome: Outcome)

  const MAX_RETRIES := 20

  function New(t: Table, privkey: Bytes): Sys {
    Sys(t, Default, NewData(privkey), 0, None, None, Idle, [])
  }

  function Save(s: Sys): Sys {
    s.(stored := Some(Snapshot(s.current, s.data)))
  }

  function WithRequest(t: Table, d: Data, r: Request): Data {
    if t.SwapInSender? || t.SwapInReceiver? then d.(swapInRequest := Some(r))
    else d.(swapOutRequest := Some(r))
  }

  /** The initiator builds its own request, with the key of the new swap. */
  predicate MayStart(w: World, s: Sys, r: Request) {
    s.phase.Idle? && s.stored.None?
    && (s.table.SwapInSender? || s.table.SwapOutSender? ==> r.pubkey == w.pub(s.data.privkey))
  }

  function ApplyStart(w: World, s: Sys, r: Request): Sys {
    if !MayStart(w, s, r) then s
    else if !ValidRequest(w, r) then Save(s).(phase := Pending(OnInvalidMessage))
    else Save(s.(data := WithRequest(s.table, s.data, r))).(phase := Pending(OnStarted))
  }

  /** What an accepted input leaves in the history. */
  function InputLog(i: Input): seq<Entry> {
    match i
    case TxConfirmed(hex) => [HexDelivered(hex)]
    case OpeningReceived(o) => [OpeningHeard(o)]
    case _ => []
  }

  /** The message is applied and stored before anyone asks whether the event is expected. */
  function ApplyDeliver(s: Sys, i: Input): Sys {
    if !s.phase.Idle? || s.stored.None? then s
    else if !ValidInput(s.data, i) then Save(s).(phase := Pending(OnInvalidMessage))
    else
      match ApplyInput(s.data, i)
      case None => s
      case Some(d) =>
        Save(s.(data := d)).(phase := Pending(EventOf(i)),
                             log := s.log + InputLog(i))
  }

  /** A stored swap that will run the opening action again on recovery, because it was stored
      after the action had failed and before the swap was cancelled. */
  predicate Reopens(snap: Snapshot) {
    snap.current.BroadcastOpeningTx? && snap.data.openingTxBroadcasted.None?
  }

  /** A crash notes whether a spending transaction or an opening is lost, whether the opening is
      repeated, and where it throws the machine back to. */
  function CrashEntry(s: Sys, snap: Snapshot): Entry {
    Crashed(s.data.claimTxId != snap.data.claimTxId,
            s.data.openingTxBroadcasted.Some? && snap.data.openingTxBroadcasted.None?,
            Reopens(snap), snap.current)
  }

  function ApplyCrash(s: Sys): Sys {
    match s.stored
    case None => s
    case Some(snap) =>
      s.(current := snap.current, data := snap.data, retries := 0, sender := None, phase := Down,
         log := s.log + [CrashEntry(s, snap)])
  }

  function ApplyDispatch(w: World, s: Sys, o: Outcome): Sys {
    if !s.phase.Pending? then s
    else
      match Next(s.table, s.current, s.phase.event)
      case None => s.(phase := Idle)
      case Some(n) =>
        match Execute(w, s.table, n, s.data, s.sender, |s.log|, o)
        case Panic => ApplyCrash(s)
        case Ran(d, e, log, snd) => Move(s, n, Ran(d, e, log, snd))
  }

  /** The machine has entered `n` and run its action. */
  function Move(s: Sys, n: State, x: Exec): Sys
    requires s.phase.Pending? && x.Ran?
  {
    s.(current := n, data := x.data, sender := x.sender, phase := Executed(x.event),
       log := s.log + [Moved(s.current, n, s.phase.event)] + x.log)
  }

  /** The machine has re-run the action of the state it was stored in. */
  function Resume(s: Sys, x: Exec): Sys
    requires x.Ran?
  {
    s.(data := x.data, sender := x.sender, phase := Recovered(x.event), log := s.log + x.log)
  }

  function ApplyPersist(s: Sys): Sys {
    match s.phase
    case Executed(e) =>
      (match e
       case Done => Save(s).(phase := Idle)
       case NoOp => Save(s).(phase := Idle)
       case OnRetry =>
         if s.retries + 1 > MAX_RETRIES then Save(s).(retries := 0, phase := Idle)
         else Save(s).(retries := s.retries + 1, phase := Pending(OnRetry))
       case _ => Save(s).(phase := Pending(e)))
    case Recovered(e) =>
      if e.Done? || e.NoOp? then Save(s).(phase := Idle) else Save(s).(phase := Pending(e))
    case _ => s
  }

  function ApplyRestart(w: World, s: Sys, o: Outcome): Sys {
    if !s.phase.Down? then s
    else if IsFinished(s.current) || s.current.Default? then s.(phase := Idle)
    else if FailOnRecover(s.table, s.current) then s.(phase := Pending(ActionFailed))
    else
      match Execute(w, s.table, s.current, s.data, s.sender, |s.log|, o)
      case Panic => ApplyCrash(s)
      case Ran(d, e, log, snd) => Resume(s, Ran(d, e, log, snd))
  }

  /** A label that is not enabled leaves the system as it is. */
  function Apply(w: World, s: Sys, l: Label): Sys {
    match l
    case Start(r) => ApplyStart(w, s, r)
    case Deliver(i) => ApplyDeliver(s, i)
    case Dispatch(o) => ApplyDispatch(w, s, o)
    case Persist => ApplyPersist(s)
    case Crash => ApplyCrash(s)
    case Restart(o) => ApplyRestart(w, s, o)
  }

  function Run(w: World, s: Sys, labels: seq<Label>): Sys {
    if labels == [] then s
    else Apply(w, Run(w, s, labels[..|labels| - 1]), labels[|labels| - 1])
  }

  lemma {:induction false} RunAppend(w: World, s: Sys, a: seq<Label>, b: seq<Label>)
    ensures Run(w, s, a + b) == Run(w, Run(w, s, a), b)
  {
    if b == [] {
      assert a + b == a;
    } else {
      assert (a + b)[..|a + b| - 1] == a + b[..|b| - 1];
      RunAppend(w, s, a, b[..|b| - 1]);
    }
  }

  lemma RunCons(w: World, s: Sys, l: Label, rest: seq<Label>)
    ensures Run(w, s, [l] + rest) == Run(w, Apply(w, s, l), rest)
  {
    RunAppend(w, s, [l], rest);
    assert [l][..0] == [];
    assert Run(w, s, [l]) == Apply(w, Run(w, s, []), l);
    hide Apply;
  }

  ghost predicate CrashFree(log: seq<Entry>) {
    forall i :: 0 <= i < |log| ==> !log[i].Crashed?
  }

  lemma RunFive(w: World, s: Sys, a: Label, b: Label, c: Label, d: Label, e: Label)
    ensures Run(w, s, [a, b, c, d, e]) == Apply(w, Apply(w, Apply(w, Apply(w, Apply(w, s, a), b), c), d), e)
  {
    hide Apply;
    assert [a, b, c, d, e][..4] == [a, b, c, d] && [a, b, c, d][..3] == [a, b, c];
    assert [a, b, c][..2] == [a, b] && [a, b][..1] == [a] && [a][..0] == [];
    assert Run(w, s, [a]) == Apply(w, Run(w, s, []), a);
    assert Run(w, s, [a, b]) == Apply(w, Run(w, s, [a]), b);
    assert Run(w, s, [a, b, c]) == Apply(w, Run(w, s, [a, b]), c);
    assert Run(w, s, [a, b, c, d]) == Apply(w, Run(w, s, [a, b, c]), d);
  }

  lemma RunThree(w: World, s: Sys, a: Label, b: Label, c: Label)
    ensures Run(w, s, [a, b, c]) == Apply(w, Apply(w, Apply(w, s, a), b), c)
  {
    hide Apply;
    assert [a, b, c][..2] == [a, b] && [a, b][..1] == [a] && [a][..0] == [];
    assert Run(w, s, [a]) == Apply(w, Run(w, s, []), a);
    assert Run(w, s, [a, b]) == Apply(w, Run(w, s, [a]), b);
  }

  /** No opening message from the peer among these entries. */
  ghost predicate Unheard(more: seq<Entry>) {
    forall i :: 0 <= i < |more| ==> !more[i].OpeningHeard?
  }

  lemma HistoryGrows(log: seq<Entry>, more: seq<Entry>)
    ensures Strayed(log) ==> Strayed(log + more)
    ensures Foreign(log) ==> Foreign(log + more)
    ensures Unheard(more) && Foreign(log + more) ==> Foreign(log)
  {
    var all := log + more;
    if Strayed(log) { var i :| 0 <= i < |log| && log[i].HexDelivered?; assert all[i].HexDelivered?; }
    if Foreign(log) { var i :| 0 <= i < |log| && log[i].OpeningHeard?; assert all[i].OpeningHeard?; }
    if Foreign(all) {
      var i :| 0 <= i < |all| && all[i].OpeningHeard?;
      assert if i < |log| then log[i].OpeningHeard? else more[i - |log|].OpeningHeard?;
    }
  }

  // ------------------------------------------------------- what always holds

  /** The action of `n`, run on this machine, may end like `x`. */
  ghost predicate Acts(w: World, s: Sys, n: State, x: Exec) {
    && x.Ran? && !n.Default?
    && Summary(n, s.data, s.sender, |s.log|, x)
    && Details(w, s.table, n, s.data, s.sender, x)
  }

  /** What a dispatch can do: nothing, reject the event, panic, or move. */
  lemma DispatchCases(w: World, s: Sys, o: Outcome) returns (n: State, x: Exec)
    ensures var r := ApplyDispatch(w, s, o);
            || r == s
            || (s.phase.Pending? && r == s.(phase := Idle))
            || (s.phase.Pending? && r == ApplyCrash(s))
            || (s.phase.Pending? && Next(s.table, s.current, s.phase.event) == Some(n) && Acts(w, s, n, x)
                && r == Move(s, n, x))
  {
    n, x := Default, Panic;
    if s.phase.Pending? && Next(s.table, s.current, s.phase.event).Some? {
      n := Next(s.table, s.current, s.phase.event).value;
      NoEdgeToDefault(s.table, s.current, s.phase.event);
      ExecuteSummary(w, s.table, n, s.data, s.sender, |s.log|, o);
      ExecuteDetails(w, s.table, n, s.data, s.sender, |s.log|, o);
      x := Execute(w, s.table, n, s.data, s.sender, |s.log|, o);
    }
    hide Next, Execute, Summary, Details;
  }

  /** Only an event without an edge sends a machine back to rest. */
  lemma DispatchIdles(w: World, s: Sys, o: Outcome)
    requires s.phase.Pending? && s.stored.Some?
    ensures ApplyDispatch(w, s, o).phase.Idle? ==> Next(s.table, s.current, s.phase.event).None?
  {
    hide Next, Execute;
  }

  /** What a restart can do: nothing, leave a finished swap alone, fail the swap, panic, or
      re-run the action. */
  lemma RestartCases(w: World, s: Sys, o: Outcome) returns (x: Exec)
    ensures var r := ApplyRestart(w, s, o);
            || r == s
            || (s.phase.Down? && (IsFinished(s.current) || s.current.Default?) && r == s.(phase := Idle))
            || (s.phase.Down? && FailOnRecover(s.table, s.current) && r == s.(phase := Pending(ActionFailed)))
            || (s.phase.Down? && r == ApplyCrash(s))
            || (s.phase.Down? && !FailOnRecover(s.table, s.current) && !IsFinished(s.current)
                && Acts(w, s, s.current, x) && r == Resume(s, x))
  {
    x := Panic;
    if s.phase.Down? && !s.current.Default? {
      ExecuteSummary(w, s.table, s.current, s.data, s.sender, |s.log|, o);
      ExecuteDetails(w, s.table, s.current, s.data, s.sender, |s.log|, o);
      x := Execute(w, s.table, s.current, s.data, s.sender, |s.log|, o);
    }
    hide Execute, Summary, Details;
  }

  /** Between handled events the store holds exactly what is in memory, and no more than
      `MAX_RETRIES` retries are on the counter. */
  ghost predicate InSync(s: Sys) {
    && s.retries <= MAX_RETRIES
    && (s.stored.None? ==> s.phase.Idle? && s.current.Default? && s.log == [] && s.sender.None?)
    && (match s.phase
        case Executed(e) => s.stored.Some? && !s.current.Default? && Returns(s.current, e)
        case Recovered(e) => s.stored.Some? && !s.current.Default? && Returns(s.current, e)
        case Pending(e) => s.stored == Some(Snapshot(s.current, s.data)) && !e.NoOp? && !e.Done?
        case _ => s.stored.Some? ==> s.stored == Some(Snapshot(s.current, s.data)))
    && (s.phase.Down? ==> s.sender.None?)
  }

  lemma DispatchInSync(w: World, s: Sys, o: Outcome)
    requires InSync(s)
    ensures InSync(ApplyDispatch(w, s, o))
  {
    var n, x := DispatchCases(w, s, o);
    hide ApplyDispatch, Next, Details, Keeps, SenderEffect, MayLog;
  }

  lemma RestartInSync(w: World, s: Sys, o: Outcome)
    requires InSync(s)
    ensures InSync(ApplyRestart(w, s, o))
  {
    var x := RestartCases(w, s, o);
    hide ApplyRestart, Details, Keeps, SenderEffect, MayLog;
  }

  lemma StepInSync(w: World, s: Sys, l: Label)
    requires InSync(s)
    ensures InSync(Apply(w, s, l))
  {
    match l
    case Dispatch(o) => hide ApplyDispatch, InSync; DispatchInSync(w, s, o);
    case Restart(o) => hide ApplyRestart, InSync; RestartInSync(w, s, o);
    case _ => hide ApplyDispatch, ApplyRestart, ValidRequest, ValidInput;
  }

  lemma {:induction false} AlwaysInSync(w: World, t: Table, key: Bytes, labels: seq<Label>)
    ensures InSync(Run(w, New(t, key), labels))
  {
    if labels != [] {
      AlwaysInSync(w, t, key, labels[..|labels| - 1]);
      StepInSync(w, Run(w, New(t, key), labels[..|labels| - 1]), labels[|labels| - 1]);
    }
    hide Apply;
  }

  /** History is only ever added to. */
  lemma StepExtendsLog(w: World, s: Sys, l: Label)
    ensures s.log <= Apply(w, s, l).log
  {
    match l
    case Dispatch(o) => var n, x := DispatchCases(w, s, o); hide ApplyDispatch, Acts, Next;
    case Restart(o) => var x := RestartCases(w, s, o); hide ApplyRestart, Acts;
    case _ => hide ApplyDispatch, ApplyRestart;
  }

  // ---------------------------------------------------------------- own key

  predicate HasKey(s: Sys, key: Bytes) {
    s.data.privkey == key && (s.stored.Some? ==> s.stored.value.data.privkey == key)
  }

  lemma StepKeepsKey(w: World, s: Sys, l: Label, key: Bytes)
    requires HasKey(s, key)
    ensures HasKey(Apply(w, s, l), key)
  {
    match l
    case Dispatch(o) => var n, x := DispatchCases(w, s, o); hide ApplyDispatch, Next, Details, SenderEffect;
    case Restart(o) => var x := RestartCases(w, s, o); hide ApplyRestart, Details, SenderEffect;
    case _ => hide ApplyDispatch, ApplyRestart, ValidRequest;
  }

  /** The private key of a swap never changes. */
  lemma {:induction false} KeyIsFixed(w: World, t: Table, key: Bytes, labels: seq<Label>)
    ensures HasKey(Run(w, New(t, key), labels), key)
  {
    if labels != [] {
      KeyIsFixed(w, t, key, labels[..|labels| - 1]);
      StepKeepsKey(w, Run(w, New(t, key), labels[..|labels| - 1]), labels[|labels| - 1], key);
    }
    hide Apply;
  }
}
