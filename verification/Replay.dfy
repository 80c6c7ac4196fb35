/** The registrations and stops of redundant senders in a machine's history, replayed on the
    manager of messages/sender.go: it never refuses one and never stops a sender twice. */
module Replay {
  import opened Base
  import opened SwapData
  import opened States
  import opened Actions
  import opened Effects
  import opened Fsm
  import opened Claims
  import opened Senders

  /** The sender registered after one more entry; None when the manager would have refused a
      registration or been told to stop a sender it does not hold. A crash forgets everything. */
  function HeldAfter(held: Option<Option<nat>>, e: Entry): Option<Option<nat>> {
    match held
    case None => None
    case Some(h) =>
      match e
      case Registered(id) => if h.Some? then None else Some(Some(id))
      case Stopped(id) => if h == Some(id) then Some(None) else None
      case Crashed(_, _, _, _) => Some(None)
      case _ => Some(h)
  }

  function Held(log: seq<Entry>): Option<Option<nat>> {
    if log == [] then Some(None) else HeldAfter(Held(log[..|log| - 1]), log[|log| - 1])
  }

  lemma HeldOne(log: seq<Entry>, e: Entry)
    ensures Held(log + [e]) == HeldAfter(Held(log), e)
  {
    assert (log + [e])[..|log|] == log;
  }

  predicate IsQuiet(e: Entry) { !e.Registered? && !e.Stopped? && !e.Crashed? }

  lemma {:induction false} HeldQuiet(log: seq<Entry>, more: seq<Entry>)
    requires forall i :: 0 <= i < |more| ==> IsQuiet(more[i])
    ensures Held(log + more) == Held(log)
  {
    if more == [] {
      assert log + more == log;
    } else {
      var init, e := more[..|more| - 1], more[|more| - 1];
      HeldQuiet(log, init);
      assert log + more == log + init + [e];
      HeldOne(log + init, e);
      assert IsQuiet(e);
    }
  }

  /** The history accounts for the registered sender. */
  ghost predicate Replayed(s: Sys) {
    Held(s.log) == Some(s.sender)
  }

  /** An action whose first entry may register or stop, and whose others do neither. */
  lemma HeldFirst(log: seq<Entry>, more: seq<Entry>)
    requires |more| > 0 && forall i :: 0 < i < |more| ==> IsQuiet(more[i])
    ensures Held(log + more) == HeldAfter(Held(log), more[0])
  {
    assert log + more == log + [more[0]] + more[1..];
    HeldQuiet(log + [more[0]], more[1..]);
    HeldOne(log, more[0]);
  }

  lemma ActionReplays(w: World, s: Sys, n: State, x: Exec, log: seq<Entry>)
    requires Acts(w, s, n, x) && Held(log) == Some(s.sender)
    requires s.sender.Some? ==>
             n.SendTxBroadcastedMessage? || n.AwaitClaimPayment? || (Stops(n) && !n.AwaitTxConfirmation?)
    ensures x.Ran? && Held(log + x.log) == Some(x.sender)
  {
    hide Details, Keeps, Held;
    assert forall i :: 0 <= i < |x.log| ==> MayLog(n, x.log[i]);
    if |x.log| > 0 && !IsQuiet(x.log[0]) {
      HeldFirst(log, x.log);
    } else {
      HeldQuiet(log, x.log);
    }
  }

  lemma CrashReplays(s: Sys)
    requires Replayed(s)
    ensures Replayed(ApplyCrash(s))
  {
    if s.stored.Some? { HeldOne(s.log, CrashEntry(s, s.stored.value)); }
    hide Held;
  }

  lemma DispatchReplays(w: World, s: Sys, o: Outcome)
    requires Replayed(s) && SendersCounted(s)
    ensures Replayed(ApplyDispatch(w, s, o))
  {
    hide ApplyDispatch, Summary, Details, Next, Held, ApplyCrash;
    CrashReplays(s);
    var n, x := DispatchCases(w, s, o);
    if s.phase.Pending? && Next(s.table, s.current, s.phase.event) == Some(n) && Acts(w, s, n, x) {
      if s.sender.Some? { SenderEdges(s.table, s.current, s.phase.event); }
      var move := [Moved(s.current, n, s.phase.event)];
      HeldQuiet(s.log, move);
      ActionReplays(w, s, n, x, s.log + move);
    }
  }

  lemma RestartReplays(w: World, s: Sys, o: Outcome)
    requires Replayed(s) && InSync(s)
    ensures Replayed(ApplyRestart(w, s, o))
  {
    hide ApplyRestart, Summary, Details, Held, ApplyCrash;
    CrashReplays(s);
    var x := RestartCases(w, s, o);
    if s.phase.Down? && Acts(w, s, s.current, x) { ActionReplays(w, s, s.current, x, s.log); }
  }

  lemma StepReplays(w: World, s: Sys, l: Label)
    requires Replayed(s) && SendersCounted(s) && InSync(s)
    ensures Replayed(Apply(w, s, l))
  {
    hide Held, SendersCounted;
    match l
    case Start(r) => hide ValidRequest;
    case Deliver(i) => hide ApplyInput, ValidInput, EventOf; HeldQuiet(s.log, InputLog(i));
    case Dispatch(o) => hide ApplyDispatch; DispatchReplays(w, s, o);
    case Persist =>
    case Crash => hide ApplyCrash; CrashReplays(s);
    case Restart(o) => hide ApplyRestart; RestartReplays(w, s, o);
  }

  /** On every run the history replays without a refusal or a second stop, and ends with just
      the sender the machine has registered. */
  lemma {:induction false} SendersReplay(w: World, t: Table, key: Bytes, labels: seq<Label>)
    ensures var s := Run(w, New(t, key), labels); Held(s.log) == Some(s.sender)
  {
    if labels != [] {
      var before := labels[..|labels| - 1];
      SendersReplay(w, t, key, before);
      AlwaysSenders(w, t, key, before);
      AlwaysInSync(w, t, key, before);
      hide Apply, SendersCounted, InSync, Held;
      StepReplays(w, Run(w, New(t, key), before), labels[|labels| - 1]);
    }
  }

  lemma {:induction false} HeldPrefix(log: seq<Entry>, n: nat)
    requires n <= |log| && Held(log).Some?
    ensures Held(log[..n]).Some?
  {
    if n == |log| {
      assert log[..n] == log;
    } else {
      HeldPrefix(log[..|log| - 1], n);
      assert log[..|log| - 1][..n] == log[..n];
    }
  }

  function Keys(id: string, held: Option<nat>): set<string> {
    if held.Some? then {id} else {}
  }

  /** One entry: a registration is accepted, a stop finds its sender registered and running, and
      a crash starts with a new manager. */
  method ReplayEntry(manager: Manager, id: string, ghost held: Option<nat>, e: Entry) returns (after: Manager)
    requires manager.Valid() && manager.messengers.Keys == Keys(id, held) && HeldAfter(Some(held), e).Some?
    modifies manager, manager.messengers.Values
    ensures (after == manager || fresh(after)) && fresh(after.messengers.Values - old(manager.messengers.Values))
    ensures after.Valid() && after.messengers.Keys == Keys(id, HeldAfter(Some(held), e).value)
  {
    after := manager;
    if e.Registered? {
      var messenger := new RedundantMessenger();
      var accepted := manager.AddSender(id, messenger);
      assert accepted;
    } else if e.Stopped? {
      assert id in manager.messengers;
      manager.RemoveSender(id);
    } else if e.Crashed? {
      after := new Manager();
    }
  }

  /** The whole history, entry by entry. */
  method ReplayOnManager(id: string, log: seq<Entry>) returns (manager: Manager)
    requires Held(log).Some?
    ensures fresh(manager) && manager.Valid() && manager.messengers.Keys == Keys(id, Held(log).value)
  {
    hide Held, HeldAfter;
    manager := new Manager();
    HeldNothing();
    ghost var held: Option<nat> := None;
    assert log[..0] == [];
    for i := 0 to |log|
      invariant Held(log[..i]) == Some(held)
      invariant fresh(manager) && fresh(manager.messengers.Values)
      invariant manager.Valid() && manager.messengers.Keys == Keys(id, held)
    {
      HeldPrefix(log, i + 1);
      assert log[..i + 1] == log[..i] + [log[i]];
      HeldOne(log[..i], log[i]);
      manager := ReplayEntry(manager, id, held, log[i]);
      held := HeldAfter(Some(held), log[i]).value;
    }
    assert log[..|log|] == log;
  }

  lemma HeldNothing()
    ensures Held([]) == Some(None)
  {
  }
}
