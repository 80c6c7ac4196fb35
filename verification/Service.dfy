/** The service's table of active swaps and the one-swap-per-channel lock (swap/service.go).
    Requests are handled one at a time. */
module Service {
  import opened Base
  import opened SwapData
  import opened States
  import opened Actions
  import opened Effects
  import opened Fsm
  import opened Machine

  // ----------------------------------------------------- the request is fixed

  predicate KeepsRequests(s: Sys, swapIn: Option<Request>, swapOut: Option<Request>) {
    && s.stored.Some? && s.data.swapInRequest == swapIn && s.data.swapOutRequest == swapOut
    && s.stored.value.data.swapInRequest == swapIn && s.stored.value.data.swapOutRequest == swapOut
  }

  lemma StepKeepsRequests(w: World, s: Sys, l: Label, a: Option<Request>, b: Option<Request>)
    requires KeepsRequests(s, a, b)
    ensures KeepsRequests(Apply(w, s, l), a, b)
  {
    match l
    case Dispatch(o) => var n, x := DispatchCases(w, s, o); hide ApplyDispatch, Next, Details, SenderEffect;
    case Restart(o) => var x := RestartCases(w, s, o); hide ApplyRestart, Details, SenderEffect;
    case _ => hide ApplyDispatch, ApplyRestart, ValidRequest;
  }

  lemma {:induction false} RunKeepsRequests(w: World, s: Sys, labels: seq<Label>, a: Option<Request>,
                                            b: Option<Request>)
    requires KeepsRequests(s, a, b)
    ensures KeepsRequests(Run(w, s, labels), a, b)
  {
    if labels != [] {
      RunKeepsRequests(w, s, labels[..|labels| - 1], a, b);
      StepKeepsRequests(w, Run(w, s, labels[..|labels| - 1]), labels[|labels| - 1], a, b);
    }
    hide Apply;
  }

  predicate OneRequest(d: Data) { d.swapInRequest.None? || d.swapOutRequest.None? }

  predicate NoRequest(d: Data) { d.swapInRequest.None? && d.swapOutRequest.None? }

  /** The request on record, in the place of its direction and in no other. */
  predicate OnRecord(t: Table, d: Data, r: Request) {
    if t.SwapInSender? || t.SwapInReceiver? then d.swapInRequest == Some(r) && d.swapOutRequest.None?
    else d.swapOutRequest == Some(r) && d.swapInRequest.None?
  }

  predicate HasOneRequest(s: Sys) {
    OneRequest(s.data) && (s.stored.None? ==> NoRequest(s.data)) && (s.stored.Some? ==> OneRequest(s.stored.value.data))
  }

  lemma StepHasOneRequest(w: World, s: Sys, l: Label)
    requires HasOneRequest(s) && InSync(s)
    ensures HasOneRequest(Apply(w, s, l))
  {
    match l
    case Dispatch(o) => var n, x := DispatchCases(w, s, o); hide ApplyDispatch, Next, Details, SenderEffect;
    case Restart(o) => var x := RestartCases(w, s, o); hide ApplyRestart, Details, SenderEffect;
    case _ => hide ApplyDispatch, ApplyRestart, ValidRequest;
  }

  /** A swap has at most one request, in memory and in the store. */
  lemma {:induction false} AlwaysOneRequest(w: World, t: Table, key: Bytes, labels: seq<Label>)
    ensures HasOneRequest(Run(w, New(t, key), labels))
  {
    if labels != [] {
      var before := labels[..|labels| - 1];
      AlwaysOneRequest(w, t, key, before);
      AlwaysInSync(w, t, key, before);
      hide Apply, InSync, HasOneRequest;
      StepHasOneRequest(w, Run(w, New(t, key), before), labels[|labels| - 1]);
    }
  }

  // ------------------------------------------------------------ active swaps

  /** The swap was requested on this channel, in either direction. */
  predicate OnChannel(d: Data, scid: string) {
    || (d.swapInRequest.Some? && d.swapInRequest.value.scid == scid)
    || (d.swapOutRequest.Some? && d.swapOutRequest.value.scid == scid)
  }

  /** What keeps a channel from being taken; a swap without a request sits on the empty name. */
  predicate Occupies(d: Data, scid: string) {
    OnChannel(d, scid) || (scid == "" && NoRequest(d))
  }

  /** No channel that has a name is used by both. */
  ghost predicate Apart(d: Data, e: Data) {
    forall scid :: OnChannel(d, scid) && OnChannel(e, scid) ==> scid == ""
  }

  ghost predicate Active(fsm: SwapStateMachine)
    reads fsm
  {
    fsm.Valid() && !IsFinished(fsm.current) && OneRequest(fsm.data)
  }

  /** No swap of the table is on a channel of this one. */
  ghost predicate Free(active: map<string, SwapStateMachine>, d: Data)
    reads active.Values
  {
    forall id :: id in active ==> Apart(d, active[id].data)
  }

  /** Every active swap is at rest and unfinished, has a machine of its own, and shares its
      channel with no other. */
  ghost predicate Channels(active: map<string, SwapStateMachine>)
    reads active.Values
  {
    && (forall id :: id in active ==> Active(active[id]))
    && (forall i, j :: i in active && j in active && i != j ==>
          active[i] != active[j] && Apart(active[i].data, active[j].data))
  }

  lemma Join(active: map<string, SwapStateMachine>, id: string, fsm: SwapStateMachine)
    requires Channels(active) && id !in active && fsm !in active.Values
    requires Active(fsm) && Free(active, fsm.data)
    ensures Channels(active[id := fsm])
  {
    hide Active;
  }

  lemma Without(active: map<string, SwapStateMachine>, id: string, fsm: SwapStateMachine)
    requires Channels(active)
    ensures Channels(active - {id}) && (active - {id})[id := fsm] == active[id := fsm]
  {
    hide Active;
  }

  lemma Leave(active: map<string, SwapStateMachine>, id: string)
    requires Channels(active) && id in active
    ensures var rest := active - {id};
            && Channels(rest) && Free(rest, active[id].data) && active[id] !in rest.Values
            && rest[id := active[id]] == active && Active(active[id])
  {
    hide Active;
  }

  class SwapService {
    var activeSwaps: map<string, SwapStateMachine>

    constructor ()
      ensures activeSwaps == map[]
    {
      activeSwaps := map[];
    }

    ghost predicate Valid()
      reads this, activeSwaps.Values
    {
      Channels(activeSwaps)
    }

    method RemoveActiveSwap(id: string)
      modifies this
      ensures activeSwaps == old(activeSwaps) - {id}
    {
      activeSwaps := activeSwaps - {id};
    }

    /** `lockSwap`: refused exactly when an active swap is on the channel. */
    method LockSwap(id: string, channelId: string, fsm: SwapStateMachine) returns (ok: bool)
      requires Valid()
      modifies this
      ensures ok <==> forall k :: k in old(activeSwaps) ==> !Occupies(old(activeSwaps)[k].data, channelId)
      ensures activeSwaps == if ok then old(activeSwaps)[id := fsm] else old(activeSwaps)
    {
      NamesMatch(activeSwaps, channelId);
      hide Channels, Occupies, Data.GetScid;
      var ids := activeSwaps.Keys;
      while ids != {}
        invariant ids <= activeSwaps.Keys && activeSwaps == old(activeSwaps)
        invariant forall k :: k in activeSwaps && k !in ids ==> !Occupies(activeSwaps[k].data, channelId)
        decreases |ids|
      {
        var k :| k in ids;
        if activeSwaps[k].data.GetScid() == channelId {
          return false;
        }
        ids := ids - {k};
      }
      activeSwaps := activeSwaps[id := fsm];
      return true;
    }

    /** The end of every handler: a swap that reported done is released. */
    method Settle(id: string, reply: Reply)
      modifies this
      ensures activeSwaps == if reply == Returned(true, None) then old(activeSwaps) - {id} else old(activeSwaps)
    {
      if reply == Returned(true, None) {
        RemoveActiveSwap(id);
      }
    }

    /** A machine that took a free channel keeps it, unless it is done already. */
    method Admit(id: string, fsm: SwapStateMachine, reply: Reply, ghost others: map<string, SwapStateMachine>)
      requires id !in others && fsm !in others.Values && activeSwaps == others[id := fsm]
      requires Channels(others) && Free(others, fsm.data) && Reported(fsm, Default, reply)
      modifies this
      ensures reply.Returned? ==> Valid()
      ensures reply.Returned? ==> activeSwaps == if IsFinished(fsm.current) then others else others[id := fsm]
    {
      hide Active, Channels, InSync, Free, SwapStateMachine.Valid, Run, Turns;
      Settle(id, reply);
      if reply.Returned? && !IsFinished(fsm.current) {
        Join(others, id, fsm);
      } else {
        assert others[id := fsm] - {id} == others;
      }
    }

    /** `SwapOut`, `SwapIn` and the two request handlers, from the lock on: a new machine
        gets the channel, its first event, and its release if that already finished it. A
        swap id in use displaces the swap it belongs to. */
    method Begin(id: string, fsm: SwapStateMachine, request: Request, oracle: nat -> Outcome)
      returns (locked: bool, reply: Reply, ghost rounds: nat)
      requires Valid() && fsm !in activeSwaps.Values
      requires InSync(fsm.Abs(Idle)) && fsm.current.Default? && MayStart(fsm.w, fsm.Abs(Idle), request)
      requires NoRequest(fsm.data)
      modifies this, fsm
      ensures locked <==> forall k :: k in old(activeSwaps) ==> !Occupies(old(activeSwaps)[k].data, request.scid)
      ensures !locked ==> activeSwaps == old(activeSwaps)
      ensures locked ==>
              fsm.Abs(PhaseAfter(reply)) == Run(fsm.w, old(fsm.Abs(Idle)), [Start(request)] + Turns(oracle, rounds))
      ensures locked ==> if ValidRequest(fsm.w, request) then OnRecord(fsm.table, fsm.data, request)
                         else NoRequest(fsm.data)
      ensures reply.Returned? ==> Valid()
      ensures locked && reply.Returned? ==>
              activeSwaps == if IsFinished(fsm.current) then old(activeSwaps) - {id} else old(activeSwaps)[id := fsm]
    {
      hide Active, Channels, InSync, MayStart, Run, Turns, Occupies, Free, SwapStateMachine.Valid, ValidRequest;
      ghost var others := activeSwaps - {id};
      Without(activeSwaps, id, fsm);
      locked := LockSwap(id, request.scid, fsm);
      if !locked {
        return false, Returned(false, None), 0;
      }
      reply, rounds := StartMachine(fsm, request, oracle);
      TakesChannel(others, fsm.data, request.scid);
      Admit(id, fsm, reply, others);
    }

    /** Every message, payment, lock and timeout handler: look the swap up, send the event,
        release the swap if it is done. A lock is released only for a finished swap. */
    method OnEvent(id: string, input: Input, oracle: nat -> Outcome)
      returns (found: bool, reply: Reply, ghost rounds: nat)
      requires Valid()
      modifies this, if id in activeSwaps then {activeSwaps[id]} else {}
      ensures found == (id in old(activeSwaps))
      ensures !found ==> activeSwaps == old(activeSwaps)
      ensures found ==>
              var fsm := old(activeSwaps)[id];
              fsm.Abs(PhaseAfter(reply)) == Run(fsm.w, old(fsm.Abs(Idle)), [Deliver(input)] + Turns(oracle, rounds))
      ensures reply.Returned? ==> Valid()
      ensures reply.Returned? && found ==>
              activeSwaps == (if IsFinished(old(activeSwaps)[id].current) then old(activeSwaps) - {id}
                              else old(activeSwaps))
    {
      if id !in activeSwaps {
        return false, Returned(false, None), 0;
      }
      hide Active, Channels, InSync, Free, SwapStateMachine.Valid, Run, Turns;
      var fsm := activeSwaps[id];
      Leave(activeSwaps, id);
      ActiveIsValid(fsm);
      reply, rounds := Feed(id, fsm, input, oracle, activeSwaps - {id});
      return true, reply, rounds;
    }

    /** Sends an event to a machine that holds its slot in the table as long as it is not
        finished. */
    method Feed(id: string, fsm: SwapStateMachine, input: Input, oracle: nat -> Outcome,
                ghost others: map<string, SwapStateMachine>) returns (reply: Reply, ghost rounds: nat)
      requires id !in others && fsm !in others.Values && fsm.Valid() && OneRequest(fsm.data)
      requires Channels(others) && Free(others, fsm.data)
      requires activeSwaps == if IsFinished(fsm.current) then others else others[id := fsm]
      modifies this, fsm
      ensures fsm.Abs(PhaseAfter(reply)) == Run(fsm.w, old(fsm.Abs(Idle)), [Deliver(input)] + Turns(oracle, rounds))
      ensures reply.Returned? ==>
              && fsm.Valid() && OneRequest(fsm.data) && Channels(others) && Free(others, fsm.data)
              && activeSwaps == (if IsFinished(fsm.current) then others else others[id := fsm])
              && Valid()
    {
      hide Active, Channels, InSync, Free, SwapStateMachine.Valid, Run, Turns;
      ghost var d := fsm.data;
      reply, rounds := SendToMachine(fsm, input, oracle);
      FreeKept(others, d, fsm.data);
      Settle(id, reply);
      assert others[id := fsm] - {id} == others;
      if reply.Returned? && !IsFinished(fsm.current) {
        Join(others, id, fsm);
      }
    }

    /** `OnTxConfirmed` with an error from the watcher: the failure is followed by the
        confirmation event to the same machine, whether or not it has been released. */
    method OnTxConfirmationError(id: string, txHex: Bytes, oracle: nat -> Outcome, later: nat -> Outcome)
      returns (found: bool, reply: Reply, ghost rounds: nat, ghost more: nat)
      requires Valid()
      modifies this, if id in activeSwaps then {activeSwaps[id]} else {}
      ensures found == (id in old(activeSwaps))
      ensures !found ==> activeSwaps == old(activeSwaps)
      ensures found && reply.Returned? ==>
              var fsm := old(activeSwaps)[id];
              var failed := Run(fsm.w, old(fsm.Abs(Idle)), [Deliver(ConfirmationFailed)] + Turns(oracle, rounds));
              fsm.Abs(Idle) == Run(fsm.w, failed, [Deliver(TxConfirmed(txHex))] + Turns(later, more))
      ensures reply.Returned? ==> Valid()
      ensures reply.Returned? && found ==>
              activeSwaps == (if IsFinished(old(activeSwaps)[id].current) then old(activeSwaps) - {id}
                              else old(activeSwaps))
    {
      if id !in activeSwaps {
        return false, Returned(false, None), 0, 0;
      }
      hide Active, Channels, InSync, Free, SwapStateMachine.Valid, Run, Turns;
      var fsm := activeSwaps[id];
      ghost var others := activeSwaps - {id};
      Leave(activeSwaps, id);
      ActiveIsValid(fsm);
      reply, rounds := Feed(id, fsm, ConfirmationFailed, oracle, others);
      more := 0;
      if reply.Returned? {
        reply, more := Feed(id, fsm, TxConfirmed(txHex), later, others);
      }
      return true, reply, rounds, more;
    }

    /** One turn of `RecoverSwaps`: an unfinished swap takes its channel back and goes on. */
    method RecoverSwap(id: string, fsm: SwapStateMachine, oracle: nat -> Outcome)
      returns (locked: bool, reply: Reply, ghost rounds: nat)
      requires Valid() && fsm !in activeSwaps.Values
      requires InSync(fsm.Abs(Down)) && fsm.stored.Some? && InTable(fsm.table, fsm.current) && OneRequest(fsm.data)
      modifies this, fsm
      ensures locked <==>
              && !IsFinished(old(fsm.current))
              && forall k, scid :: k in old(activeSwaps) && Occupies(old(activeSwaps)[k].data, scid) ==>
                   !Occupies(old(fsm.data), scid)
      ensures locked ==>
              fsm.Abs(PhaseAfter(reply)) ==
              Run(fsm.w, old(fsm.Abs(Down)), [Restart(oracle(0)), Persist] + Turns(After(oracle), rounds))
      ensures !locked ==> activeSwaps == old(activeSwaps)
      ensures reply.Returned? ==> Valid()
      ensures locked && reply.Returned? ==>
              activeSwaps == if IsFinished(fsm.current) then old(activeSwaps) - {id} else old(activeSwaps)[id := fsm]
    {
      hide Active, Channels, InSync, InTable, SwapStateMachine.Valid, Free, Occupies, OnChannel, Data.GetScid, Run,
        Turns;
      if IsFinished(fsm.current) {
        return false, Returned(false, None), 0;
      }
      ghost var others := activeSwaps - {id};
      Without(activeSwaps, id, fsm);
      ScidOccupied(fsm.data);
      assert Occupies(fsm.data, fsm.data.GetScid());
      locked := LockSwap(id, fsm.data.GetScid(), fsm);
      if !locked {
        return false, Returned(false, None), 0;
      }
      TakesChannel(others, fsm.data, fsm.data.GetScid());
      ghost var d := fsm.data;
      reply, rounds := RecoverMachine(fsm, oracle);
      FreeKept(others, d, fsm.data);
      Admit(id, fsm, reply, others);
    }
  }

  /** A swap with one request occupies just the channel its getter names. */
  lemma ScidOccupied(d: Data)
    requires OneRequest(d)
    ensures forall scid :: Occupies(d, scid) <==> scid == d.GetScid()
    ensures forall scid :: OnChannel(d, scid) ==> scid == d.GetScid()
  {
  }

  lemma NamesMatch(active: map<string, SwapStateMachine>, scid: string)
    requires Channels(active)
    ensures forall k :: k in active ==> (active[k].data.GetScid() == scid <==> Occupies(active[k].data, scid))
  {
    forall k | k in active ensures active[k].data.GetScid() == scid <==> Occupies(active[k].data, scid) {
      ActiveIsValid(active[k]);
      ScidOccupied(active[k].data);
    }
    hide Active;
  }

  lemma TakesChannel(active: map<string, SwapStateMachine>, d: Data, scid: string)
    requires forall k :: k in active ==> !Occupies(active[k].data, scid)
    requires forall c :: OnChannel(d, c) ==> c == scid
    ensures Free(active, d)
  {
  }

  lemma FreeKept(active: map<string, SwapStateMachine>, d: Data, e: Data)
    requires Free(active, d) && SameRequests(d, e)
    ensures Free(active, e)
  {
  }

  lemma ActiveIsValid(fsm: SwapStateMachine)
    requires Active(fsm)
    ensures fsm.Valid() && !IsFinished(fsm.current) && OneRequest(fsm.data)
  {
  }

  /** What a handler learns from a machine: it is active again, or finished and done. */
  ghost predicate Reported(fsm: SwapStateMachine, before: State, reply: Reply)
    reads fsm
  {
    && (reply.Returned? && !IsFinished(fsm.current) ==> Active(fsm))
    && (reply.Returned? ==> fsm.Valid())
    && (reply == Returned(true, None) <==> reply.Returned? && IsFinished(fsm.current) && !IsFinished(before))
    && (IsFinished(before) ==> IsFinished(fsm.current))
  }

  method StartMachine(fsm: SwapStateMachine, request: Request, oracle: nat -> Outcome)
    returns (reply: Reply, ghost rounds: nat)
    requires InSync(fsm.Abs(Idle)) && fsm.current.Default? && MayStart(fsm.w, fsm.Abs(Idle), request)
    requires NoRequest(fsm.data)
    modifies fsm
    ensures Reported(fsm, Default, reply)
    ensures if ValidRequest(fsm.w, request) then OnRecord(fsm.table, fsm.data, request) else NoRequest(fsm.data)
    ensures fsm.Abs(PhaseAfter(reply)) == Run(fsm.w, old(fsm.Abs(Idle)), [Start(request)] + Turns(oracle, rounds))
  {
    ghost var before := fsm.Abs(Idle);
    var n;
    reply, n := fsm.Start(request, oracle);
    rounds := n;
    StartsWith(fsm.w, before, request, Turns(oracle, rounds));
    hide Run, Turns, InSync;
  }

  method SendToMachine(fsm: SwapStateMachine, input: Input, oracle: nat -> Outcome)
    returns (reply: Reply, ghost rounds: nat)
    requires fsm.Valid() && OneRequest(fsm.data)
    modifies fsm
    ensures Reported(fsm, old(fsm.current), reply)
    ensures SameRequests(old(fsm.data), fsm.data)
    ensures fsm.Abs(PhaseAfter(reply)) == Run(fsm.w, old(fsm.Abs(Idle)), [Deliver(input)] + Turns(oracle, rounds))
  {
    ghost var before := fsm.Abs(Idle);
    var n;
    reply, n := fsm.SendEvent(input, oracle);
    rounds := n;
    KeepsChannel(fsm.w, before, [Deliver(input)] + Turns(oracle, rounds));
    hide Run, Turns, InSync;
  }

  method RecoverMachine(fsm: SwapStateMachine, oracle: nat -> Outcome) returns (reply: Reply, ghost rounds: nat)
    requires InSync(fsm.Abs(Down)) && fsm.stored.Some? && InTable(fsm.table, fsm.current) && !IsFinished(fsm.current)
    requires OneRequest(fsm.data)
    modifies fsm
    ensures Reported(fsm, Default, reply)
    ensures SameRequests(old(fsm.data), fsm.data)
    ensures fsm.Abs(PhaseAfter(reply)) ==
            Run(fsm.w, old(fsm.Abs(Down)), [Restart(oracle(0)), Persist] + Turns(After(oracle), rounds))
  {
    ghost var before := fsm.Abs(Down);
    var n;
    reply, n := fsm.Recover(oracle);
    rounds := n;
    KeepsChannel(fsm.w, before, [Restart(oracle(0)), Persist] + Turns(After(oracle), rounds));
    hide Run, Turns, InSync;
  }

  predicate SameRequests(d: Data, e: Data) {
    d.swapInRequest == e.swapInRequest && d.swapOutRequest == e.swapOutRequest
  }

  lemma KeepsChannel(w: World, s: Sys, labels: seq<Label>)
    requires InSync(s) && s.stored.Some? && (s.phase.Idle? || s.phase.Down?)
    ensures SameRequests(s.data, Run(w, s, labels).data)
  {
    RunKeepsRequests(w, s, labels, s.data.swapInRequest, s.data.swapOutRequest);
    hide Run;
  }

  lemma StartsWith(w: World, s: Sys, r: Request, rest: seq<Label>)
    requires InSync(s) && MayStart(w, s, r) && NoRequest(s.data)
    ensures var d := Run(w, s, [Start(r)] + rest).data;
            if ValidRequest(w, r) then OnRecord(s.table, d, r) else NoRequest(d)
  {
    Started(w, s, r, rest);
    var t := ApplyStart(w, s, r);
    hide Run;
    RunKeepsRequests(w, t, rest, t.data.swapInRequest, t.data.swapOutRequest);
    hide ValidRequest;
  }
}
