/** When a taker gives its private key away after a claim payment succeeded: exactly when a
    swap-out sender times out while it claims, or a crash throws the taker back to before the
    claim and the way from there ends in giving up. */
module Keys {
  import opened Base
  import opened SwapData
  import opened States
  import opened Actions
  import opened Effects
  import opened Fsm
  import opened Takers
  import opened Payments
  import Progress

  predicate IsPaid(e: Entry) { e.ClaimPayment? && e.paid.Some? }

  ghost predicate Paid(log: seq<Entry>) {
    exists i :: 0 <= i < |log| && IsPaid(log[i])
  }

  ghost predicate KeyAfterPayment(log: seq<Entry>) {
    exists i, j :: 0 <= i < j < |log| && IsPaid(log[i]) && log[j].BuiltPrivkeyMessage?
  }

  /** The claim was abandoned because of a timeout. */
  predicate IsTimeout(e: Entry) { e == Moved(ClaimSwap, SendPrivkey, OnTimeout) }

  ghost predicate TimedOut(log: seq<Entry>) {
    exists i :: 0 <= i < |log| && IsTimeout(log[i])
  }

  /** A crash that finds the taker stored before the claim, so that recovery waits for the
      confirmation or pays again. */
  predicate IsThrownBack(e: Entry) {
    e.Crashed? && (e.back.AwaitTxConfirmation? || e.back.ValidateTxAndPayClaimInvoice?)
  }

  predicate IsBreach(e: Entry) { IsTimeout(e) || IsThrownBack(e) }

  ghost predicate BrokenBetween(log: seq<Entry>, i: nat, j: nat) {
    exists k :: i < k < j <= |log| && IsBreach(log[k])
  }

  /** Between a payment and a later private-key message lies a breach. */
  ghost predicate Covered(log: seq<Entry>) {
    forall i, j :: 0 <= i < j < |log| && IsPaid(log[i]) && log[j].BuiltPrivkeyMessage? ==> BrokenBetween(log, i, j)
  }

  /** Some payment has no breach after it. */
  ghost predicate Unbroken(log: seq<Entry>) {
    exists i :: 0 <= i < |log| && IsPaid(log[i]) && forall k :: i < k < |log| ==> !IsBreach(log[k])
  }

  /** A timeout comes after a payment and is followed by the private-key message. */
  ghost predicate Reveals(log: seq<Entry>, k: nat) {
    k + 1 < |log| && log[k + 1].BuiltPrivkeyMessage? && exists i :: 0 <= i < k && IsPaid(log[i])
  }

  ghost predicate TimeoutsReveal(log: seq<Entry>) {
    forall k :: 0 <= k < |log| && IsTimeout(log[k]) ==> Reveals(log, k)
  }

  // ---------------------------------------------------------------- histories

  /** Entries that reveal nothing. */
  lemma QuietKeys(log: seq<Entry>, more: seq<Entry>)
    requires forall i :: 0 <= i < |more| ==> !more[i].BuiltPrivkeyMessage?
    ensures Covered(log) ==> Covered(log + more)
  {
    var all := log + more;
    assert forall i :: 0 <= i < |all| ==> all[i] == if i < |log| then log[i] else more[i - |log|];
    if Covered(log) {
      forall i, j | 0 <= i < j < |all| && IsPaid(all[i]) && all[j].BuiltPrivkeyMessage?
        ensures BrokenBetween(all, i, j)
      {
        assert BrokenBetween(log, i, j);
        var k :| i < k < j && IsBreach(log[k]);
        assert IsBreach(all[k]);
      }
    }
  }

  /** Entries that pay nothing leave a broken history broken, and one breach breaks any. */
  lemma BrokenKeys(log: seq<Entry>, more: seq<Entry>)
    requires forall i :: 0 <= i < |more| ==> !IsPaid(more[i])
    ensures Unbroken(log + more) ==> Unbroken(log) && forall i :: 0 <= i < |more| ==> !IsBreach(more[i])
  {
    var all := log + more;
    assert forall i :: 0 <= i < |all| ==> all[i] == if i < |log| then log[i] else more[i - |log|];
    if Unbroken(all) {
      var i :| 0 <= i < |all| && IsPaid(all[i]) && forall k :: i < k < |all| ==> !IsBreach(all[k]);
      assert IsPaid(log[i]) && forall k :: i < k < |log| ==> log[k] == all[k];
      forall m | 0 <= m < |more| ensures !IsBreach(more[m]) { assert all[|log| + m] == more[m]; }
    }
  }

  /** A revelation right after a move: covered if nothing was unbroken, or if the move is a breach. */
  lemma RevealingKeys(log: seq<Entry>, m: Entry)
    requires Covered(log) && m.Moved? && (Unbroken(log) ==> IsBreach(m))
    ensures Covered(log + [m] + [BuiltPrivkeyMessage])
  {
    var all := log + [m] + [BuiltPrivkeyMessage];
    assert forall i :: 0 <= i < |log| ==> all[i] == log[i];
    forall i, j | 0 <= i < j < |all| && IsPaid(all[i]) && all[j].BuiltPrivkeyMessage? ensures BrokenBetween(all, i, j) {
      assert IsPaid(log[i]);
      if j < |log| {
        assert BrokenBetween(log, i, j);
        var k :| i < k < j && IsBreach(log[k]);
        assert IsBreach(all[k]);
      } else if IsBreach(m) {
        assert IsBreach(all[|log|]);
      } else {
        var k :| i < k < |log| && IsBreach(log[k]);
        assert IsBreach(all[k]);
      }
    }
  }

  lemma TimeoutsGrow(log: seq<Entry>, more: seq<Entry>)
    requires TimeoutsReveal(log)
    requires forall k :: 0 <= k < |more| && IsTimeout(more[k]) ==>
               k == 0 && |more| > 1 && more[1].BuiltPrivkeyMessage? && Paid(log)
    ensures TimeoutsReveal(log + more)
  {
    var all := log + more;
    assert forall i :: 0 <= i < |all| ==> all[i] == if i < |log| then log[i] else more[i - |log|];
    forall k | 0 <= k < |all| && IsTimeout(all[k]) ensures Reveals(all, k) {
      if k < |log| {
        assert Reveals(log, k);
        var i :| 0 <= i < k && IsPaid(log[i]);
        assert IsPaid(all[i]) && all[k + 1] == log[k + 1];
      } else {
        assert IsTimeout(more[k - |log|]);
        var i :| 0 <= i < |log| && IsPaid(log[i]);
        assert IsPaid(all[i]);
      }
    }
  }

  lemma BackedIsPaid(log: seq<Entry>, hex: Bytes, preimage: Bytes)
    requires Backed(log, |log|, hex, preimage)
    ensures Paid(log)
  {
    var j: nat :| Backs(log, j, |log|, hex, preimage);
    assert IsPaid(log[j]);
  }

  // ------------------------------------------------------------- the invariant

  /** On the way from the payment to the claimed swap. */
  predicate Settled(s: Sys) {
    || s.current.ClaimSwap? || s.current.ClaimedPreimage?
    || (s.current.ValidateTxAndPayClaimInvoice?
        && (s.phase == Executed(ActionSucceeded) || s.phase == Pending(ActionSucceeded)
            || s.phase == Recovered(ActionSucceeded)))
  }

  predicate Near(c: State) {
    c.AwaitTxConfirmation? || c.ValidateTxAndPayClaimInvoice? || c.ClaimSwap? || c.ClaimedPreimage?
  }

  ghost predicate Guarded(s: Sys) {
    && Covered(s.log)
    && (Unbroken(s.log) ==> Settled(s) && s.stored.Some? && Near(s.stored.value.current))
    && (s.data.AllowsNewPayment() ==> TimeoutsReveal(s.log))
    && (TimedOut(s.log) ==> s.table.SwapOutSender?)
  }

  predicate KeyEdge(t: Table, s: State, e: Event, n: Option<State>) {
    && (s.ClaimSwap? && n.Some? ==>
          || n.value.ClaimSwap? || n.value.ClaimedPreimage?
          || (n.value.SendPrivkey? && e.OnTimeout? && t.SwapOutSender?))
    && (s.ValidateTxAndPayClaimInvoice? && e.ActionSucceeded? ==> n == Some(ClaimSwap))
    && (s.ClaimedPreimage? ==> n.None?)
  }

  lemma PaymentEdge(t: Table, s: State, e: Event)
    requires !IsMaker(t)
    ensures Next(t, s, e) == Some(ValidateTxAndPayClaimInvoice) ==> s.AwaitTxConfirmation?
  {
    hide Next;
    TakerEdges(t, s, e);
  }

  lemma KeyEdges(t: Table, s: State, e: Event)
    requires !IsMaker(t) && (s.ClaimSwap? || s.ValidateTxAndPayClaimInvoice? || s.ClaimedPreimage?)
    ensures KeyEdge(t, s, e, Next(t, s, e))
  {
  }

  /** What an action adds: a revelation, payments, or neither. */
  lemma ActionKeys(w: World, s: Sys, n: State, x: Exec)
    requires Acts(w, s, n, x)
    ensures x.Ran? && forall i :: 0 <= i < |x.log| ==> !IsBreach(x.log[i])
    ensures if n.SendPrivkey? then x.log == [BuiltPrivkeyMessage]
            else forall i :: 0 <= i < |x.log| ==> !x.log[i].BuiltPrivkeyMessage?
    ensures !(n.ValidateTxAndPayClaimInvoice? && x.event.ActionSucceeded?) ==>
            forall i :: 0 <= i < |x.log| ==> !IsPaid(x.log[i])
  {
    hide SenderEffect, Keeps, MayPay, ClaimDetails, ConfirmationDetails, OpeningContract, CreateDetails, FundedAs;
  }

  /** How the history of payments and revelations changes when `n` is entered or re-run. */
  lemma ActionGuards(w: World, s: Sys, n: State, x: Exec, pre: seq<Entry>)
    requires x.Ran? && Acts(w, s, n, x) && Covered(s.log) && |pre| <= 1
    requires forall i :: 0 <= i < |pre| ==> pre[i].Moved?
    requires n.SendPrivkey? && Unbroken(s.log) ==> |pre| == 1 && IsBreach(pre[0])
    ensures var all := s.log + pre + x.log;
            && Covered(all)
            && (Unbroken(all) ==>
                  || (Unbroken(s.log) && forall i :: 0 <= i < |pre| ==> !IsBreach(pre[i]))
                  || (n.ValidateTxAndPayClaimInvoice? && x.event.ActionSucceeded?))
  {
    hide Acts, Covered, Unbroken;
    ActionKeys(w, s, n, x);
    var more := pre + x.log;
    assert s.log + pre + x.log == s.log + more;
    if n.SendPrivkey? {
      var m := if pre == [] then Moved(n, n, NoOp) else pre[0];
      if pre == [] { RevealingAgain(s.log); } else { assert pre == [m]; RevealingKeys(s.log, m); }
    } else {
      QuietKeys(s.log, more);
    }
    if !(n.ValidateTxAndPayClaimInvoice? && x.event.ActionSucceeded?) {
      BrokenKeys(s.log, more);
      forall i | 0 <= i < |pre| && Unbroken(s.log + more) ensures !IsBreach(pre[i]) { assert more[i] == pre[i]; }
    }
  }

  /** Recovery builds the message again. */
  lemma RevealingAgain(log: seq<Entry>)
    requires Covered(log) && !Unbroken(log)
    ensures Covered(log + [] + [BuiltPrivkeyMessage])
  {
    var all := log + [] + [BuiltPrivkeyMessage];
    assert forall i :: 0 <= i < |log| ==> all[i] == log[i];
    forall i, j | 0 <= i < j < |all| && IsPaid(all[i]) && all[j].BuiltPrivkeyMessage? ensures BrokenBetween(all, i, j) {
      assert IsPaid(log[i]);
      if j < |log| {
        assert BrokenBetween(log, i, j);
        var k :| i < k < j && IsBreach(log[k]);
        assert IsBreach(all[k]);
      } else {
        var k :| i < k < |log| && IsBreach(log[k]);
        assert IsBreach(all[k]);
      }
    }
  }

  /** The move itself, seen as an entry. */
  lemma MoveIsBreach(s: Sys, n: State)
    requires s.phase.Pending? && !IsMaker(s.table) && Settled(s)
    requires Next(s.table, s.current, s.phase.event) == Some(n)
    ensures n.SendPrivkey? ==> IsTimeout(Moved(s.current, n, s.phase.event)) && s.table.SwapOutSender?
    ensures n.SendPrivkey? || n.ClaimSwap? || n.ClaimedPreimage?
  {
    KeyEdges(s.table, s.current, s.phase.event);
    hide Next;
  }

  /** Only a swap-out sender that claims can time out. */
  lemma TimeoutEdge(t: Table, s: State, e: Event, n: State)
    requires !IsMaker(t) && Next(t, s, e) == Some(n) && IsTimeout(Moved(s, n, e))
    ensures t.SwapOutSender?
  {
    KeyEdges(t, s, e);
    hide Next;
  }

  lemma MoveTimeouts(w: World, key: Bytes, s: Sys, n: State, x: Exec)
    requires Guarded(s) && Paying(w, key, s) && !IsMaker(s.table) && s.phase.Pending? && x.Ran?
    requires Next(s.table, s.current, s.phase.event) == Some(n) && Acts(w, s, n, x)
    ensures var r := Move(s, n, x);
            && (s.data.AllowsNewPayment() ==> TimeoutsReveal(r.log)) && (TimedOut(r.log) ==> s.table.SwapOutSender?)
  {
    hide Acts, EntriesSafe, Backed, Covered, Unbroken, TimeoutsReveal, Next, Paid;
    var m := Moved(s.current, n, s.phase.event);
    var more := [m] + x.log;
    assert s.log + [m] + x.log == s.log + more;
    ActionKeys(w, s, n, x);
    if IsTimeout(m) {
      TimeoutEdge(s.table, s.current, s.phase.event, n);
      if s.data.AllowsNewPayment() { BackedIsPaid(s.log, s.data.openingTxHex, s.data.claimPreimage); }
    }
    assert forall k :: 0 < k < |more| ==> more[k] == x.log[k - 1];
    if s.data.AllowsNewPayment() { TimeoutsGrow(s.log, more); }
    if TimedOut(s.log + more) {
      var i :| 0 <= i < |s.log + more| && IsTimeout((s.log + more)[i]);
      if i < |s.log| { assert IsTimeout(s.log[i]); } else { assert IsTimeout(more[i - |s.log|]); }
    }
  }

  lemma MoveGuarded(w: World, key: Bytes, s: Sys, n: State, x: Exec)
    requires Guarded(s) && Paying(w, key, s) && InSync(s) && !IsMaker(s.table) && s.phase.Pending? && x.Ran?
    requires Next(s.table, s.current, s.phase.event) == Some(n) && Acts(w, s, n, x)
    ensures Guarded(Move(s, n, x))
  {
    MoveTimeouts(w, key, s, n, x);
    PaymentEdge(s.table, s.current, s.phase.event);
    hide Acts, Next, Paying, Covered, Unbroken, TimeoutsReveal, TimedOut;
    if Settled(s) { MoveIsBreach(s, n); }
    ActionPolicy(w, key, s, n, x);
    ActionGuards(w, s, n, x, [Moved(s.current, n, s.phase.event)]);
  }

  lemma ActionPolicy(w: World, key: Bytes, s: Sys, n: State, x: Exec)
    requires x.Ran? && Acts(w, s, n, x) && Paying(w, key, s)
    ensures x.data.AllowsNewPayment() == s.data.AllowsNewPayment()
  {
    hide EntriesSafe, Backed, Acts;
    ActionOrigin(w, key, s, n, x);
    SameOriginSamePolicy(key, s.data, x.data);
  }

  lemma ResumeGuarded(w: World, key: Bytes, s: Sys, x: Exec)
    requires Guarded(s) && Paying(w, key, s) && InSync(s) && s.phase.Down? && s.stored.Some?
    requires x.Ran? && Acts(w, s, s.current, x)
    ensures Guarded(Resume(s, x))
  {
    hide Acts, Paying, Covered, Unbroken, TimeoutsReveal;
    ActionPolicy(w, key, s, s.current, x);
    ActionGuards(w, s, s.current, x, []);
    ActionKeys(w, s, s.current, x);
    assert s.log + [] + x.log == s.log + x.log;
    QuietTimeouts(s.log, x.log);
  }

  /** Entries without a timeout. */
  lemma QuietTimeouts(log: seq<Entry>, more: seq<Entry>)
    requires forall i :: 0 <= i < |more| ==> !IsTimeout(more[i])
    ensures TimeoutsReveal(log) ==> TimeoutsReveal(log + more)
    ensures TimedOut(log + more) ==> TimedOut(log)
  {
    hide Reveals;
    var all := log + more;
    assert forall i :: 0 <= i < |all| ==> all[i] == if i < |log| then log[i] else more[i - |log|];
    if TimeoutsReveal(log) { TimeoutsGrow(log, more); }
    if TimedOut(all) {
      var i :| 0 <= i < |all| && IsTimeout(all[i]);
      assert IsTimeout(log[i]);
    }
  }

  lemma CrashGuarded(w: World, key: Bytes, s: Sys)
    requires Guarded(s) && Paying(w, key, s)
    ensures Guarded(ApplyCrash(s))
  {
    hide Paying, Covered, Unbroken, TimeoutsReveal, TimedOut;
    if s.stored.Some? {
      var e := CrashEntry(s, s.stored.value);
      QuietKeys(s.log, [e]);
      BrokenKeys(s.log, [e]);
      QuietTimeouts(s.log, [e]);
      StoredPolicy(w, key, s);
      assert [e][0] == e;
    }
  }

  lemma StoredPolicy(w: World, key: Bytes, s: Sys)
    requires Paying(w, key, s) && s.stored.Some?
    ensures s.stored.value.data.AllowsNewPayment() == s.data.AllowsNewPayment()
  {
    hide EntriesSafe, Backed;
    SameOriginSamePolicy(key, s.data, s.stored.value.data);
  }

  lemma DispatchGuarded(w: World, key: Bytes, s: Sys, o: Outcome)
    requires Guarded(s) && Paying(w, key, s) && InSync(s) && !IsMaker(s.table)
    ensures Guarded(ApplyDispatch(w, s, o))
  {
    hide ApplyCrash, ApplyDispatch, Move, Summary, Details, Next, Paying, Covered, Unbroken, TimeoutsReveal, TimedOut;
    CrashGuarded(w, key, s);
    var n, x := DispatchCases(w, s, o);
    if s.phase.Pending? {
      DispatchIdles(w, s, o);
      if Settled(s) { KeyEdges(s.table, s.current, s.phase.event); }
      if x.Ran? && Next(s.table, s.current, s.phase.event) == Some(n) && Acts(w, s, n, x) {
        MoveGuarded(w, key, s, n, x);
      }
    }
  }

  lemma RestartGuarded(w: World, key: Bytes, s: Sys, o: Outcome)
    requires Guarded(s) && Paying(w, key, s) && InSync(s) && !IsMaker(s.table)
    ensures Guarded(ApplyRestart(w, s, o))
  {
    hide ApplyCrash, ApplyRestart, Resume, Summary, Details, Paying, Covered, Unbroken, TimeoutsReveal, TimedOut;
    CrashGuarded(w, key, s);
    var x := RestartCases(w, s, o);
    if x.Ran? && s.phase.Down? && s.stored.Some? && Acts(w, s, s.current, x) { ResumeGuarded(w, key, s, x); }
  }

  lemma DeliverGuarded(s: Sys, i: Input)
    requires Guarded(s) && InSync(s)
    ensures Guarded(ApplyDeliver(s, i))
  {
    hide ApplyInput, ValidInput, EventOf, Covered, Unbroken, TimeoutsReveal, TimedOut;
    if s.phase.Idle? && s.stored.Some? && ApplyInput(s.data, i).Some? {
      SameOriginSamePolicy(s.data.privkey, s.data, ApplyInput(s.data, i).value);
    }
    QuietKeys(s.log, InputLog(i));
    BrokenKeys(s.log, InputLog(i));
    QuietTimeouts(s.log, InputLog(i));
    hide InputLog;
  }

  lemma PersistGuarded(s: Sys)
    requires Guarded(s) && InSync(s)
    ensures Guarded(ApplyPersist(s))
  {
    hide Covered, Unbroken, TimeoutsReveal, TimedOut;
  }

  lemma StartGuarded(w: World, s: Sys, r: Request)
    requires Guarded(s) && InSync(s)
    ensures Guarded(ApplyStart(w, s, r))
  {
    hide ValidRequest;
  }

  lemma StepGuarded(w: World, key: Bytes, s: Sys, l: Label)
    requires Guarded(s) && Paying(w, key, s) && InSync(s) && !IsMaker(s.table)
    ensures Guarded(Apply(w, s, l))
  {
    hide Paying, Guarded;
    match l
    case Start(r) => hide ApplyStart; StartGuarded(w, s, r);
    case Deliver(i) => hide ApplyDeliver; DeliverGuarded(s, i);
    case Dispatch(o) => hide ApplyDispatch; DispatchGuarded(w, key, s, o);
    case Persist => hide ApplyPersist; PersistGuarded(s);
    case Crash => hide ApplyCrash; CrashGuarded(w, key, s);
    case Restart(o) => hide ApplyRestart; RestartGuarded(w, key, s, o);
  }

  lemma {:induction false} AlwaysGuarded(w: World, t: Table, key: Bytes, labels: seq<Label>)
    requires !IsMaker(t)
    ensures Guarded(Run(w, New(t, key), labels))
  {
    if labels != [] {
      var before := labels[..|labels| - 1];
      AlwaysGuarded(w, t, key, before);
      AlwaysPaying(w, t, key, before);
      AlwaysInSync(w, t, key, before);
      Progress.TableIsFixed(w, New(t, key), before);
      hide Apply, Paying, InSync;
      StepGuarded(w, key, Run(w, New(t, key), before), labels[|labels| - 1]);
    }
  }

  // ------------------------------------------------------------ main results

  /** A private-key message after a payment with a crash in between that threw the taker back
      to before the claim. */
  ghost predicate KeyAfterThrowback(log: seq<Entry>) {
    exists i, k, j :: 0 <= i < k < j < |log| && IsPaid(log[i]) && IsThrownBack(log[k]) && log[j].BuiltPrivkeyMessage?
  }

  lemma CoveredKeys(log: seq<Entry>)
    requires Covered(log) && TimeoutsReveal(log)
    ensures KeyAfterPayment(log) <==> TimedOut(log) || KeyAfterThrowback(log)
  {
    if KeyAfterPayment(log) {
      var i, j :| 0 <= i < j < |log| && IsPaid(log[i]) && log[j].BuiltPrivkeyMessage?;
      assert BrokenBetween(log, i, j);
      var k :| i < k < j && IsBreach(log[k]);
      if IsTimeout(log[k]) { assert TimedOut(log); } else { assert IsThrownBack(log[k]); }
    }
    if TimedOut(log) {
      var k :| 0 <= k < |log| && IsTimeout(log[k]);
      assert Reveals(log, k);
      var i :| 0 <= i < k && IsPaid(log[i]);
      assert log[k + 1].BuiltPrivkeyMessage?;
    }
  }

  /** In every taker run whose policy allows new claim payments, crashes included, the private
      key is given away after a payment returned a preimage exactly when the machine left
      `ClaimSwap` by its timeout edge, or a crash between the two threw it back to before the
      claim. A swap-in receiver has no timeout edge; without a crash only that edge is left. */
  lemma {:induction false} KeyIsKeptAfterPayment(w: World, t: Table, key: Bytes, labels: seq<Label>)
    requires !IsMaker(t) && Run(w, New(t, key), labels).data.AllowsNewPayment()
    ensures var log := Run(w, New(t, key), labels).log;
            && (KeyAfterPayment(log) <==> TimedOut(log) || KeyAfterThrowback(log))
            && (t.SwapInReceiver? ==> !TimedOut(log))
            && (CrashFree(log) ==> !KeyAfterThrowback(log))
  {
    AlwaysGuarded(w, t, key, labels);
    Progress.TableIsFixed(w, New(t, key), labels);
    var log := Run(w, New(t, key), labels).log;
    hide Run, Covered, TimeoutsReveal, KeyAfterPayment, TimedOut, Unbroken;
    CoveredKeys(log);
  }
}
