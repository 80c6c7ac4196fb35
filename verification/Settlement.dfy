/** The taker's way forward: once it has paid and no breach has struck since, it can always claim
    what it paid for. */
module Settlement {
  import opened Base
  import opened SwapData
  import opened OnChain
  import opened States
  import opened Actions
  import opened Fsm
  import opened Presence
  import opened Takers
  import opened Payments
  import opened Keys
  import Openings
  import Progress

  /** The claim with the preimage, exactly: it succeeds if one is on record, or if the wallet is
      willing and the raw opening transaction can be spent. */
  lemma PreimageClaimRuns(w: World, t: Table, d: Data, snd: Option<nat>, id: nat, o: Outcome)
    requires o.spent.Some? && d.AmountsKnown() && !d.GetChain().Unknown?
    ensures var x := Execute(w, t, ClaimSwap, d, snd, id, o);
            && x.Ran? && x.event == (if Openings.Refunds(w, d) then ActionSucceeded else OnRetry)
            && (if Openings.Refunds(w, d) then x.data.claimTxId != [] else x.data == d)
  {
    hide Create, PayFee, Broadcast, SendWithRetry, RefundAction, PlainAction, SetStartingHeight, AwaitConfirmation,
      ValidateAndPay, Spendable;
  }

  lemma ClaimingEdges(t: Table)
    requires !IsMaker(t)
    ensures Next(t, ClaimSwap, ActionSucceeded) == Some(ClaimedPreimage)
    ensures Next(t, ClaimSwap, OnRetry) == Some(ClaimSwap)
  {
  }

  /** After a successful claim it takes one more round to the finished swap. */
  lemma FinishClaimed(w: World, s: Sys, o: Outcome)
    requires !IsMaker(s.table) && s.current.ClaimSwap?
    requires s.phase == Recovered(ActionSucceeded)
    ensures ApplyPersist(ApplyDispatch(w, ApplyPersist(s), o)).current.ClaimedPreimage?
  {
    var p := ApplyPersist(s);
    assert p == Save(s).(phase := Pending(ActionSucceeded));
    ClaimingEdges(s.table);
    hide Next;
    assert Execute(w, s.table, ClaimedPreimage, s.data, s.sender, |s.log|, o)
           == Ran(s.data, Done, StopLog(s.sender), None);
    hide Execute;
  }

  /** After a failed one, to another try. */
  lemma FinishRetrying(w: World, s: Sys, o: Outcome)
    requires !IsMaker(s.table) && s.current.ClaimSwap? && o.spent.Some? && s.phase == Recovered(OnRetry)
    requires s.data.AmountsKnown() && !s.data.GetChain().Unknown? && !Openings.Refunds(w, s.data)
    ensures ApplyPersist(ApplyDispatch(w, ApplyPersist(s), o)).current.ClaimSwap?
  {
    var p := ApplyPersist(s);
    assert p.phase == Pending(OnRetry) && p.current == s.current && p.data == s.data && p.log == s.log;
    hide ApplyPersist;
    ClaimingEdges(s.table);
    hide Next;
    PreimageClaimRuns(w, p.table, p.data, p.sender, |p.log|, o);
    hide Execute, Openings.Refunds;
    Openings.PersistKeepsState(ApplyDispatch(w, p, o));
  }

  /** A restart lets a claim that gave up, or was interrupted, try again. */
  function WayToClaim(o: Outcome): seq<Label> {
    [Crash, Restart(o), Persist, Dispatch(o), Persist]
  }

  /** Stored in the claiming state, with what a claim reads. */
  predicate Claiming(s: Sys) {
    && !IsMaker(s.table) && s.stored.Some? && s.stored.value.current.ClaimSwap?
    && s.stored.value.data.AmountsKnown() && !s.stored.value.data.GetChain().Unknown?
  }

  lemma AfterTheRestart(w: World, s: Sys, o: Outcome)
    requires Claiming(s) && o.spent.Some?
    ensures var r, d := ApplyRestart(w, ApplyCrash(s), o), s.stored.value.data;
            && r.table == s.table && r.current.ClaimSwap?
            && r.phase == Recovered(if Openings.Refunds(w, d) then ActionSucceeded else OnRetry)
            && (!Openings.Refunds(w, d) ==> r.data == d)
  {
    var c := ApplyCrash(s);
    PreimageClaimRuns(w, c.table, c.data, None, |c.log|, o);
    assert !FailOnRecover(c.table, ClaimSwap);
    hide Execute, Openings.Refunds, FailOnRecover;
  }

  lemma ToClaim(w: World, s: Sys, o: Outcome)
    requires Claiming(s) && o.spent.Some?
    ensures Run(w, s, WayToClaim(o)).current.ClaimedPreimage? <==> Openings.Refunds(w, s.stored.value.data)
  {
    hide ApplyDispatch, ApplyPersist, ApplyRestart, ApplyCrash, Run, Openings.Refunds;
    AfterTheRestart(w, s, o);
    var r := ApplyRestart(w, ApplyCrash(s), o);
    if Openings.Refunds(w, s.stored.value.data) { FinishClaimed(w, r, o); } else { FinishRetrying(w, r, o); }
    RunFive(w, s, Crash, Restart(o), Persist, Dispatch(o), Persist);
  }

  lemma ClaimingReady(w: World, s: Sys)
    requires Holds(s) && !IsMaker(s.table) && s.stored.Some? && s.stored.value.current.ClaimSwap? && Bound(w, s)
    requires s.stored.value.data.AllowsNewPayment()
    ensures Claiming(s)
  {
  }

  /** Whatever watchers reported after a payment has the outputs of the transaction paid for. */
  ghost predicate OneOpeningTx(w: World, log: seq<Entry>) {
    forall j, k :: 0 <= j < k < |log| && log[j].ClaimPayment? && log[k].HexDelivered? ==>
                   w.parse(log[k].txHex) == w.parse(log[j].txHex)
  }

  lemma SameOutputsValidate(w: World, d: Data, a: Bytes, b: Bytes)
    requires d.AmountsKnown() && w.parse(a) == w.parse(b)
    ensures var chain, params := d.GetChain(), d.GetOpeningParams(w);
            ValidateTx(w, chain, params, a) == ValidateTx(w, chain, params, b)
  {
  }

  /** What was paid for can be spent. */
  lemma PaidIsSpendable(w: World, log: seq<Entry>, c: State, d: Data)
    requires EntriesSafe(w, log, c, d) && OneOpeningTx(w, log)
    requires Backed(log, |log|, d.openingTxHex, d.claimPreimage)
    ensures d.AmountsKnown() && Openings.Refunds(w, d)
  {
    var j: nat :| Backs(log, j, |log|, d.openingTxHex, d.claimPreimage);
    assert SafePayment(w, d, log[j]);
    SafetyBinds(w, d, log[j]);
    var hex := log[j].txHex;
    assert w.parse(d.openingTxHex) == w.parse(hex);
    hide ValidateTx, Spendable;
    SameOutputsValidate(w, d, hex, d.openingTxHex);
    ValidatedIsSpendable(w, d.GetChain(), d.GetOpeningParams(w), d.openingTxHex);
  }

  /** For every taker run whose policy allows new claim payments: as long as the stored state is
      `ClaimSwap`, whatever crashes and failures came before, a restart with a willing wallet
      claims the output, provided the watchers did not swap the transaction. */
  lemma {:induction false} StoredClaimSucceeds(w: World, t: Table, key: Bytes, labels: seq<Label>, o: Outcome)
    requires !IsMaker(t) && o.spent.Some?
    requires var s := Run(w, New(t, key), labels);
             && s.data.AllowsNewPayment() && s.stored.Some? && s.stored.value.current.ClaimSwap?
             && OneOpeningTx(w, s.log)
    ensures var s := Run(w, New(t, key), labels); Run(w, s, WayToClaim(o)).current.ClaimedPreimage?
  {
    var s := Run(w, New(t, key), labels);
    AlwaysPaying(w, t, key, labels);
    AlwaysBound(w, t, key, labels);
    AlwaysHolds(w, t, key, labels);
    Progress.TableIsFixed(w, New(t, key), labels);
    hide Run, Holds, Bound, EntriesSafe, Backed, OneOpeningTx, WayToClaim, Openings.Refunds;
    StoredPolicy(w, key, s);
    ClaimingReady(w, s);
    PaidIsSpendable(w, s.log, s.stored.value.current, s.stored.value.data);
    ToClaim(w, s, o);
  }

  /** And a taker at rest that has paid, with no breach since, has claimed or is stored there:
      it has its output or can always get it. */
  lemma {:induction false} PaidTakerAlwaysClaims(w: World, t: Table, key: Bytes, labels: seq<Label>, o: Outcome)
    requires !IsMaker(t) && o.spent.Some?
    requires var s := Run(w, New(t, key), labels);
             s.data.AllowsNewPayment() && Unbroken(s.log) && s.phase.Idle? && OneOpeningTx(w, s.log)
    ensures var s := Run(w, New(t, key), labels);
            s.current.ClaimedPreimage? || (s.current.ClaimSwap? && Run(w, s, WayToClaim(o)).current.ClaimedPreimage?)
  {
    var s := Run(w, New(t, key), labels);
    AlwaysGuarded(w, t, key, labels);
    AlwaysInSync(w, t, key, labels);
    hide Run, OneOpeningTx, WayToClaim, Unbroken, Covered, TimeoutsReveal;
    if s.current.ClaimSwap? { StoredClaimSucceeds(w, t, key, labels, o); }
  }
}
