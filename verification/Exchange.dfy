/** Two honest peers compute the same contract: whatever else happens on either side, equal
    request, agreement and opening message give equal opening parameters, which are those the
    maker funded, with each side's own key in its role. */
module Exchange {
  import opened Base
  import opened Timelock
  import opened SwapData
  import opened States
  import opened Actions
  import opened Effects
  import opened Fsm
  import opened Presence
  import opened Takers
  import Payments
  import Progress

  /** The maker's place in the script is held by its own key. */
  predicate MakerKey(w: World, t: Table, c: State, d: Data) {
    && (t.SwapInSender? && d.swapInRequest.Some? ==> d.swapInRequest.value.pubkey == w.pub(d.privkey))
    && (t.SwapOutReceiver? && NeedsAgreement(c) ==>
          d.swapOutAgreement.Some? && d.swapOutAgreement.value.pubkey == w.pub(d.privkey))
  }

  /** The opening message of a maker is the one it funded, under its own key. */
  ghost predicate Owned(w: World, log: seq<Entry>, d: Data) {
    FundedAs(w, log, d) && d.GetMakerPubkey() == w.pub(d.privkey)
  }

  /** Where the data comes from: blinding keys are a Liquid maker's; as long as no foreign
      opening message was accepted, the one on record is the maker's own; and only its own
      brings a raw transaction with it, watchers aside. */
  ghost predicate Sourced(w: World, t: Table, log: seq<Entry>, c: State, d: Data) {
    && MakerKey(w, t, c, d)
    && (d.blindingKey != [] ==> IsMaker(t) && d.GetChain().Lbtc?)
    && (IsMaker(t) ==>
          && d.claimPaymentHash == []
          && (Foreign(log) ==> d.openingTxBroadcasted.Some?)
          && (!Foreign(log) ==> (c.Default? ==> d.openingTxBroadcasted.None?)
                                && (d.openingTxBroadcasted.Some? ==> Owned(w, log, d)))
          && ((Foreign(log) || d.openingTxBroadcasted.None?) ==> Strayed(log) || d.openingTxHex == []))
  }

  ghost predicate Provenance(w: World, s: Sys) {
    && Sourced(w, s.table, s.log, s.current, s.data)
    && (s.stored.Some? ==> Sourced(w, s.table, s.log, s.stored.value.current, s.stored.value.data))
    && (s.current.CreateSwap? && Reported(s.phase) ==> MakerKey(w, s.table, AwaitFeeInvoicePayment, s.data))
  }

  // ------------------------------------------------------------------ steps

  lemma SourcedGrows(w: World, t: Table, log: seq<Entry>, c: State, d: Data, more: seq<Entry>)
    requires Sourced(w, t, log, c, d) && Unheard(more)
    ensures Sourced(w, t, log + more, c, d)
  {
    hide MakerKey, FundedAs, Foreign, Strayed, Unheard;
    HistoryGrows(log, more);
    FundedGrows(w, log, more, d);
  }

  lemma FundedGrows(w: World, a: seq<Entry>, b: seq<Entry>, d: Data)
    ensures FundedAs(w, a, d) || FundedAs(w, b, d) ==> FundedAs(w, a + b, d)
  {
    hide Funds;
    var all := a + b;
    HistoryGrows(a, b);
    if FundedAs(w, a, d) {
      var i :| 0 <= i < |a| && a[i].Funded? && Funds(w, d, a[i]) && (Strayed(a) || a[i].txHex == d.openingTxHex);
      assert all[i] == a[i];
    } else if FundedAs(w, b, d) {
      var i :| 0 <= i < |b| && b[i].Funded? && Funds(w, d, b[i]) && (Strayed(b) || b[i].txHex == d.openingTxHex);
      assert all[|a| + i] == b[i];
      if Strayed(b) {
        var k :| 0 <= k < |b| && b[k].HexDelivered?;
        assert all[|a| + k].HexDelivered?;
      }
    }
  }

  /** Nothing a funding is compared with has changed. */
  predicate SameFunding(a: Data, b: Data) {
    && a.swapInRequest == b.swapInRequest && a.swapOutRequest == b.swapOutRequest && a.privkey == b.privkey
    && SameAgreements(a, b) && a.openingTxBroadcasted == b.openingTxBroadcasted
    && a.claimPaymentHash == b.claimPaymentHash && a.claimPreimage == b.claimPreimage && a.blindingKey == b.blindingKey
  }

  lemma FundsKept(w: World, d: Data, d': Data, e: Entry)
    requires SameFunding(d, d') || Grows(d, d')
    requires Funds(w, d, e)
    ensures Funds(w, d', e) && d'.GetMakerPubkey() == d.GetMakerPubkey() && d'.privkey == d.privkey
    ensures d'.GetChain() == d.GetChain()
  {
  }

  lemma FundingKept(w: World, log: seq<Entry>, d: Data, e: Data)
    requires SameFunding(d, e) || Grows(d, e)
    requires FundedAs(w, log, d) && (e.openingTxHex == d.openingTxHex || Strayed(log))
    ensures FundedAs(w, log, e) && e.GetMakerPubkey() == d.GetMakerPubkey() && e.privkey == d.privkey
    ensures e.GetChain() == d.GetChain()
  {
    hide Funds, Strayed;
    var i :| && 0 <= i < |log| && log[i].Funded? && Funds(w, d, log[i])
             && (Strayed(log) || log[i].txHex == d.openingTxHex);
    FundsKept(w, d, e, log[i]);
  }

  lemma MakerActs(w: World, s: Sys, n: State, x: Exec)
    requires Acts(w, s, n, x) && IsMaker(s.table) && InTable(s.table, n) && !n.CreateSwap?
    ensures SameFunding(s.data, x.data) || (n.BroadcastOpeningTx? && s.data.openingTxBroadcasted.None?)
    ensures x.data.claimPaymentHash == s.data.claimPaymentHash && x.data.blindingKey == s.data.blindingKey
    ensures SameSwap(s.data, x.data) && SameAgreements(s.data, x.data)
    ensures x.data.GetMakerPubkey() == s.data.GetMakerPubkey()
    ensures s.data.openingTxBroadcasted.Some? || x.data.openingTxBroadcasted.None? ==>
            x.data.openingTxHex == s.data.openingTxHex
    ensures (n.BroadcastOpeningTx? && x.data.openingTxBroadcasted.Some? && Unopened(s.data)) ==>
            FundedAs(w, x.log, x.data)
    ensures Unheard(x.log)
  {
    hide SenderEffect, PaymentDetails, ClaimDetails, ConfirmationDetails, FundedAs;
  }

  lemma OwnMakerKey(w: World, t: Table, d: Data)
    requires IsMaker(t) && MakerKey(w, t, BroadcastOpeningTx, d) && Ready(t, BroadcastOpeningTx, d)
    ensures d.GetMakerPubkey() == w.pub(d.privkey)
  {
  }

  lemma MakerActionSourced(w: World, s: Sys, n: State, x: Exec, pre: seq<Entry>)
    requires x.Ran? && Acts(w, s, n, x) && IsMaker(s.table) && InTable(s.table, n) && Ready(s.table, n, s.data)
    requires Sourced(w, s.table, s.log, s.current, s.data) && MakerKey(w, s.table, n, s.data)
    requires !n.CreateSwap? && !n.Default? && Unheard(pre)
    ensures Sourced(w, s.table, s.log + pre + x.log, n, x.data)
  {
    hide Acts, FundedAs, Ready, Data.GetMakerPubkey, Foreign, Strayed;
    MakerActs(w, s, n, x);
    var more := pre + x.log;
    assert s.log + pre + x.log == s.log + more && Unheard(more);
    HistoryGrows(s.log, more);
    if !Foreign(s.log) && s.data.openingTxBroadcasted.Some? {
      FundingKept(w, s.log, s.data, x.data);
      FundedGrows(w, s.log, more, x.data);
    } else if n.BroadcastOpeningTx? && s.data.openingTxBroadcasted.None? {
      OwnMakerKey(w, s.table, s.data);
      FundedGrows(w, s.log + pre, x.log, x.data);
    }
  }

  lemma CreationSourced(w: World, s: Sys, x: Exec, pre: seq<Entry>)
    requires x.Ran? && Acts(w, s, CreateSwap, x) && Sourced(w, s.table, s.log, Default, s.data) && Unheard(pre)
    ensures Sourced(w, s.table, s.log + pre + x.log, CreateSwap, x.data)
    ensures x.event.ActionSucceeded? ==> MakerKey(w, s.table, AwaitFeeInvoicePayment, x.data)
  {
    CreationKeeps(w, s, x);
    hide Acts, FundedAs, Foreign, Strayed;
    var more := pre + x.log;
    assert s.log + pre + x.log == s.log + more && Unheard(more);
    HistoryGrows(s.log, more);
  }

  lemma CreationKeeps(w: World, s: Sys, x: Exec)
    requires x.Ran? && Acts(w, s, CreateSwap, x)
    ensures SameSwap(s.data, x.data) && SameClaim(s.data, x.data) && Unheard(x.log)
    ensures x.data.blindingKey != s.data.blindingKey ==> IsMaker(s.table) && s.data.GetChain().Lbtc?
    ensures x.event.ActionSucceeded? && s.table.SwapOutReceiver? ==>
            x.data.swapOutAgreement.Some? && x.data.swapOutAgreement.value.pubkey == w.pub(s.data.privkey)
  {
    hide SenderEffect;
  }

  lemma TakerActionSourced(w: World, s: Sys, n: State, x: Exec, log: seq<Entry>)
    requires x.Ran? && Acts(w, s, n, x) && !IsMaker(s.table)
    requires s.data.blindingKey == []
    ensures Sourced(w, s.table, log, n, x.data)
  {
    hide SenderEffect, PaymentDetails, ClaimDetails, ConfirmationDetails, OpeningContract, FundedAs;
  }

  lemma MoveProvenance(w: World, s: Sys, n: State, x: Exec)
    requires Provenance(w, s) && InSync(s) && Holds(s) && s.phase.Pending? && x.Ran?
    requires Next(s.table, s.current, s.phase.event) == Some(n) && Acts(w, s, n, x)
    ensures Provenance(w, Move(s, n, x))
  {
    hide Next, Acts, Ready, FundedAs, Foreign, Strayed, Succeeded;
    var e, pre := s.phase.event, [Moved(s.current, n, s.phase.event)];
    TablesAreClosed(s.table, s.current, e);
    NoEdgeToDefault(s.table, s.current, e);
    EdgesSupply(s.table, s.current, e);
    Entering(s.table, s.current, e, n, s.data);
    if !IsMaker(s.table) {
      TakerActionSourced(w, s, n, x, s.log + pre + x.log);
    } else if n.CreateSwap? {
      CreationSourced(w, s, x, pre);
    } else {
      MakerActionSourced(w, s, n, x, pre);
    }
    ActionIsUnheard(w, s, n, x);
    SourcedGrows(w, s.table, s.log, s.current, s.data, pre + x.log);
    assert s.log + pre + x.log == s.log + (pre + x.log);
  }

  lemma ResumeProvenance(w: World, s: Sys, x: Exec)
    requires Provenance(w, s) && InSync(s) && Holds(s) && s.phase.Down? && x.Ran? && s.stored.Some?
    requires Acts(w, s, s.current, x) && !FailOnRecover(s.table, s.current) && !s.current.Default?
    ensures Provenance(w, Resume(s, x))
  {
    hide Acts, Ready, FundedAs;
    if !IsMaker(s.table) {
      TakerActionSourced(w, s, s.current, x, s.log + x.log);
    } else {
      MakerActionSourced(w, s, s.current, x, []);
      assert s.log + [] + x.log == s.log + x.log;
    }
    ActionIsUnheard(w, s, s.current, x);
    SourcedGrows(w, s.table, s.log, s.current, s.data, x.log);
  }

  lemma ActionIsUnheard(w: World, s: Sys, n: State, x: Exec)
    requires Acts(w, s, n, x)
    ensures x.Ran? && Unheard(x.log)
  {
    hide Details, SenderEffect, Keeps;
  }

  lemma CrashProvenance(w: World, s: Sys)
    requires Provenance(w, s)
    ensures Provenance(w, ApplyCrash(s))
  {
    hide Sourced;
    if s.stored.Some? {
      SourcedGrows(w, s.table, s.log, s.stored.value.current, s.stored.value.data, [ApplyCrash(s).log[|s.log|]]);
    }
  }

  /** What an input does to the opening message and the raw transaction. */
  lemma InputOpens(d: Data, i: Input)
    requires ApplyInput(d, i).Some?
    ensures var e := ApplyInput(d, i).value;
            && (i.OpeningReceived? ==> d.openingTxBroadcasted.None? && e.openingTxBroadcasted.Some?)
            && (!i.OpeningReceived? ==> e.openingTxBroadcasted == d.openingTxBroadcasted)
            && (!i.TxConfirmed? ==> e.openingTxHex == d.openingTxHex)
    ensures i.OpeningReceived? ==> Foreign(InputLog(i))
    ensures i.TxConfirmed? ==> Strayed(InputLog(i))
    ensures !i.OpeningReceived? ==> Unheard(InputLog(i))
    ensures !EventOf(i).ActionSucceeded?
  {
    if i.OpeningReceived? { assert InputLog(i)[0].OpeningHeard?; }
    if i.TxConfirmed? { assert InputLog(i)[0].HexDelivered?; }
  }

  lemma MakerKeyGrows(w: World, t: Table, c: State, d: Data, e: Data)
    requires MakerKey(w, t, c, d) && Grows(d, e)
    ensures MakerKey(w, t, c, e) && (e.blindingKey != [] && d.GetChain().Lbtc? ==> e.GetChain().Lbtc?)
  {
  }

  lemma Appended(a: seq<Entry>, b: seq<Entry>)
    ensures Foreign(b) ==> Foreign(a + b)
    ensures Strayed(b) ==> Strayed(a + b)
  {
    if Foreign(b) { var i :| 0 <= i < |b| && b[i].OpeningHeard?; assert (a + b)[|a| + i] == b[i]; }
    if Strayed(b) { var i :| 0 <= i < |b| && b[i].HexDelivered?; assert (a + b)[|a| + i] == b[i]; }
  }

  lemma HeardSourced(w: World, t: Table, log: seq<Entry>, c: State, d: Data, i: Input)
    requires Sourced(w, t, log, c, d) && ApplyInput(d, i).Some?
    ensures Sourced(w, t, log + InputLog(i), c, ApplyInput(d, i).value)
  {
    hide FundedAs, MakerKey, Foreign, Strayed, ApplyInput, InputLog;
    InputOpens(d, i);
    var e, more := ApplyInput(d, i).value, InputLog(i);
    MakerKeyGrows(w, t, c, d, e);
    HistoryGrows(log, more);
    Appended(log, more);
    if IsMaker(t) && !Foreign(log + more) && d.openingTxBroadcasted.Some? {
      FundedGrows(w, log, more, d);
      FundingKept(w, log + more, d, e);
    }
  }

  lemma DeliverProvenance(w: World, s: Sys, i: Input)
    requires Provenance(w, s) && InSync(s)
    ensures Provenance(w, ApplyDeliver(s, i))
  {
    hide ApplyInput, ValidInput, EventOf, Sourced, InputLog;
    if s.phase.Idle? && s.stored.Some? && ApplyInput(s.data, i).Some? {
      InputOpens(s.data, i);
      HeardSourced(w, s.table, s.log, s.current, s.data, i);
    }
  }

  lemma PersistProvenance(w: World, s: Sys)
    requires Provenance(w, s) && InSync(s)
    ensures Provenance(w, ApplyPersist(s))
  {
    hide Sourced, MakerKey;
  }

  lemma DispatchProvenance(w: World, s: Sys, o: Outcome)
    requires Provenance(w, s) && InSync(s) && Holds(s)
    ensures Provenance(w, ApplyDispatch(w, s, o))
  {
    CrashProvenance(w, s);
    var n, x := DispatchCases(w, s, o);
    if s.phase.Pending? && Next(s.table, s.current, s.phase.event) == Some(n) && Acts(w, s, n, x) {
      MoveProvenance(w, s, n, x);
    }
    hide ApplyCrash, ApplyDispatch, Move, Acts, Next, Sourced, MakerKey, Holds;
  }

  lemma RestartProvenance(w: World, s: Sys, o: Outcome)
    requires Provenance(w, s) && InSync(s) && Holds(s)
    ensures Provenance(w, ApplyRestart(w, s, o))
  {
    CrashProvenance(w, s);
    var x := RestartCases(w, s, o);
    if s.phase.Down? && !FailOnRecover(s.table, s.current) && !s.current.Default? && Acts(w, s, s.current, x) {
      ResumeProvenance(w, s, x);
    }
    hide ApplyRestart, ApplyCrash, Acts, Resume, Sourced, MakerKey, Holds, FailOnRecover;
  }

  lemma StartProvenance(w: World, s: Sys, r: Request)
    requires Provenance(w, s) && InSync(s) && Holds(s)
    ensures Provenance(w, ApplyStart(w, s, r))
  {
    hide FundedAs, ValidRequest;
  }

  lemma StepProvenance(w: World, s: Sys, l: Label)
    requires Provenance(w, s) && InSync(s) && Holds(s)
    ensures Provenance(w, Apply(w, s, l))
  {
    match l
    case Start(r) => hide FundedAs, ValidRequest; StartProvenance(w, s, r);
    case Deliver(i) => hide ApplyDeliver, Provenance; DeliverProvenance(w, s, i);
    case Dispatch(o) => hide ApplyDispatch, Provenance; DispatchProvenance(w, s, o);
    case Persist => hide ApplyPersist, Provenance; PersistProvenance(w, s);
    case Crash => hide ApplyCrash, Provenance; CrashProvenance(w, s);
    case Restart(o) => hide ApplyRestart, Provenance; RestartProvenance(w, s, o);
  }

  lemma {:induction false} AlwaysProvenance(w: World, t: Table, key: Bytes, labels: seq<Label>)
    ensures Provenance(w, Run(w, New(t, key), labels))
  {
    if labels != [] {
      var before := labels[..|labels| - 1];
      AlwaysProvenance(w, t, key, before);
      AlwaysInSync(w, t, key, before);
      AlwaysHolds(w, t, key, before);
      Progress.TableIsFixed(w, New(t, key), before);
      hide Apply, Holds, InSync, Provenance;
      StepProvenance(w, Run(w, New(t, key), before), labels[|labels| - 1]);
    }
  }

  // ------------------------------------------------------------- main result

  function PeerOf(maker: Table): Table {
    if maker.SwapInSender? then SwapInReceiver else SwapOutSender
  }

  /** Both sides hold the same request, agreement and opening message. */
  predicate Exchanged(maker: Table, a: Data, b: Data) {
    && OwnRequest(maker, a) == OwnRequest(maker, b) && OwnAgreement(maker, a) == OwnAgreement(maker, b)
    && a.openingTxBroadcasted == b.openingTxBroadcasted && a.openingTxBroadcasted.Some?
  }

  /** An invoice decodes to the hash of the preimage it was issued for. */
  predicate IssuedForPreimage(w: World, d: Data)
    requires d.openingTxBroadcasted.Some?
  {
    var invoice := w.decode(d.openingTxBroadcasted.value.payreq);
    invoice.Some? ==> invoice.value.hash == d.GetPaymentHash(w)
  }

  lemma SameParams(w: World, tm: Table, m: Data, t: Data)
    requires IsMaker(tm) && Exchanged(tm, m, t) && OtherRequest(tm, m).None? && OtherRequest(tm, t).None?
    requires m.AmountsKnown() && m.GetPolicy().Some? && m.openingTxBroadcasted.value.blindingKey == m.GetBlindingKey()
    requires t.blindingKey == [] && InvoiceBound(w, t) && IssuedForPreimage(w, m)
    ensures m.GetOpeningParams(w) == t.GetOpeningParams(w)
  {
  }

  /** After any run of a maker that accepted no foreign opening message and any run of its
      taker, once they hold the same request, agreement and opening message and the taker has
      checked the invoice, both compute the parameters the maker funded, and each side's key is
      in its own place. */
  lemma {:induction false} PeersAgree(w: World, tm: Table, makerKey: Bytes, takerKey: Bytes, makerRun: seq<Label>,
                                      takerRun: seq<Label>)
    requires IsMaker(tm) && !Foreign(Run(w, New(tm, makerKey), makerRun).log)
    requires var m := Run(w, New(tm, makerKey), makerRun);
             var t := Run(w, New(PeerOf(tm), takerKey), takerRun);
             && Exchanged(tm, m.data, t.data) && IssuedForPreimage(w, m.data)
             && t.data.AllowsNewPayment() && Checked(t.current, t.phase)
    ensures var m := Run(w, New(tm, makerKey), makerRun);
            var t := Run(w, New(PeerOf(tm), takerKey), takerRun);
            && m.data.AmountsKnown() && t.data.AmountsKnown()
            && var params := m.data.GetOpeningParams(w);
               && params == t.data.GetOpeningParams(w)
               && FundedAs(w, m.log, m.data)
               && params.maker == w.pub(makerKey) && params.taker == w.pub(takerKey)
  {
    var m := Run(w, New(tm, makerKey), makerRun);
    var t := Run(w, New(PeerOf(tm), takerKey), takerRun);
    AlwaysProvenance(w, tm, makerKey, makerRun);
    AlwaysProvenance(w, PeerOf(tm), takerKey, takerRun);
    AlwaysBound(w, PeerOf(tm), takerKey, takerRun);
    AlwaysHolds(w, tm, makerKey, makerRun);
    AlwaysHolds(w, PeerOf(tm), takerKey, takerRun);
    KeyIsFixed(w, tm, makerKey, makerRun);
    KeyIsFixed(w, PeerOf(tm), takerKey, takerRun);
    Progress.TableIsFixed(w, New(tm, makerKey), makerRun);
    Progress.TableIsFixed(w, New(PeerOf(tm), takerKey), takerRun);
    hide Run, InvoiceBound, IssuedForPreimage, Foreign;
    PeersAgreeAt(w, tm, m, t);
  }

  lemma PeersAgreeAt(w: World, tm: Table, m: Sys, t: Sys)
    requires IsMaker(tm) && m.table == tm && t.table == PeerOf(tm)
    requires Provenance(w, m) && Holds(m) && Provenance(w, t) && Holds(t) && Bound(w, t)
    requires Exchanged(tm, m.data, t.data) && IssuedForPreimage(w, m.data) && !Foreign(m.log)
    requires t.data.AllowsNewPayment() && Checked(t.current, t.phase)
    ensures m.data.AmountsKnown() && t.data.AmountsKnown()
    ensures var params := m.data.GetOpeningParams(w);
            && params == t.data.GetOpeningParams(w)
            && FundedAs(w, m.log, m.data)
            && params.maker == w.pub(m.data.privkey) && params.taker == w.pub(t.data.privkey)
  {
    assert InvoiceBound(w, t.data);
    assert t.data.AmountsKnown();
    var i :| 0 <= i < |m.log| && Funds(w, m.data, m.log[i]);
    SameParams(w, tm, m.data, t.data);
    Payments.OwnTakerKey(w, t.table, t.data);
    hide InvoiceBound, IssuedForPreimage;
  }

  /** The invoice an honest maker issues, for the claim amount and the policy it computes
      itself, passes every check the taker makes with its own data. */
  lemma HonestInvoicePasses(w: World, tm: Table, m: Data, t: Data, hash: Bytes32)
    requires IsMaker(tm) && Exchanged(tm, m, t) && OtherRequest(tm, m).None? && OtherRequest(tm, t).None?
    requires m.AmountsKnown() && m.GetPolicy().Some?
    requires w.decode(t.openingTxBroadcasted.value.payreq)
             == Some(IssuedInvoice(hash, m.GetClaimAmount(), m.GetPolicy().value))
    ensures t.AmountsKnown() && t.GetPolicy().Some?
    ensures InvoiceAcceptable(t.GetChain(), t.GetPolicy().value,
                              w.decode(t.openingTxBroadcasted.value.payreq).value, t.GetClaimAmount())
    ensures InvoiceBound(w, t.(claimPaymentHash := hash))
  {
  }
}
