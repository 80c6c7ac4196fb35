/** Two machines that hear only each other: whatever the order of their messages, their crashes
    and their failures, what one has from the other is what the other has on record, so that both
    compute the contract the maker funded. */
module Peers {
  import opened Base
  import opened SwapData
  import opened States
  import opened Actions
  import opened Effects
  import opened Fsm
  import opened Presence
  import opened Exchange
  import opened Sending
  import opened Takers
  import Progress

  // ------------------------------------------------------------ what was heard

  /** The message of a machine's own direction that carries this agreement. */
  function AgreementInput(t: Table, a: Agreement): Input {
    if IsSwapIn(t) then SwapInAgreementReceived(a) else SwapOutAgreementReceived(a)
  }

  /** What is on record of the peer was brought by a step of the run. */
  ghost predicate Brought(t: Table, labels: seq<Label>, d: Data) {
    && (OwnRequest(t, d).Some? ==> Start(OwnRequest(t, d).value) in labels)
    && (Initiates(t) && OwnAgreement(t, d).Some? ==> Deliver(AgreementInput(t, OwnAgreement(t, d).value)) in labels)
    && (!IsMaker(t) && d.openingTxBroadcasted.Some? ==>
          Deliver(OpeningReceived(d.openingTxBroadcasted.value)) in labels)
    && (d.coopClose.Some? ==> Deliver(CoopCloseReceived(d.coopClose.value)) in labels)
  }

  ghost predicate Traced(labels: seq<Label>, s: Sys) {
    && Brought(s.table, labels, s.data)
    && (s.stored.Some? ==> Brought(s.table, labels, s.stored.value.data))
    && (Foreign(s.log) ==> exists m :: Deliver(OpeningReceived(m)) in labels)
  }

  /** Nothing that comes from outside has changed. */
  predicate SameHeard(t: Table, a: Data, b: Data) {
    && a.swapInRequest == b.swapInRequest && a.swapOutRequest == b.swapOutRequest && a.coopClose == b.coopClose
    && (Initiates(t) ==> OwnAgreement(t, a) == OwnAgreement(t, b))
    && (!IsMaker(t) ==> a.openingTxBroadcasted == b.openingTxBroadcasted)
  }

  lemma HeardKept(t: Table, labels: seq<Label>, a: Data, b: Data)
    requires Brought(t, labels, a) && SameHeard(t, a, b)
    ensures Brought(t, labels, b)
  {
  }

  lemma ActionHears(w: World, s: Sys, n: State, x: Exec)
    requires Acts(w, s, n, x) && InTable(s.table, n)
    ensures x.Ran? && SameHeard(s.table, s.data, x.data) && Unheard(x.log)
  {
    hide SenderEffect, PaymentDetails, ClaimDetails, ConfirmationDetails, FundedAs, OpeningContract;
  }

  /** A longer run has heard no less. */
  lemma TracedLonger(labels: seq<Label>, l: Label, s: Sys)
    requires Traced(labels, s)
    ensures Traced(labels + [l], s)
  {
    hide Foreign;
    if Foreign(s.log) {
      var m :| Deliver(OpeningReceived(m)) in labels;
      assert Deliver(OpeningReceived(m)) in labels + [l];
    }
  }

  lemma DispatchTraced(w: World, s: Sys, o: Outcome, labels: seq<Label>)
    requires Traced(labels, s) && InSync(s) && Holds(s)
    ensures Traced(labels, ApplyDispatch(w, s, o))
  {
    var n, x := DispatchCases(w, s, o);
    hide ApplyDispatch, Next, Acts, Ready, Brought, Foreign;
    if s.phase.Pending? && Next(s.table, s.current, s.phase.event) == Some(n) && Acts(w, s, n, x) {
      TablesAreClosed(s.table, s.current, s.phase.event);
      ActionHears(w, s, n, x);
      HeardKept(s.table, labels, s.data, x.data);
      var more := [Moved(s.current, n, s.phase.event)] + x.log;
      assert Move(s, n, x).log == s.log + more && Unheard(more);
      HistoryGrows(s.log, more);
    }
    CrashTraced(s, labels);
    hide ApplyCrash;
  }

  lemma RestartTraced(w: World, s: Sys, o: Outcome, labels: seq<Label>)
    requires Traced(labels, s) && InSync(s) && Holds(s)
    ensures Traced(labels, ApplyRestart(w, s, o))
  {
    var x := RestartCases(w, s, o);
    hide ApplyRestart, Acts, Ready, Brought, Foreign;
    if s.phase.Down? && Acts(w, s, s.current, x) {
      ActionHears(w, s, s.current, x);
      HeardKept(s.table, labels, s.data, x.data);
      HistoryGrows(s.log, x.log);
    }
    CrashTraced(s, labels);
    hide ApplyCrash;
  }

  lemma CrashTraced(s: Sys, labels: seq<Label>)
    requires Traced(labels, s)
    ensures Traced(labels, ApplyCrash(s))
  {
    hide Brought, Foreign;
    if s.stored.Some? { HistoryGrows(s.log, [CrashEntry(s, s.stored.value)]); }
  }

  lemma InputHeard(t: Table, labels: seq<Label>, d: Data, i: Input)
    requires Brought(t, labels, d) && ApplyInput(d, i).Some?
    ensures Brought(t, labels + [Deliver(i)], ApplyInput(d, i).value)
  {
  }

  lemma DeliverTraced(s: Sys, i: Input, labels: seq<Label>)
    requires Traced(labels, s)
    ensures Traced(labels + [Deliver(i)], ApplyDeliver(s, i))
  {
    TracedLonger(labels, Deliver(i), s);
    hide Brought, Foreign, ApplyInput, ValidInput, EventOf;
    if s.phase.Idle? && s.stored.Some? && ApplyInput(s.data, i).Some? {
      InputHeard(s.table, labels, s.data, i);
      HistoryGrows(s.log, InputLog(i));
      if i.OpeningReceived? { assert Deliver(OpeningReceived(i.opening)) in labels + [Deliver(i)]; }
    }
  }

  lemma StartTraced(w: World, s: Sys, r: Request, labels: seq<Label>)
    requires Traced(labels, s) && InSync(s)
    ensures Traced(labels + [Start(r)], ApplyStart(w, s, r))
  {
    TracedLonger(labels, Start(r), s);
    hide Foreign, ValidRequest;
  }

  lemma PersistTraced(s: Sys, labels: seq<Label>)
    requires Traced(labels, s)
    ensures Traced(labels, ApplyPersist(s))
  {
    hide Brought, Foreign;
  }

  lemma StepTraced(w: World, s: Sys, l: Label, labels: seq<Label>)
    requires Traced(labels, s) && InSync(s) && Holds(s)
    ensures Traced(labels + [l], Apply(w, s, l))
  {
    hide Traced, Holds, InSync;
    TracedLonger(labels, l, s);
    match l
    case Start(r) => hide ApplyStart; StartTraced(w, s, r, labels);
    case Deliver(i) => hide ApplyDeliver; DeliverTraced(s, i, labels);
    case Dispatch(o) => hide ApplyDispatch; DispatchTraced(w, s, o, labels + [l]);
    case Persist => hide ApplyPersist; PersistTraced(s, labels + [l]);
    case Crash => hide ApplyCrash; CrashTraced(s, labels + [l]);
    case Restart(o) => hide ApplyRestart; RestartTraced(w, s, o, labels + [l]);
  }

  lemma {:induction false} AlwaysTraced(w: World, t: Table, key: Bytes, labels: seq<Label>)
    ensures Traced(labels, Run(w, New(t, key), labels))
  {
    if labels != [] {
      var before := labels[..|labels| - 1];
      AlwaysTraced(w, t, key, before);
      AlwaysInSync(w, t, key, before);
      AlwaysHolds(w, t, key, before);
      assert labels == before + [labels[|labels| - 1]];
      hide Apply, Holds, InSync, Traced;
      StepTraced(w, Run(w, New(t, key), before), labels[|labels| - 1], before);
    }
  }

  // ------------------------------------------------------------ two honest peers

  /** The step brings no message but one the peer has sent; an initiator's request is its own. */
  predicate FromPeer(t: Table, l: Label, log: seq<Entry>) {
    match l
    case Start(q) => Initiates(t) || Sent(RequestMessage(q)) in log
    case Deliver(i) =>
      (match i
       case SwapInAgreementReceived(a) => IsSwapIn(t) && Sent(AgreementMessage(a)) in log
       case SwapOutAgreementReceived(a) => !IsSwapIn(t) && Sent(AgreementMessage(a)) in log
       case OpeningReceived(m) => Sent(OpeningMessage(m)) in log
       case CoopCloseReceived(k) => Sent(CoopCloseMessage(k)) in log
       case _ => true)
    case _ => true
  }

  ghost predicate HearsOnly(t: Table, labels: seq<Label>, log: seq<Entry>) {
    forall l :: l in labels ==> FromPeer(t, l, log)
  }

  lemma SentIsTold(t: Table, log: seq<Entry>, d: Data, m: Message)
    requires SentTruly(t, log, d) && Sent(m) in log
    ensures Tells(t, d, m)
  {
    var i :| 0 <= i < |log| && log[i] == Sent(m);
  }

  /** A maker whose peer takes accepts no opening message, and the key it closes with is the
      key of its peer. */
  lemma TakerTells(m: Sys, t: Sys, makerRun: seq<Label>)
    requires IsMaker(m.table) && !IsMaker(t.table) && Traced(makerRun, m) && SentTruly(t.table, t.log, t.data)
    requires HearsOnly(m.table, makerRun, t.log)
    ensures !Foreign(m.log) && (m.data.coopClose.Some? ==> m.data.coopClose == Some(t.data.privkey))
  {
    hide Foreign, SentTruly;
    if Foreign(m.log) {
      var o :| Deliver(OpeningReceived(o)) in makerRun;
      assert FromPeer(m.table, Deliver(OpeningReceived(o)), t.log);
      SentIsTold(t.table, t.log, t.data, OpeningMessage(o));
      assert false;
    }
    if m.data.coopClose.Some? {
      var k := m.data.coopClose.value;
      assert FromPeer(m.table, Deliver(CoopCloseReceived(k)), t.log);
      SentIsTold(t.table, t.log, t.data, CoopCloseMessage(k));
    }
  }

  /** The messages an initiator and its responder have of each other. */
  lemma RequestAndAgreement(i: Sys, r: Sys, initiatorRun: seq<Label>, responderRun: seq<Label>)
    requires Initiates(i.table) && !Initiates(r.table) && IsSwapIn(i.table) == IsSwapIn(r.table)
    requires Traced(initiatorRun, i) && SentTruly(i.table, i.log, i.data) && HearsOnly(i.table, initiatorRun, r.log)
    requires Traced(responderRun, r) && SentTruly(r.table, r.log, r.data) && HearsOnly(r.table, responderRun, i.log)
    ensures OwnRequest(r.table, r.data).Some? ==> OwnRequest(i.table, i.data) == OwnRequest(r.table, r.data)
    ensures OwnAgreement(i.table, i.data).Some? ==> OwnAgreement(r.table, r.data) == OwnAgreement(i.table, i.data)
  {
    hide SentTruly, Foreign;
    if OwnRequest(r.table, r.data).Some? {
      var q := OwnRequest(r.table, r.data).value;
      assert FromPeer(r.table, Start(q), i.log);
      SentIsTold(i.table, i.log, i.data, RequestMessage(q));
    }
    if OwnAgreement(i.table, i.data).Some? {
      var a := OwnAgreement(i.table, i.data).value;
      assert FromPeer(i.table, Deliver(AgreementInput(i.table, a)), r.log);
      SentIsTold(r.table, r.log, r.data, AgreementMessage(a));
    }
  }

  lemma OpeningIsShared(m: Sys, t: Sys, takerRun: seq<Label>)
    requires IsMaker(m.table) && !IsMaker(t.table) && Traced(takerRun, t) && SentTruly(m.table, m.log, m.data)
    requires HearsOnly(t.table, takerRun, m.log) && t.data.openingTxBroadcasted.Some?
    ensures m.data.openingTxBroadcasted == t.data.openingTxBroadcasted
  {
    hide SentTruly, Foreign;
    var o := t.data.openingTxBroadcasted.value;
    assert FromPeer(t.table, Deliver(OpeningReceived(o)), m.log);
    SentIsTold(m.table, m.log, m.data, OpeningMessage(o));
  }

  /** A maker with an opening of its own has its request and its agreement. */
  lemma OwnerHasMessages(w: World, m: Sys)
    requires IsMaker(m.table) && Provenance(w, m) && Holds(m) && !Foreign(m.log) && m.data.openingTxBroadcasted.Some?
    ensures OwnRequest(m.table, m.data).Some? && OwnAgreement(m.table, m.data).Some?
  {
    hide Foreign, MakerKey;
    var i :| 0 <= i < |m.log| && m.log[i].Funded? && Funds(w, m.data, m.log[i]);
  }

  predicate HasMessages(t: Table, d: Data) {
    OwnRequest(t, d).Some? && OwnAgreement(t, d).Some? && d.openingTxBroadcasted.Some?
  }

  /** Once the taker has the request, the agreement and the opening message, the maker holds the
      same; it accepted no opening message, and the only key it ever closes with is the taker's. */
  lemma {:induction false} HonestPeersExchange(w: World, tm: Table, makerKey: Bytes, takerKey: Bytes,
                                               makerRun: seq<Label>, takerRun: seq<Label>)
    requires IsMaker(tm)
    requires HearsOnly(tm, makerRun, Run(w, New(PeerOf(tm), takerKey), takerRun).log)
    requires HearsOnly(PeerOf(tm), takerRun, Run(w, New(tm, makerKey), makerRun).log)
    ensures var m, t := Run(w, New(tm, makerKey), makerRun), Run(w, New(PeerOf(tm), takerKey), takerRun);
            && !Foreign(m.log) && (m.data.coopClose.Some? ==> m.data.coopClose == Some(takerKey))
            && (HasMessages(PeerOf(tm), t.data) ==> Exchanged(tm, m.data, t.data))
  {
    var tt := PeerOf(tm);
    var m, t := Run(w, New(tm, makerKey), makerRun), Run(w, New(tt, takerKey), takerRun);
    AlwaysTraced(w, tm, makerKey, makerRun);
    AlwaysTraced(w, tt, takerKey, takerRun);
    SentMessagesAreOnRecord(w, tm, makerKey, makerRun);
    SentMessagesAreOnRecord(w, tt, takerKey, takerRun);
    AlwaysProvenance(w, tm, makerKey, makerRun);
    AlwaysHolds(w, tm, makerKey, makerRun);
    KeyIsFixed(w, tt, takerKey, takerRun);
    Progress.TableIsFixed(w, New(tm, makerKey), makerRun);
    Progress.TableIsFixed(w, New(tt, takerKey), takerRun);
    hide Run, Traced, SentTruly, Provenance, Holds, HearsOnly, Foreign, OpeningsFunded;
    TakerTells(m, t, makerRun);
    if t.data.openingTxBroadcasted.Some? {
      OpeningIsShared(m, t, takerRun);
      OwnerHasMessages(w, m);
      if Initiates(tm) { RequestAndAgreement(m, t, makerRun, takerRun); }
      else { RequestAndAgreement(t, m, takerRun, makerRun); }
    }
  }

  /** After any two runs of a maker and a taker that hear only each other, once the taker has
      checked the invoice, both compute the parameters the maker funded, with each side's own key
      in its place. */
  lemma {:induction false} HonestPeersAgree(w: World, tm: Table, makerKey: Bytes, takerKey: Bytes,
                                            makerRun: seq<Label>, takerRun: seq<Label>)
    requires IsMaker(tm)
    requires HearsOnly(tm, makerRun, Run(w, New(PeerOf(tm), takerKey), takerRun).log)
    requires HearsOnly(PeerOf(tm), takerRun, Run(w, New(tm, makerKey), makerRun).log)
    requires var m, t := Run(w, New(tm, makerKey), makerRun), Run(w, New(PeerOf(tm), takerKey), takerRun);
             && (m.data.openingTxBroadcasted.Some? ==> IssuedForPreimage(w, m.data))
             && t.data.AllowsNewPayment() && Checked(t.current, t.phase)
    ensures var m, t := Run(w, New(tm, makerKey), makerRun), Run(w, New(PeerOf(tm), takerKey), takerRun);
            && m.data.AmountsKnown() && t.data.AmountsKnown()
            && var params := m.data.GetOpeningParams(w);
               && params == t.data.GetOpeningParams(w)
               && FundedAs(w, m.log, m.data)
               && params.maker == w.pub(makerKey) && params.taker == w.pub(takerKey)
  {
    var tt := PeerOf(tm);
    HonestPeersExchange(w, tm, makerKey, takerKey, makerRun, takerRun);
    AlwaysHolds(w, tt, takerKey, takerRun);
    Progress.TableIsFixed(w, New(tt, takerKey), takerRun);
    hide Run, HearsOnly, Foreign, FundedAs, Data.GetOpeningParams, IssuedForPreimage;
    PeersAgree(w, tm, makerKey, takerKey, makerRun, takerRun);
  }
}
