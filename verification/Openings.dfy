/** Whose opening a maker has on record, what its refunds spend, and when it gets its money
    back: its own, what it funded, and always, exactly as long as no foreign opening message
    was accepted. */
module Openings {
  import opened Base
  import opened Timelock
  import opened SwapData
  import opened OnChain
  import opened States
  import opened Actions
  import opened Effects
  import opened Fsm
  import opened Presence
  import opened Makers
  import opened Fundings
  import opened Exchange
  import opened Claims
  import Progress
  import Script

  // ------------------------------------------------------------ whose opening

  lemma FundedAsIsFunded(w: World, log: seq<Entry>, d: Data)
    requires FundedAs(w, log, d)
    ensures FundedEver(log) && d.openingTxBroadcasted.Some? && d.AmountsKnown() && d.GetPolicy().Some?
    ensures !Strayed(log) ==> d.openingTxHex != []
  {
    var i :| && 0 <= i < |log| && log[i].Funded? && Funds(w, d, log[i])
             && (Strayed(log) || log[i].txHex == d.openingTxHex);
  }

  /** For every maker run that has announced an opening: the opening on record is one it funded,
      with the swap's parameters and under its own key, if and only if it accepted no foreign
      opening message; and if it accepted one it has funded nothing at all. */
  lemma {:induction false} AnnouncedOpeningIsOwn(w: World, t: Table, key: Bytes, labels: seq<Label>)
    requires IsMaker(t) && Announced(Run(w, New(t, key), labels).log)
    ensures var s := Run(w, New(t, key), labels);
            && (Owned(w, s.log, s.data) <==> !Foreign(s.log))
            && (FundedEver(s.log) <==> !Foreign(s.log))
  {
    var s := Run(w, New(t, key), labels);
    AlwaysNoWayBack(w, t, key, labels);
    AlwaysFundings(w, t, key, labels);
    AlwaysProvenance(w, t, key, labels);
    Progress.TableIsFixed(w, New(t, key), labels);
    hide Run, FundedAs, FundedEver, Foreign, Strayed, Separated, Unreopened, Announced, MakerKey;
    if Owned(w, s.log, s.data) { FundedAsIsFunded(w, s.log, s.data); }
  }

  /** For every maker run at all, announced or not, with an opening on record: it is the
      maker's own if and only if no foreign one was accepted. (No watcher has replaced the raw
      transaction: only takers register for that.) */
  lemma {:induction false} RecordedOpeningIsOwn(w: World, t: Table, key: Bytes, labels: seq<Label>)
    requires IsMaker(t)
    requires var s := Run(w, New(t, key), labels); s.data.openingTxBroadcasted.Some? && !Strayed(s.log)
    ensures var s := Run(w, New(t, key), labels); Owned(w, s.log, s.data) <==> !Foreign(s.log)
  {
    var s := Run(w, New(t, key), labels);
    AlwaysProvenance(w, t, key, labels);
    Progress.TableIsFixed(w, New(t, key), labels);
    hide Run, FundedAs, Foreign, Strayed, MakerKey;
    if Owned(w, s.log, s.data) { FundedAsIsFunded(w, s.log, s.data); }
  }

  // --------------------------------------------------------- what is on record

  predicate IsUsable(e: Entry) { e.Funded? && e.usable }

  /** A crash that struck after an opening succeeded and before it was stored. */
  predicate IsLostOpening(e: Entry) { e.Crashed? && e.lostOpening }

  predicate OwnOnRecord(s: Sys, foreign: bool) { s.data.openingTxBroadcasted.Some? && !foreign }

  /** The opening on record accounts for every usable output but the lost ones, exactly. */
  ghost predicate OpeningsCounted(s: Sys) {
    && (s.stored.Some? && s.stored.value.data.openingTxBroadcasted.Some? ==> s.data.openingTxBroadcasted.Some?)
    && Count(s.log, IsUsable)
       == Count(s.log, IsLostOpening) + (if OwnOnRecord(s, Foreign(s.log)) then 1 else 0)
  }

  lemma QuietOpenings(log: seq<Entry>, more: seq<Entry>)
    requires forall i :: 0 <= i < |more| ==> !IsUsable(more[i]) && !more[i].Crashed?
    ensures Count(log + more, IsUsable) == Count(log, IsUsable)
    ensures Count(log + more, IsLostOpening) == Count(log, IsLostOpening)
  {
    CountAppend(log, more, IsUsable);
    CountAppend(log, more, IsLostOpening);
    CountNone(more, IsUsable);
    CountNone(more, IsLostOpening);
  }

  lemma OneOpening(log: seq<Entry>, e: Entry)
    ensures Count(log + [e], IsUsable) == Count(log, IsUsable) + (if IsUsable(e) then 1 else 0)
    ensures Count(log + [e], IsLostOpening) == Count(log, IsLostOpening) + (if IsLostOpening(e) then 1 else 0)
  {
    CountAppend(log, [e], IsUsable);
    CountAppend(log, [e], IsLostOpening);
    assert [e][..0] == [] && Count([e][..0], IsUsable) == 0 && Count([e][..0], IsLostOpening) == 0;
  }

  predicate Opens(a: Data, b: Data) { a.openingTxBroadcasted.None? && b.openingTxBroadcasted.Some? }

  /** An action logs a usable funding exactly when it puts an opening on record. */
  lemma ActionOpens(w: World, s: Sys, n: State, x: Exec)
    requires Acts(w, s, n, x)
    ensures x.Ran? && (forall i :: 0 <= i < |x.log| ==> !x.log[i].Crashed?) && Unheard(x.log)
    ensures s.data.openingTxBroadcasted.Some? ==> x.data.openingTxBroadcasted.Some?
    ensures if Opens(s.data, x.data) then |x.log| == 1 && IsUsable(x.log[0])
            else forall i :: 0 <= i < |x.log| ==> !IsUsable(x.log[i])
  {
    hide SenderEffect, PaymentDetails, ClaimDetails, ConfirmationDetails, CreateDetails, FundedAs, OpeningDone;
  }

  lemma ActionCounted(w: World, s: Sys, n: State, x: Exec, pre: seq<Entry>)
    requires x.Ran? && Acts(w, s, n, x) && forall i :: 0 <= i < |pre| ==> pre[i].Moved?
    ensures var all := s.log + pre + x.log;
            && (Foreign(all) <==> Foreign(s.log))
            && Count(all, IsUsable) == Count(s.log, IsUsable) + (if Opens(s.data, x.data) then 1 else 0)
            && Count(all, IsLostOpening) == Count(s.log, IsLostOpening)
            && (s.data.openingTxBroadcasted.Some? ==> x.data.openingTxBroadcasted.Some?)
  {
    hide Acts, Count, Foreign;
    ActionOpens(w, s, n, x);
    QuietOpenings(s.log, pre);
    HistoryGrows(s.log, pre);
    HistoryGrows(s.log + pre, x.log);
    if Opens(s.data, x.data) {
      assert x.log == [x.log[0]];
      OneOpening(s.log + pre, x.log[0]);
    } else {
      QuietOpenings(s.log + pre, x.log);
    }
  }

  lemma ForeignIsStored(s: Sys)
    requires FundingsKept(s)
    ensures Foreign(s.log) ==> HasOpening(s)
  {
    hide Foreign, Separated, Unreopened, FundedEver;
  }

  lemma CrashOpenings(s: Sys)
    requires OpeningsCounted(s) && FundingsKept(s)
    ensures OpeningsCounted(ApplyCrash(s))
  {
    hide Count, Foreign, FundingsKept;
    ForeignIsStored(s);
    if s.stored.Some? {
      var e := CrashEntry(s, s.stored.value);
      OneOpening(s.log, e);
      HistoryGrows(s.log, [e]);
    }
  }

  lemma DispatchOpenings(w: World, s: Sys, o: Outcome)
    requires OpeningsCounted(s) && FundingsKept(s) && InSync(s)
    ensures OpeningsCounted(ApplyDispatch(w, s, o))
  {
    hide ApplyDispatch, ApplyCrash, Summary, Details, Next, Count, Foreign, FundingsKept;
    CrashOpenings(s);
    ForeignIsStored(s);
    var n, x := DispatchCases(w, s, o);
    if s.phase.Pending? && Acts(w, s, n, x) { ActionCounted(w, s, n, x, [Moved(s.current, n, s.phase.event)]); }
  }

  lemma RestartOpenings(w: World, s: Sys, o: Outcome)
    requires OpeningsCounted(s) && FundingsKept(s) && InSync(s)
    ensures OpeningsCounted(ApplyRestart(w, s, o))
  {
    hide ApplyRestart, ApplyCrash, Summary, Details, Count, Foreign, FundingsKept;
    CrashOpenings(s);
    ForeignIsStored(s);
    var x := RestartCases(w, s, o);
    if s.phase.Down? && Acts(w, s, s.current, x) {
      ActionCounted(w, s, s.current, x, []);
      assert s.log + [] + x.log == s.log + x.log;
    }
  }

  lemma DeliverOpenings(s: Sys, i: Input)
    requires OpeningsCounted(s) && FundingsKept(s) && InSync(s)
    ensures OpeningsCounted(ApplyDeliver(s, i))
  {
    hide ApplyInput, ValidInput, EventOf, Count, Foreign, FundingsKept;
    ForeignIsStored(s);
    QuietOpenings(s.log, InputLog(i));
    HistoryGrows(s.log, InputLog(i));
    if ApplyInput(s.data, i).Some? {
      InputOpens(s.data, i);
      Appended(s.log, InputLog(i));
    }
    hide InputLog;
  }

  lemma StartOpenings(w: World, s: Sys, r: Request)
    requires OpeningsCounted(s)
    ensures OpeningsCounted(ApplyStart(w, s, r))
  {
    hide Count, Foreign, ValidRequest;
  }

  lemma PersistOpenings(s: Sys)
    requires OpeningsCounted(s)
    ensures OpeningsCounted(ApplyPersist(s))
  {
    hide Count, Foreign;
  }

  lemma StepOpenings(w: World, s: Sys, l: Label)
    requires OpeningsCounted(s) && FundingsKept(s) && InSync(s)
    ensures OpeningsCounted(Apply(w, s, l))
  {
    hide FundingsKept, OpeningsCounted;
    match l
    case Start(r) => hide ApplyStart; StartOpenings(w, s, r);
    case Deliver(i) => hide ApplyDeliver; DeliverOpenings(s, i);
    case Dispatch(o) => hide ApplyDispatch; DispatchOpenings(w, s, o);
    case Persist => hide ApplyPersist; PersistOpenings(s);
    case Crash => hide ApplyCrash; CrashOpenings(s);
    case Restart(o) => hide ApplyRestart; RestartOpenings(w, s, o);
  }

  lemma {:induction false} AlwaysOpeningsCounted(w: World, t: Table, key: Bytes, labels: seq<Label>)
    requires IsMaker(t)
    ensures OpeningsCounted(Run(w, New(t, key), labels))
  {
    if labels != [] {
      var before := labels[..|labels| - 1];
      AlwaysOpeningsCounted(w, t, key, before);
      AlwaysFundings(w, t, key, before);
      AlwaysInSync(w, t, key, before);
      hide Apply, InSync, FundingsKept;
      StepOpenings(w, Run(w, New(t, key), before), labels[|labels| - 1]);
    }
  }

  /** On every maker run, with a crash allowed between any two steps, the outputs funded with
      success are the one on record and one for every crash that struck between funding and
      storing it. So all of them are accounted for by the record exactly when no crash lost
      one, and then each is the output on record. */
  lemma {:induction false} UsableOutputsOnRecord(w: World, t: Table, key: Bytes, labels: seq<Label>)
    requires IsMaker(t)
    ensures var s := Run(w, New(t, key), labels);
            var usable, lost := Count(s.log, IsUsable), Count(s.log, IsLostOpening);
            var own := if OwnOnRecord(s, Foreign(s.log)) then 1 else 0;
            && usable == lost + own
            && (usable == own <==> lost == 0)
            && (lost == 0 ==> forall i :: 0 <= i < |s.log| && IsUsable(s.log[i]) ==> Funds(w, s.data, s.log[i]))
  {
    var s := Run(w, New(t, key), labels);
    AlwaysOpeningsCounted(w, t, key, labels);
    AlwaysProvenance(w, t, key, labels);
    Progress.TableIsFixed(w, New(t, key), labels);
    hide Run, Count, FundedAs, Foreign, Funds, MakerKey, Strayed;
    if Count(s.log, IsLostOpening) == 0 {
      forall i | 0 <= i < |s.log| && IsUsable(s.log[i]) ensures Funds(w, s.data, s.log[i]) {
        CountPositive(s.log, IsUsable);
        OnlyUsable(w, s.log, s.data, i);
      }
    }
  }

  lemma OnlyUsable(w: World, log: seq<Entry>, d: Data, i: nat)
    requires FundedAs(w, log, d) && Count(log, IsUsable) == 1 && i < |log| && IsUsable(log[i])
    ensures Funds(w, d, log[i])
  {
    hide Count;
    var j :| && 0 <= j < |log| && log[j].Funded? && Funds(w, d, log[j])
             && (Strayed(log) || log[j].txHex == d.openingTxHex);
    if i != j { TwoCounted(log, IsUsable, if i < j then i else j, if i < j then j else i); }
  }

  // ------------------------------------------------------- what a refund spends

  /** The entry at `j` funded what the entry at `i` spends. */
  predicate FundedFor(log: seq<Entry>, j: nat, i: nat) {
    && j < i < |log| && log[j].Funded? && log[i].Spent?
    && log[j].usable && log[j].params == log[i].params
  }

  ghost predicate SpendsFunded(log: seq<Entry>, i: nat) {
    exists j: nat :: FundedFor(log, j, i) && (Strayed(log) || log[j].txHex == log[i].txHex)
  }

  /** A spend for the parameters of the swap. */
  predicate SpendsRecord(w: World, d: Data, e: Entry) {
    && e.Spent? && !e.kind.ByPreimage? && d.openingTxBroadcasted.Some? && d.AmountsKnown() && d.GetPolicy().Some?
    && e.params == d.GetOpeningParams(w)
  }

  ghost predicate RefundsKept(w: World, s: Sys) {
    !Foreign(s.log) ==>
      forall i :: 0 <= i < |s.log| && s.log[i].Spent? ==>
        && SpendsFunded(s.log, i) && SpendsRecord(w, s.data, s.log[i])
        && s.stored.Some? && SpendsRecord(w, s.stored.value.data, s.log[i])
  }

  lemma RecordKept(w: World, d: Data, d': Data, e: Entry)
    requires SpendsRecord(w, d, e) && (SameFunding(d, d') || Grows(d, d'))
    requires d.blindingKey != [] ==> d.GetChain().Lbtc?
    ensures SpendsRecord(w, d', e)
  {
  }

  lemma SpendsFundedGrows(log: seq<Entry>, more: seq<Entry>, i: nat)
    requires i < |log| && SpendsFunded(log, i)
    ensures SpendsFunded(log + more, i)
  {
    hide Strayed;
    HistoryGrows(log, more);
    var j: nat :| FundedFor(log, j, i) && (Strayed(log) || log[j].txHex == log[i].txHex);
    assert (log + more)[j] == log[j] && (log + more)[i] == log[i];
    assert FundedFor(log + more, j, i);
  }

  /** A claim of a maker with its own opening on record spends what was funded. */
  lemma NewRefund(w: World, log: seq<Entry>, d: Data, more: seq<Entry>, k: nat)
    requires FundedAs(w, log, d) && k < |more| && more[k].Spent? && !more[k].kind.ByPreimage?
    requires more[k].params == d.GetOpeningParams(w) && more[k].txHex == d.openingTxHex
    ensures SpendsFunded(log + more, |log| + k) && SpendsRecord(w, d, more[k])
  {
    var all, i := log + more, |log| + k;
    HistoryGrows(log, more);
    var j :| && 0 <= j < |log| && log[j].Funded? && Funds(w, d, log[j])
             && (Strayed(log) || log[j].txHex == d.openingTxHex);
    assert all[j] == log[j] && all[i] == more[k];
    assert FundedFor(all, j, i);
  }

  /** What a maker's action spends. */
  lemma ActionRefunds(w: World, s: Sys, n: State, x: Exec, k: nat)
    requires Acts(w, s, n, x) && IsMaker(s.table) && InTable(s.table, n) && k < |x.log| && x.log[k].Spent?
    ensures Effects.Claims(n) && s.data.AmountsKnown() && !x.log[k].kind.ByPreimage?
    ensures x.log[k].params == s.data.GetOpeningParams(w) && x.log[k].txHex == s.data.openingTxHex
  {
    hide SenderEffect, PaymentDetails, ConfirmationDetails, CreateDetails, OpeningContract, FundedAs, Spendable;
  }

  lemma ActionKeepsRefunds(w: World, s: Sys, n: State, x: Exec, pre: seq<Entry>)
    requires RefundsKept(w, s) && x.Ran? && Acts(w, s, n, x) && IsMaker(s.table) && InTable(s.table, n)
    requires s.stored == Some(Snapshot(s.current, s.data)) && Sourced(w, s.table, s.log, s.current, s.data)
    requires n.CreateSwap? ==> !Foreign(s.log) ==> s.data.openingTxBroadcasted.None?
    requires Effects.Claims(n) ==> s.data.openingTxBroadcasted.Some?
    requires forall i :: 0 <= i < |pre| ==> pre[i].Moved?
    ensures var all := s.log + pre + x.log;
            !Foreign(all) ==>
              forall i :: 0 <= i < |all| && all[i].Spent? ==>
                SpendsFunded(all, i) && SpendsRecord(w, x.data, all[i]) && SpendsRecord(w, s.data, all[i])
  {
    hide Acts, Foreign, SpendsFunded, FundedAs, SpendsRecord, SameFunding, MakerKey, Strayed;
    var more := pre + x.log;
    var all := s.log + more;
    assert s.log + pre + x.log == all;
    HistoryGrows(s.log, more);
    if !Foreign(all) {
      forall i | 0 <= i < |all| && all[i].Spent?
        ensures SpendsFunded(all, i) && SpendsRecord(w, x.data, all[i]) && SpendsRecord(w, s.data, all[i])
      {
        if i < |s.log| {
          assert all[i] == s.log[i];
          SpendsFundedGrows(s.log, more, i);
          RecordOpened(w, s.data, all[i]);
        } else {
          var k := i - |s.log|;
          assert all[i] == more[k] && more[k] == x.log[k - |pre|];
          ActionRefunds(w, s, n, x, k - |pre|);
          NewRefund(w, s.log, s.data, more, k);
        }
        MakerActs(w, s, n, x);
        RecordKept(w, s.data, x.data, all[i]);
      }
    }
  }

  lemma RecordOpened(w: World, d: Data, e: Entry)
    requires SpendsRecord(w, d, e)
    ensures d.openingTxBroadcasted.Some?
  {
  }

  lemma MoveRefunds(w: World, s: Sys, n: State, x: Exec)
    requires RefundsKept(w, s) && Provenance(w, s) && InSync(s) && Holds(s) && IsMaker(s.table) && s.phase.Pending?
    requires x.Ran? && Next(s.table, s.current, s.phase.event) == Some(n) && Acts(w, s, n, x)
    ensures RefundsKept(w, Move(s, n, x))
  {
    hide Next, Acts, Foreign, SpendsFunded, FundedAs, SpendsRecord, Ready, Succeeded;
    TablesAreClosed(s.table, s.current, s.phase.event);
    EdgesSupply(s.table, s.current, s.phase.event);
    Entering(s.table, s.current, s.phase.event, n, s.data);
    ReadyToClaim(s.table, n, s.data);
    ActionKeepsRefunds(w, s, n, x, [Moved(s.current, n, s.phase.event)]);
  }

  lemma ReadyToClaim(t: Table, n: State, d: Data)
    requires Ready(t, n, d)
    ensures Effects.Claims(n) ==> d.openingTxBroadcasted.Some?
  {
  }

  lemma ResumeRefunds(w: World, s: Sys, x: Exec)
    requires RefundsKept(w, s) && Provenance(w, s) && InSync(s) && Holds(s) && IsMaker(s.table) && s.phase.Down?
    requires x.Ran? && Acts(w, s, s.current, x) && !FailOnRecover(s.table, s.current) && s.stored.Some?
    ensures RefundsKept(w, Resume(s, x))
  {
    hide Acts, Foreign, SpendsFunded, FundedAs, SpendsRecord, Ready, Succeeded;
    ReadyToClaim(s.table, s.current, s.data);
    ActionKeepsRefunds(w, s, s.current, x, []);
    assert s.log + [] + x.log == s.log + x.log;
  }

  /** Appending entries that spend nothing, with data that has only grown. */
  lemma QuietRefunds(w: World, s: Sys, more: seq<Entry>, r: Sys)
    requires RefundsKept(w, s) && r.log == s.log + more && forall i :: 0 <= i < |more| ==> !more[i].Spent?
    requires forall i :: 0 <= i < |s.log| && SpendsRecord(w, s.data, s.log[i]) && s.stored.Some?
                         && SpendsRecord(w, s.stored.value.data, s.log[i]) ==>
               SpendsRecord(w, r.data, s.log[i]) && r.stored.Some? && SpendsRecord(w, r.stored.value.data, s.log[i])
    ensures RefundsKept(w, r)
  {
    hide Foreign, SpendsFunded, SpendsRecord, Strayed;
    HistoryGrows(s.log, more);
    forall i | 0 <= i < |r.log| && r.log[i].Spent? && !Foreign(r.log) ensures i < |s.log| && SpendsFunded(r.log, i) {
      if i < |s.log| { SpendsFundedGrows(s.log, more, i); }
    }
  }

  lemma CrashRefunds(w: World, s: Sys)
    requires RefundsKept(w, s)
    ensures RefundsKept(w, ApplyCrash(s))
  {
    hide RefundsKept, SpendsRecord;
    if s.stored.Some? { QuietRefunds(w, s, [CrashEntry(s, s.stored.value)], ApplyCrash(s)); }
  }

  lemma DeliverRefunds(w: World, s: Sys, i: Input)
    requires RefundsKept(w, s) && Provenance(w, s) && InSync(s) && IsMaker(s.table)
    ensures RefundsKept(w, ApplyDeliver(s, i))
  {
    var r := ApplyDeliver(s, i);
    if s.phase.Idle? && s.stored.Some? {
      var more := if ValidInput(s.data, i) && ApplyInput(s.data, i).Some? then InputLog(i) else [];
      assert s.log + [] == s.log;
      hide RefundsKept, SpendsRecord, ApplyInput, ValidInput, EventOf, FundedAs;
      forall k | 0 <= k < |s.log| && SpendsRecord(w, s.data, s.log[k]) ensures SpendsRecord(w, r.data, s.log[k]) {
        if r.data != s.data { RecordKept(w, s.data, r.data, s.log[k]); }
      }
      QuietRefunds(w, s, more, r);
    }
  }

  lemma PersistRefunds(w: World, s: Sys)
    requires RefundsKept(w, s)
    ensures RefundsKept(w, ApplyPersist(s))
  {
    hide SpendsRecord, SpendsFunded, Foreign;
  }

  lemma DispatchRefunds(w: World, s: Sys, o: Outcome)
    requires RefundsKept(w, s) && Provenance(w, s) && InSync(s) && Holds(s) && IsMaker(s.table)
    ensures RefundsKept(w, ApplyDispatch(w, s, o))
  {
    hide ApplyCrash, ApplyDispatch, Move, Summary, Details, Next, SpendsRecord, SpendsFunded, Foreign, Provenance,
      Holds;
    CrashRefunds(w, s);
    var n, x := DispatchCases(w, s, o);
    if s.phase.Pending? && x.Ran? && Next(s.table, s.current, s.phase.event) == Some(n) && Acts(w, s, n, x) {
      MoveRefunds(w, s, n, x);
    }
  }

  lemma RestartRefunds(w: World, s: Sys, o: Outcome)
    requires RefundsKept(w, s) && Provenance(w, s) && InSync(s) && Holds(s) && IsMaker(s.table) && s.stored.Some?
    ensures RefundsKept(w, ApplyRestart(w, s, o))
  {
    hide ApplyCrash, ApplyRestart, Resume, Summary, Details, SpendsRecord, SpendsFunded, Foreign, Provenance, Holds;
    CrashRefunds(w, s);
    var x := RestartCases(w, s, o);
    if x.Ran? && s.phase.Down? && !FailOnRecover(s.table, s.current) && Acts(w, s, s.current, x) {
      ResumeRefunds(w, s, x);
    }
  }

  lemma StartRefunds(w: World, s: Sys, r: Request)
    requires RefundsKept(w, s) && InSync(s)
    ensures RefundsKept(w, ApplyStart(w, s, r))
  {
    hide ValidRequest;
  }

  lemma StepRefunds(w: World, s: Sys, l: Label)
    requires RefundsKept(w, s) && Provenance(w, s) && InSync(s) && Holds(s) && IsMaker(s.table)
    ensures RefundsKept(w, Apply(w, s, l))
  {
    hide RefundsKept, Provenance, Holds;
    match l
    case Start(r) => hide ApplyStart; StartRefunds(w, s, r);
    case Deliver(i) => hide ApplyDeliver; DeliverRefunds(w, s, i);
    case Dispatch(o) => hide ApplyDispatch; DispatchRefunds(w, s, o);
    case Persist => hide ApplyPersist; PersistRefunds(w, s);
    case Crash => hide ApplyCrash; CrashRefunds(w, s);
    case Restart(o) =>
      if s.phase.Down? { hide ApplyRestart; RestartRefunds(w, s, o); }
  }

  lemma {:induction false} AlwaysRefunds(w: World, t: Table, key: Bytes, labels: seq<Label>)
    requires IsMaker(t)
    ensures RefundsKept(w, Run(w, New(t, key), labels))
  {
    if labels != [] {
      var before := labels[..|labels| - 1];
      AlwaysRefunds(w, t, key, before);
      AlwaysProvenance(w, t, key, before);
      AlwaysInSync(w, t, key, before);
      AlwaysHolds(w, t, key, before);
      Progress.TableIsFixed(w, New(t, key), before);
      hide Apply, InSync, Holds, Provenance;
      StepRefunds(w, Run(w, New(t, key), before), labels[|labels| - 1]);
    }
  }

  function LockOf(chain: Chain, p: OpeningParams): u32 {
    if chain.Btc? then BITCOIN_CSV else p.csv
  }

  /** The witness built for this spend opens the output it is for: after the lock with the
      maker's signature, or at once with both. */
  predicate RefundAccepted(chain: Chain, e: Entry, tx: Script.Spend, takerSig: Bytes, makerSig: Bytes)
    requires e.Spent?
  {
    var script := RedeemScript(chain, e.params);
    tx.check(e.params.maker, []).Bad? && tx.check(e.params.maker, makerSig + [Script.SIGHASH_ALL]).Good? ==>
      && (e.kind.ByCsv? && tx.txVersion == 2 && tx.sequence == LockOf(chain, e.params) ==>
            Script.Accepts(tx, script, Script.CsvWitness(makerSig)))
      && (e.kind.ByCoop? && tx.check(e.params.taker, takerSig + [Script.SIGHASH_ALL]).Good? ==>
            Script.Accepts(tx, script, Script.CooperativeWitness(takerSig, makerSig)))
  }

  lemma WitnessOpens(w: World, d: Data, e: Entry, tx: Script.Spend, takerSig: Bytes, makerSig: Bytes)
    requires SpendsRecord(w, d, e)
    ensures RefundAccepted(d.GetChain(), e, tx, takerSig, makerSig)
  {
    var csv := LockOf(d.GetChain(), e.params);
    assert 0 < csv < 0x1_0000;
    hide SpendsRecord, Script.Accepts;
    if tx.check(e.params.maker, []).Bad? {
      Script.BuiltWitnesses(tx, e.params.taker, e.params.maker, e.params.hash, csv, takerSig, makerSig, []);
      if tx.txVersion == 2 && tx.sequence == csv { Script.SequenceSetToLock(tx, csv); }
    }
  }

  /** In every maker run that accepted no foreign opening, every spending transaction is a
      refund or a cooperative close for parameters the maker funded before, from the raw
      transaction the wallet reported then, under its own key; and its witness is accepted. */
  lemma {:induction false} RefundsSpendFundedOutput(w: World, t: Table, key: Bytes, labels: seq<Label>, i: nat,
                                                    tx: Script.Spend, takerSig: Bytes, makerSig: Bytes)
    requires IsMaker(t)
    requires var s := Run(w, New(t, key), labels); !Foreign(s.log) && i < |s.log| && s.log[i].Spent?
    ensures var s := Run(w, New(t, key), labels);
            && !s.log[i].kind.ByPreimage? && s.log[i].params.maker == w.pub(key)
            && SpendsFunded(s.log, i)
            && RefundAccepted(s.data.GetChain(), s.log[i], tx, takerSig, makerSig)
  {
    var s := Run(w, New(t, key), labels);
    AlwaysRefunds(w, t, key, labels);
    AlwaysProvenance(w, t, key, labels);
    KeyIsFixed(w, t, key, labels);
    Progress.TableIsFixed(w, New(t, key), labels);
    hide Run, SpendsFunded, Foreign, FundedAs, RefundAccepted, MakerKey;
    WitnessOpens(w, s.data, s.log[i], tx, takerSig, makerSig);
  }

  // ------------------------------------------------------------- a way forward

  /** The claim by timeout, exactly: it succeeds if one is on record, or if the wallet is
      willing and the raw opening transaction can be spent. */
  lemma CsvClaimRuns(w: World, t: Table, d: Data, snd: Option<nat>, id: nat, o: Outcome)
    requires o.spent.Some? && d.AmountsKnown() && !d.GetChain().Unknown?
    ensures var x := Execute(w, t, ClaimSwapCsv, d, snd, id, o);
            && x.Ran? && x.event == (if Refunds(w, d) then ActionSucceeded else OnRetry)
            && (if Refunds(w, d) then x.data.claimTxId != [] else x.data == d)
  {
    hide Create, PayFee, Broadcast, SendWithRetry, TakerAction, PlainAction, AwaitCsv, AwaitPaymentOrCsv, Spendable;
  }

  predicate Refunds(w: World, d: Data)
    requires d.AmountsKnown()
  {
    d.claimTxId != [] || Spendable(w, d.GetChain(), d.GetOpeningParams(w), d.openingTxHex)
  }

  /** After a successful claim it takes one more round to the finished swap. */
  lemma FinishClaimed(w: World, s: Sys, o: Outcome)
    requires IsMaker(s.table) && s.current.ClaimSwapCsv?
    requires s.phase == Executed(ActionSucceeded) || s.phase == Recovered(ActionSucceeded)
    ensures var r := ApplyPersist(ApplyDispatch(w, ApplyPersist(s), o)); r.current.ClaimedCsv? && r.data == s.data
  {
    var p := ApplyPersist(s);
    assert p == Save(s).(phase := Pending(ActionSucceeded));
    assert Next(s.table, ClaimSwapCsv, ActionSucceeded) == Some(ClaimedCsv);
    hide Next;
    assert Execute(w, s.table, ClaimedCsv, s.data, s.sender, |s.log|, o) == Ran(s.data, Done, StopLog(s.sender), None);
    hide Execute;
  }

  /** After a failed one, to another try. */
  lemma FinishRetrying(w: World, s: Sys, o: Outcome)
    requires IsMaker(s.table) && s.current.ClaimSwapCsv? && s.retries == 0 && o.spent.Some?
    requires s.data.AmountsKnown() && !s.data.GetChain().Unknown? && !Refunds(w, s.data)
    requires s.phase == Executed(OnRetry) || s.phase == Recovered(OnRetry)
    ensures ApplyPersist(ApplyDispatch(w, ApplyPersist(s), o)).current.ClaimSwapCsv?
  {
    var p := ApplyPersist(s);
    assert p.phase == Pending(OnRetry) && p.current == s.current && p.data == s.data && p.log == s.log;
    hide ApplyPersist;
    assert Next(s.table, ClaimSwapCsv, OnRetry) == Some(ClaimSwapCsv);
    hide Next;
    CsvClaimRuns(w, p.table, p.data, p.sender, |p.log|, o);
    hide Execute, Refunds;
    PersistKeepsState(ApplyDispatch(w, p, o));
  }

  lemma PersistKeepsState(s: Sys)
    ensures ApplyPersist(s).current == s.current
  {
  }

  /** What a resting maker does to get its money back. It restarts first: that registers the
      watcher for the lock again, in case the waiting action had failed to, and lets a claim
      that gave up retrying try again. */
  function WayForward(s: Sys, o: Outcome): seq<Label> {
    if s.current.ClaimSwapCsv? then [Crash, Restart(o), Persist, Dispatch(o), Persist]
    else [Crash, Restart(o), Persist, Deliver(CsvPassed), Dispatch(o), Persist, Dispatch(o), Persist]
  }

  /** A maker at rest that waits for the payment or the lock, or whose claim gave up. */
  predicate Resting(s: Sys) {
    && IsMaker(s.table) && s.phase.Idle? && s.stored == Some(Snapshot(s.current, s.data))
    && (s.current.AwaitClaimPayment? || s.current.WaitCsv? || s.current.ClaimSwapCsv?)
    && s.data.openingTxBroadcasted.Some? && s.data.AmountsKnown() && s.data.GetPolicy().Some?
  }

  /** The claim action has run: successfully, or in vain. */
  predicate Tried(w: World, s: Sys, d: Data)
    requires d.AmountsKnown()
  {
    && IsMaker(s.table) && s.current.ClaimSwapCsv? && s.retries == 0
    && (if Refunds(w, d)
        then s.data.claimTxId != [] && (s.phase == Executed(ActionSucceeded) || s.phase == Recovered(ActionSucceeded))
        else s.data == d && (s.phase == Executed(OnRetry) || s.phase == Recovered(OnRetry)))
  }

  lemma AfterTheLock(w: World, s: Sys, o: Outcome)
    requires Resting(s) && !s.current.ClaimSwapCsv? && o.spent.Some? && s.retries == 0
    ensures Tried(w, ApplyDispatch(w, ApplyDeliver(s, CsvPassed), o), s.data)
  {
    hide Spendable;
    var p := ApplyDeliver(s, CsvPassed);
    assert s.log + InputLog(CsvPassed) == s.log;
    assert p == Save(s).(phase := Pending(OnCsvPassed));
    assert Next(s.table, s.current, OnCsvPassed) == Some(ClaimSwapCsv);
    hide Next;
    CsvClaimRuns(w, s.table, s.data, s.sender, |s.log|, o);
    hide Execute, Refunds;
  }

  lemma AfterTheRestart(w: World, s: Sys, o: Outcome)
    requires Resting(s) && s.current.ClaimSwapCsv? && o.spent.Some?
    ensures Tried(w, ApplyRestart(w, ApplyCrash(s), o), s.data)
  {
    CsvClaimRuns(w, s.table, s.data, None, |ApplyCrash(s).log|, o);
    hide Execute, Refunds;
  }

  lemma AfterTheTry(w: World, s: Sys, d: Data, o: Outcome)
    requires d.AmountsKnown() && d.GetPolicy().Some? && Tried(w, s, d) && o.spent.Some?
    ensures var r := ApplyPersist(ApplyDispatch(w, ApplyPersist(s), o));
            if Refunds(w, d) then r.current.ClaimedCsv? && r.data.claimTxId != [] else r.current.ClaimSwapCsv?
  {
    hide ApplyPersist, ApplyDispatch, Refunds;
    if Refunds(w, d) { FinishClaimed(w, s, o); } else { FinishRetrying(w, s, o); }
  }

  lemma Forward(w: World, s: Sys, o: Outcome)
    requires Resting(s) && o.spent.Some? && o.scriptOk
    ensures var r := Run(w, s, WayForward(s, o));
            && (r.current.ClaimedCsv? <==> Refunds(w, s.data)) && (Refunds(w, s.data) ==> r.data.claimTxId != [])
  {
    hide ApplyDeliver, ApplyDispatch, ApplyPersist, ApplyRestart, ApplyCrash, Run, Refunds, Tried;
    if s.current.ClaimSwapCsv? {
      AfterTheRestart(w, s, o);
      AfterTheTry(w, ApplyRestart(w, ApplyCrash(s), o), s.data, o);
      RunFive(w, s, Crash, Restart(o), Persist, Dispatch(o), Persist);
    } else {
      var r := ApplyPersist(ApplyRestart(w, ApplyCrash(s), o));
      RestsAgain(w, s, o);
      AfterTheLock(w, r, o);
      AfterTheTry(w, ApplyDispatch(w, ApplyDeliver(r, CsvPassed), o), s.data, o);
      var first := [Crash, Restart(o), Persist];
      var second := [Deliver(CsvPassed), Dispatch(o), Persist, Dispatch(o), Persist];
      assert WayForward(s, o) == first + second;
      RunAppend(w, s, first, second);
      RunThree(w, s, Crash, Restart(o), Persist);
      RunFive(w, r, Deliver(CsvPassed), Dispatch(o), Persist, Dispatch(o), Persist);
    }
  }

  lemma RestsAgain(w: World, s: Sys, o: Outcome)
    requires Resting(s) && !s.current.ClaimSwapCsv? && o.scriptOk
    ensures var r := ApplyPersist(ApplyRestart(w, ApplyCrash(s), o));
            Resting(r) && r.current == s.current && r.data == s.data && r.retries == 0
  {
    WaitsAgain(w, s, o);
    hide ApplyPersist, ApplyRestart;
  }

  lemma AnnouncedRests(w: World, s: Sys)
    requires NoWayBack(s) && InSync(s) && Holds(s) && FundingsKept(s) && Provenance(w, s) && IsMaker(s.table)
    requires Announced(s.log) && !Foreign(s.log) && s.phase.Idle? && !IsFinished(s.current)
    ensures Resting(s) && FundedAs(w, s.log, s.data)
  {
    hide Announced, Foreign, FundedAs, Strayed, Separated, Unreopened, FundedEver, MakerKey, Ready;
    FundedAsIsFunded(w, s.log, s.data);
  }

  /** Wherever an announced, unfinished maker that accepted no foreign opening can rest, a
      restart and the passing of the lock take it to a claimed swap, with a willing wallet, if
      and only if a claim is on record or the raw opening transaction can be spent. */
  lemma {:induction false} AlwaysAWayForward(w: World, t: Table, key: Bytes, labels: seq<Label>, o: Outcome)
    requires IsMaker(t) && o.spent.Some? && o.scriptOk
    requires var s := Run(w, New(t, key), labels);
             Announced(s.log) && !Foreign(s.log) && s.phase.Idle? && !IsFinished(s.current)
    ensures var s := Run(w, New(t, key), labels);
            && s.data.AmountsKnown()
            && (Run(w, s, WayForward(s, o)).current.ClaimedCsv? <==> Refunds(w, s.data))
  {
    var s := Run(w, New(t, key), labels);
    AlwaysNoWayBack(w, t, key, labels);
    AlwaysInSync(w, t, key, labels);
    AlwaysHolds(w, t, key, labels);
    AlwaysFundings(w, t, key, labels);
    AlwaysProvenance(w, t, key, labels);
    Progress.TableIsFixed(w, New(t, key), labels);
    hide Run, NoWayBack, InSync, Holds, FundingsKept, Provenance, Announced, Foreign, WayForward, Refunds;
    AnnouncedRests(w, s);
    Forward(w, s, o);
  }

  /** The wallet did what it reported: every opening transaction in use has the swap's output. */
  ghost predicate HonestWallet(w: World, chain: Chain, log: seq<Entry>) {
    forall i :: 0 <= i < |log| && log[i].Funded? && log[i].usable ==> ValidateTx(w, chain, log[i].params, log[i].txHex)
  }

  lemma HonestFundingRefunds(w: World, log: seq<Entry>, d: Data)
    requires FundedAs(w, log, d) && HonestWallet(w, d.GetChain(), log) && !Strayed(log)
    ensures d.AmountsKnown() && Refunds(w, d)
  {
    hide Spendable, ValidateTx, Strayed;
    var i :| && 0 <= i < |log| && log[i].Funded? && Funds(w, d, log[i])
             && (Strayed(log) || log[i].txHex == d.openingTxHex);
    ValidatedIsSpendable(w, d.GetChain(), log[i].params, log[i].txHex);
  }

  ghost predicate Unasked(labels: seq<Label>) {
    forall i :: 0 <= i < |labels| ==> !(labels[i].Deliver? && labels[i].input.OpeningReceived?)
  }

  lemma DispatchUnheard(w: World, s: Sys, o: Outcome)
    ensures Foreign(ApplyDispatch(w, s, o).log) ==> Foreign(s.log)
  {
    hide ApplyDispatch, Next, Summary, Details, Foreign;
    var n, x := DispatchCases(w, s, o);
    CrashUnheard(s);
    if s.phase.Pending? && Acts(w, s, n, x) {
      ActionIsUnheard(w, s, n, x);
      var move := [Moved(s.current, n, s.phase.event)];
      HistoryGrows(s.log, move);
      HistoryGrows(s.log + move, x.log);
    }
    hide ApplyCrash;
  }

  lemma RestartUnheard(w: World, s: Sys, o: Outcome)
    ensures Foreign(ApplyRestart(w, s, o).log) ==> Foreign(s.log)
  {
    hide ApplyRestart, Summary, Details, Foreign;
    var x := RestartCases(w, s, o);
    CrashUnheard(s);
    if Acts(w, s, s.current, x) {
      ActionIsUnheard(w, s, s.current, x);
      HistoryGrows(s.log, x.log);
    }
    hide ApplyCrash;
  }

  lemma CrashUnheard(s: Sys)
    ensures Foreign(ApplyCrash(s).log) ==> Foreign(s.log)
  {
    hide Foreign;
    if s.stored.Some? { HistoryGrows(s.log, [CrashEntry(s, s.stored.value)]); }
  }

  lemma StepUnheard(w: World, s: Sys, l: Label)
    requires !(l.Deliver? && l.input.OpeningReceived?)
    ensures Foreign(Apply(w, s, l).log) ==> Foreign(s.log)
  {
    hide Foreign;
    match l
    case Start(r) => hide ValidRequest;
    case Deliver(i) => hide ApplyInput, ValidInput, EventOf; HistoryGrows(s.log, InputLog(i));
    case Dispatch(o) => hide ApplyDispatch; DispatchUnheard(w, s, o);
    case Persist =>
    case Crash => hide ApplyCrash; CrashUnheard(s);
    case Restart(o) => hide ApplyRestart; RestartUnheard(w, s, o);
  }

  lemma {:induction false} RunUnheard(w: World, s: Sys, labels: seq<Label>)
    requires Unasked(labels)
    ensures Foreign(Run(w, s, labels).log) ==> Foreign(s.log)
  {
    if labels != [] {
      var before, l := labels[..|labels| - 1], labels[|labels| - 1];
      assert forall i :: 0 <= i < |before| ==> before[i] == labels[i];
      RunUnheard(w, s, before);
      StepUnheard(w, Run(w, s, before), l);
      hide Apply, Foreign;
    }
  }

  /** So a maker with an honest wallet always gets its money back: it reaches a claimed swap
      with a spend in its history, for parameters it funded and under its own key. */
  lemma {:induction false} HonestMakerIsRefunded(w: World, t: Table, key: Bytes, labels: seq<Label>, o: Outcome)
    requires IsMaker(t) && o.spent.Some? && o.scriptOk
    requires var s := Run(w, New(t, key), labels);
             && Announced(s.log) && !Foreign(s.log) && s.phase.Idle? && !IsFinished(s.current)
             && HonestWallet(w, s.data.GetChain(), s.log) && !Strayed(s.log)
    ensures var s := Run(w, New(t, key), labels);
            var r := Run(w, s, WayForward(s, o));
            && r.current.ClaimedCsv?
            && exists i :: 0 <= i < |r.log| && r.log[i].Spent? && r.log[i].params.maker == w.pub(key)
                           && SpendsFunded(r.log, i)
  {
    var s := Run(w, New(t, key), labels);
    var way := WayForward(s, o);
    AlwaysNoWayBack(w, t, key, labels);
    AlwaysInSync(w, t, key, labels);
    AlwaysHolds(w, t, key, labels);
    AlwaysFundings(w, t, key, labels);
    AlwaysProvenance(w, t, key, labels);
    Progress.TableIsFixed(w, New(t, key), labels);
    assert Unasked(way);
    hide Run, NoWayBack, InSync, Holds, FundingsKept, Provenance, Announced, Foreign, Strayed, WayForward, Refunds,
      HonestWallet,
      FundedAs, SpendsFunded, Unasked;
    AnnouncedRests(w, s);
    HonestFundingRefunds(w, s.log, s.data);
    Forward(w, s, o);
    RunAppend(w, New(t, key), labels, way);
    RunUnheard(w, s, way);
    SpendOnRecord(w, t, key, labels + way);
  }

  /** A recorded claim has its spend in the history. */
  lemma {:induction false} SpendOnRecord(w: World, t: Table, key: Bytes, labels: seq<Label>)
    requires IsMaker(t)
    requires var r := Run(w, New(t, key), labels); r.data.claimTxId != [] && !Foreign(r.log)
    ensures var r := Run(w, New(t, key), labels);
            exists i :: && 0 <= i < |r.log| && r.log[i].Spent? && r.log[i].params.maker == w.pub(key)
                        && SpendsFunded(r.log, i)
  {
    var r := Run(w, New(t, key), labels);
    SpendsAtMostOnce(w, t, key, labels);
    CountPositive(r.log, IsSpent);
    var i :| 0 <= i < |r.log| && IsSpent(r.log[i]);
    var tx := Script.Spend((a, b) => Script.Bad, b => [], 2, 0);
    hide Run, Foreign, SpendsFunded;
    RefundsSpendFundedOutput(w, t, key, labels, i, tx, [], []);
  }
}
