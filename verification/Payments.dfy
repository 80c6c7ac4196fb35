/** What a taker has in hand whenever it pays the claim invoice, and what its claim spends
    afterwards: on every run, with crashes anywhere. */
module Payments {
  import opened Base
  import opened Timelock
  import opened SwapData
  import opened OnChain
  import opened States
  import opened Actions
  import opened Effects
  import opened Fsm
  import opened Presence
  import opened Takers
  import Progress
  import Script

  // ---------------------------------------------------------------- one payment

  /** The states a taker can be in, or be stored in, once it has tried to pay. */
  predicate Late(s: State) {
    || s.AwaitTxConfirmation? || s.ValidateTxAndPayClaimInvoice? || s.ClaimSwap? || s.SendPrivkey?
    || s.SendCoopClose? || s.SendCancel? || s.SwapCanceled? || s.ClaimedPreimage? || s.ClaimedCoop?
  }

  /** The payment `e` fits the swap `d`: its invoice was checked and bound, the transaction
      it pays for validates against the swap's parameters, the taker's place in them is held
      by its own key, and the height is one the policy allows. */
  predicate SafePayment(w: World, d: Data, e: Entry) {
    && e.ClaimPayment? && InvoiceBound(w, d)
    && e.params == d.GetOpeningParams(w) && e.params.taker == w.pub(d.privkey)
    && e.payreq == d.openingTxBroadcasted.value.payreq
    && ValidateTx(w, d.GetChain(), e.params, e.txHex)
    && e.anchor == d.startingBlockHeight && e.cltvCap == d.GetPolicy().value.maxTotalCltvDelta
    && MayPay(d, e.height, d.GetPolicy().value)
  }

  /** A spend with the preimage uses the parameters of the swap. */
  predicate SafeSpend(w: World, d: Data, e: Entry) {
    InvoiceBound(w, d) && e.Spent? && e.params == d.GetOpeningParams(w)
  }

  /** The parts of the data that payments and claims depend on. */
  predicate Frozen(a: Data, b: Data) {
    && SameSwap(a, b) && SameAgreements(a, b) && SameAnchor(a, b)
    && a.openingTxBroadcasted == b.openingTxBroadcasted && a.claimPaymentHash == b.claimPaymentHash
    && a.blindingKey == b.blindingKey
  }

  lemma FrozenParams(w: World, d: Data, e: Data)
    requires InvoiceBound(w, d) && (Frozen(d, e) || Grows(d, e))
    ensures InvoiceBound(w, e) && e.GetOpeningParams(w) == d.GetOpeningParams(w)
    ensures e.GetPolicy() == d.GetPolicy() && e.GetChain() == d.GetChain()
    ensures e.startingBlockHeight == d.startingBlockHeight && e.startingBlockHeightSet == d.startingBlockHeightSet
    ensures e.openingTxBroadcasted == d.openingTxBroadcasted && e.privkey == d.privkey
  {
    assert d.claimPaymentHash != [];
  }

  lemma SafetyKept(w: World, d: Data, d': Data, e: Entry)
    requires Frozen(d, d') || Grows(d, d')
    ensures SafePayment(w, d, e) ==> SafePayment(w, d', e)
    ensures SafeSpend(w, d, e) ==> SafeSpend(w, d', e)
  {
    if InvoiceBound(w, d) { FrozenParams(w, d, d'); }
    hide InvoiceBound, ValidateTx;
  }

  lemma SafetyBinds(w: World, d: Data, e: Entry)
    requires SafePayment(w, d, e) || SafeSpend(w, d, e)
    ensures InvoiceBound(w, d)
  {
  }

  /** A late action changes nothing that matters. */
  lemma LateAction(w: World, s: Sys, n: State, x: Exec)
    requires Acts(w, s, n, x) && Late(n)
    requires n.AwaitTxConfirmation? ==> InvoiceBound(w, s.data) && s.data.AllowsNewPayment()
    ensures Frozen(s.data, x.data)
  {
    hide InvoiceBound, SenderEffect, PaymentDetails, ClaimDetails;
  }

  /** Every payment an action makes is safe. */
  lemma NewPayment(w: World, s: Sys, n: State, x: Exec, i: nat)
    requires Acts(w, s, n, x) && i < |x.log| && x.log[i].ClaimPayment?
    requires !IsMaker(s.table) && Ready(s.table, n, s.data) && OwnKey(w, s.table, n, s.data)
    requires n.ValidateTxAndPayClaimInvoice? ==> InvoiceBound(w, s.data)
    requires s.data.AllowsNewPayment()
    ensures n.ValidateTxAndPayClaimInvoice? && SafePayment(w, s.data, x.log[i])
  {
    hide SenderEffect, InvoiceBound, ValidateTx, MayPay;
    assert n.ValidateTxAndPayClaimInvoice?;
    OwnTakerKey(w, s.table, s.data);
  }

  lemma OwnTakerKey(w: World, t: Table, d: Data)
    requires !IsMaker(t) && OwnKey(w, t, ValidateTxAndPayClaimInvoice, d) && Ready(t, ValidateTxAndPayClaimInvoice, d)
    ensures d.GetTakerPubkey() == w.pub(d.privkey)
  {
  }

  // ---------------------------------------------------------------- backing

  /** The entry at `j` paid and got `preimage`, for the transaction `hex`; or the watcher has
      replaced the transaction since. */
  ghost predicate Backs(log: seq<Entry>, j: nat, n: nat, hex: Bytes, preimage: Bytes) {
    && j < n <= |log| && log[j].ClaimPayment? && log[j].paid == Some(preimage)
    && (log[j].txHex == hex || exists k :: j < k < n && log[k] == HexDelivered(hex))
  }

  ghost predicate Backed(log: seq<Entry>, n: nat, hex: Bytes, preimage: Bytes) {
    exists j: nat :: Backs(log, j, n, hex, preimage)
  }

  lemma BackedGrows(log: seq<Entry>, n: nat, more: seq<Entry>, m: nat, hex: Bytes, preimage: Bytes)
    requires Backed(log, n, hex, preimage) && n <= m <= |log + more|
    ensures Backed(log + more, m, hex, preimage)
  {
    var j: nat :| Backs(log, j, n, hex, preimage);
    assert (log + more)[j] == log[j];
    if log[j].txHex != hex {
      var k :| j < k < n && log[k] == HexDelivered(hex);
      assert (log + more)[k] == log[k];
    }
    assert Backs(log + more, j, m, hex, preimage);
  }

  lemma BackedByNewHex(log: seq<Entry>, hex: Bytes, preimage: Bytes, hex': Bytes)
    requires Backed(log, |log|, hex, preimage)
    ensures Backed(log + [HexDelivered(hex')], |log| + 1, hex', preimage)
  {
    var j: nat :| Backs(log, j, |log|, hex, preimage);
    var more := log + [HexDelivered(hex')];
    assert more[j] == log[j] && more[|log|] == HexDelivered(hex');
    assert Backs(more, j, |log| + 1, hex', preimage);
  }

  predicate IsPreimageSpend(e: Entry) { e.Spent? && e.kind.ByPreimage? }

  // -------------------------------------------------------------- the invariant

  /** Requests and key of a swap are the same in memory and in the store. */
  predicate SameOrigin(key: Bytes, a: Data, b: Data) {
    && a.swapInRequest == b.swapInRequest && a.swapOutRequest == b.swapOutRequest
    && a.privkey == key && b.privkey == key
  }

  lemma SameOriginSamePolicy(key: Bytes, a: Data, b: Data)
    requires SameOrigin(key, a, b)
    ensures a.GetPolicy() == b.GetPolicy() && a.AllowsNewPayment() == b.AllowsNewPayment()
  {
  }

  ghost predicate EntriesSafe(w: World, log: seq<Entry>, c: State, d: Data) {
    && (forall i :: 0 <= i < |log| && log[i].ClaimPayment? ==> Late(c) && SafePayment(w, d, log[i]))
    && (forall i :: 0 <= i < |log| && IsPreimageSpend(log[i]) ==>
          Late(c) && SafeSpend(w, d, log[i]) && Backed(log, i, log[i].txHex, log[i].preimage))
  }

  ghost predicate Paying(w: World, key: Bytes, s: Sys) {
    && s.data.privkey == key
    && (s.stored.Some? ==> SameOrigin(key, s.data, s.stored.value.data))
    && (s.data.AllowsNewPayment() ==>
          && EntriesSafe(w, s.log, s.current, s.data)
          && (s.stored.Some? ==> EntriesSafe(w, s.log, s.stored.value.current, s.stored.value.data))
          && (s.current.ClaimSwap? || (s.current.ValidateTxAndPayClaimInvoice? && Reported(s.phase)) ==>
                Backed(s.log, |s.log|, s.data.openingTxHex, s.data.claimPreimage))
          && (s.stored.Some? && s.stored.value.current.ClaimSwap? ==>
                Backed(s.log, |s.log|, s.stored.value.data.openingTxHex, s.stored.value.data.claimPreimage)))
  }

  /** Entries stay safe when the log grows by entries that are safe themselves. */
  lemma EntriesStaySafe(w: World, log: seq<Entry>, c: State, d: Data, more: seq<Entry>, c': State, d': Data)
    requires EntriesSafe(w, log, c, d) && (Late(c) ==> Late(c'))
    requires Late(c) && InvoiceBound(w, d) ==> Frozen(d, d') || Grows(d, d')
    requires forall i :: 0 <= i < |more| && more[i].ClaimPayment? ==> Late(c') && SafePayment(w, d', more[i])
    requires forall i :: 0 <= i < |more| && IsPreimageSpend(more[i]) ==>
               Late(c') && SafeSpend(w, d', more[i]) && Backed(log, |log|, more[i].txHex, more[i].preimage)
    ensures EntriesSafe(w, log + more, c', d')
  {
    hide SafePayment, SafeSpend, Backed, InvoiceBound;
    var all := log + more;
    forall i | 0 <= i < |all| && all[i].ClaimPayment? ensures Late(c') && SafePayment(w, d', all[i]) {
      if i < |log| {
        SafetyBinds(w, d, log[i]);
        SafetyKept(w, d, d', log[i]);
      } else { assert all[i] == more[i - |log|]; }
    }
    forall i | 0 <= i < |all| && IsPreimageSpend(all[i])
      ensures Late(c') && SafeSpend(w, d', all[i]) && Backed(all, i, all[i].txHex, all[i].preimage)
    {
      if i < |log| {
        SafetyBinds(w, d, log[i]);
        SafetyKept(w, d, d', log[i]);
        BackedGrows(log, i, more, i, all[i].txHex, all[i].preimage);
      } else {
        assert all[i] == more[i - |log|];
        BackedGrows(log, |log|, more, i, all[i].txHex, all[i].preimage);
      }
    }
  }

  // ------------------------------------------------------------------ steps

  lemma LateEdges(t: Table, s: State, e: Event)
    requires Late(s) && InTable(t, s) && !IsMaker(t)
    ensures Next(t, s, e).Some? ==> Late(Next(t, s, e).value)
  {
    hide SwapInSenderNext, SwapOutReceiverNext;
    if t.SwapOutSender? { hide SwapInReceiverNext; } else { hide SwapOutSenderNext; }
  }

  /** What an action adds to the log, and that the memory it leaves fits all of it. */
  lemma ActionPays(w: World, s: Sys, n: State, x: Exec, pre: seq<Entry>)
    requires x.Ran? && Acts(w, s, n, x) && !IsMaker(s.table)
    requires Ready(s.table, n, s.data) && OwnKey(w, s.table, n, s.data)
    requires s.data.AllowsNewPayment() && EntriesSafe(w, s.log, s.current, s.data)
    requires Late(s.current) ==> Late(n)
    requires n.ValidateTxAndPayClaimInvoice? || n.ClaimSwap? ==> InvoiceBound(w, s.data) && Late(s.current)
    requires n.ClaimSwap? ==> Backed(s.log, |s.log|, s.data.openingTxHex, s.data.claimPreimage)
    requires forall i :: 0 <= i < |pre| ==> pre[i].Moved?
    ensures EntriesSafe(w, s.log + pre + x.log, n, x.data)
    ensures EntriesSafe(w, s.log + pre + x.log, s.current, s.data)
  {
    hide SafePayment, SafeSpend, Backed, InvoiceBound, EntriesSafe, Frozen, Acts, OwnKey, Ready;
    var more := pre + x.log;
    assert s.log + pre + x.log == s.log + more;
    if Late(n) && InvoiceBound(w, s.data) { LateAction(w, s, n, x); }
    forall i | 0 <= i < |more| && more[i].ClaimPayment?
      ensures n.ValidateTxAndPayClaimInvoice? && SafePayment(w, s.data, more[i]) && SafePayment(w, x.data, more[i])
    {
      assert more[i] == x.log[i - |pre|];
      NewPayment(w, s, n, x, i - |pre|);
      SafetyKept(w, s.data, x.data, more[i]);
    }
    forall i | 0 <= i < |more| && IsPreimageSpend(more[i])
      ensures n.ClaimSwap? && SafeSpend(w, s.data, more[i]) && SafeSpend(w, x.data, more[i])
      ensures Backed(s.log, |s.log|, more[i].txHex, more[i].preimage)
    {
      assert more[i] == x.log[i - |pre|];
      NewSpend(w, s, n, x, i - |pre|);
      SafetyKept(w, s.data, x.data, more[i]);
    }
    assert Late(s.current) && InvoiceBound(w, s.data) ==> Frozen(s.data, x.data);
    EntriesStaySafe(w, s.log, s.current, s.data, more, n, x.data);
    SelfFrozen(s.data);
    EntriesStaySafe(w, s.log, s.current, s.data, more, s.current, s.data);
  }

  lemma SelfFrozen(d: Data)
    ensures Frozen(d, d)
  {
  }

  lemma NewSpend(w: World, s: Sys, n: State, x: Exec, i: nat)
    requires Acts(w, s, n, x) && i < |x.log| && IsPreimageSpend(x.log[i])
    requires n.ClaimSwap? ==> InvoiceBound(w, s.data)
    ensures n.ClaimSwap? && SafeSpend(w, s.data, x.log[i])
    ensures x.log[i].txHex == s.data.openingTxHex && x.log[i].preimage == s.data.claimPreimage
  {
    hide SenderEffect, InvoiceBound, OpeningContract, PaymentDetails, CreateDetails, ConfirmationDetails;
  }

  /** A successful payment backs the preimage it returned. */
  lemma PaymentBacks(w: World, s: Sys, x: Exec, log: seq<Entry>)
    requires Acts(w, s, ValidateTxAndPayClaimInvoice, x) && x.event.ActionSucceeded? && s.data.AllowsNewPayment()
    ensures Backed(log + x.log, |log + x.log|, x.data.openingTxHex, x.data.claimPreimage)
  {
    hide SenderEffect, ValidateTx, MayPay;
    var all := log + x.log;
    assert all[|all| - 1] == x.log[|x.log| - 1];
    assert Backs(all, |all| - 1, |all|, x.data.openingTxHex, x.data.claimPreimage);
  }

  lemma ClaimKeepsBacking(w: World, s: Sys, x: Exec, pre: seq<Entry>)
    requires Acts(w, s, ClaimSwap, x) && Backed(s.log, |s.log|, s.data.openingTxHex, s.data.claimPreimage)
    ensures Backed(s.log + pre + x.log, |s.log + pre + x.log|, x.data.openingTxHex, x.data.claimPreimage)
  {
    hide SenderEffect, Backed;
    assert s.log + pre + x.log == s.log + (pre + x.log);
    BackedGrows(s.log, |s.log|, pre + x.log, |s.log + pre + x.log|, s.data.openingTxHex, s.data.claimPreimage);
  }

  lemma ActionOrigin(w: World, key: Bytes, s: Sys, n: State, x: Exec)
    requires Acts(w, s, n, x) && s.data.privkey == key
    ensures SameOrigin(key, s.data, x.data)
  {
    hide SenderEffect, Details;
  }

  /** What is in place when a taker enters a state. */
  lemma Arriving(w: World, s: Sys, n: State)
    requires Bound(w, s) && InSync(s) && Holds(s) && !IsMaker(s.table) && s.phase.Pending?
    requires Next(s.table, s.current, s.phase.event) == Some(n)
    ensures Ready(s.table, n, s.data) && OwnKey(w, s.table, n, s.data)
    ensures Late(s.current) || n.ValidateTxAndPayClaimInvoice? || n.ClaimSwap? ==> Late(n) && Late(s.current)
    ensures s.data.AllowsNewPayment() && (n.ValidateTxAndPayClaimInvoice? || n.ClaimSwap?) ==> InvoiceBound(w, s.data)
    ensures n.ClaimSwap? ==> s.current.ClaimSwap? || (s.current.ValidateTxAndPayClaimInvoice? && Reported(s.phase))
    ensures s.stored == Some(Snapshot(s.current, s.data))
  {
    hide InvoiceBound, Ready, OwnKey;
    var e := s.phase.event;
    EdgesSupply(s.table, s.current, e);
    Entering(s.table, s.current, e, n, s.data);
    TakerEdges(s.table, s.current, e);
    if Late(s.current) { LateEdges(s.table, s.current, e); }
    hide Next;
    BoundEntering(w, s, n);
  }

  lemma MovePaying(w: World, key: Bytes, s: Sys, n: State, x: Exec)
    requires Paying(w, key, s) && Bound(w, s) && InSync(s) && Holds(s) && !IsMaker(s.table) && s.phase.Pending?
    requires x.Ran? && Next(s.table, s.current, s.phase.event) == Some(n) && Acts(w, s, n, x)
    ensures Paying(w, key, Move(s, n, x))
  {
    hide Next, InvoiceBound, Acts, Bound, Holds, Backed, EntriesSafe, Ready, OwnKey, InSync;
    var pre := [Moved(s.current, n, s.phase.event)];
    Arriving(w, s, n);
    ActionOrigin(w, key, s, n, x);
    SameOriginSamePolicy(key, s.data, x.data);
    if s.data.AllowsNewPayment() {
      ActionPays(w, s, n, x, pre);
      if n.ClaimSwap? { ClaimKeepsBacking(w, s, x, pre); }
      if n.ValidateTxAndPayClaimInvoice? && x.event.ActionSucceeded? { PaymentBacks(w, s, x, s.log + pre); }
      KeepsBackingOfStored(s, pre + x.log);
      assert s.log + pre + x.log == s.log + (pre + x.log);
    }
  }

  lemma KeepsBackingOfStored(s: Sys, more: seq<Entry>)
    ensures s.stored.Some? ==>
            var hex, preimage := s.stored.value.data.openingTxHex, s.stored.value.data.claimPreimage;
            Backed(s.log, |s.log|, hex, preimage) ==> Backed(s.log + more, |s.log + more|, hex, preimage)
    ensures Backed(s.log, |s.log|, s.data.openingTxHex, s.data.claimPreimage) ==>
            Backed(s.log + more, |s.log + more|, s.data.openingTxHex, s.data.claimPreimage)
  {
    hide Backed;
    if s.stored.Some? {
      var d := s.stored.value.data;
      if Backed(s.log, |s.log|, d.openingTxHex, d.claimPreimage) {
        BackedGrows(s.log, |s.log|, more, |s.log + more|, d.openingTxHex, d.claimPreimage);
      }
    }
    if Backed(s.log, |s.log|, s.data.openingTxHex, s.data.claimPreimage) {
      BackedGrows(s.log, |s.log|, more, |s.log + more|, s.data.openingTxHex, s.data.claimPreimage);
    }
  }

  /** The key and the bound invoice are in place when a late state is entered. */
  lemma BoundEntering(w: World, s: Sys, n: State)
    requires Bound(w, s) && InSync(s) && Holds(s) && !IsMaker(s.table) && s.phase.Pending?
    requires TakerEdge(s.current, s.phase.event, Some(n)) && Supplied(s.table, s.current, s.phase.event, n)
    ensures OwnKey(w, s.table, n, s.data)
    ensures s.data.AllowsNewPayment() && (n.ValidateTxAndPayClaimInvoice? || n.ClaimSwap?) ==> InvoiceBound(w, s.data)
  {
    hide InvoiceBound, Ready;
  }

  lemma BoundResuming(w: World, s: Sys)
    requires Bound(w, s) && Holds(s)
    ensures OwnKey(w, s.table, s.current, s.data) && Ready(s.table, s.current, s.data)
    ensures (s.data.AllowsNewPayment() && (s.current.ValidateTxAndPayClaimInvoice? || s.current.ClaimSwap?)) ==>
            InvoiceBound(w, s.data)
  {
    hide InvoiceBound, OwnKey, Ready;
  }

  lemma ResumePaying(w: World, key: Bytes, s: Sys, x: Exec)
    requires Paying(w, key, s) && Bound(w, s) && InSync(s) && Holds(s) && !IsMaker(s.table) && s.phase.Down?
    requires Acts(w, s, s.current, x) && s.stored.Some?
    ensures Paying(w, key, Resume(s, x))
  {
    BoundResuming(w, s);
    hide InvoiceBound, Acts, Backed, EntriesSafe, Ready, OwnKey, Bound, Holds;
    ActionOrigin(w, key, s, s.current, x);
    SameOriginSamePolicy(key, s.data, x.data);
    if s.data.AllowsNewPayment() {
      ActionPays(w, s, s.current, x, []);
      assert s.log + [] + x.log == s.log + x.log;
      if s.current.ClaimSwap? { ClaimKeepsBacking(w, s, x, []); }
      if s.current.ValidateTxAndPayClaimInvoice? && x.event.ActionSucceeded? { PaymentBacks(w, s, x, s.log); }
      KeepsBackingOfStored(s, x.log);
    }
  }

  /** An entry that is neither a payment nor a spend. */
  lemma QuietPaying(w: World, s: Sys, e: Entry)
    requires !e.ClaimPayment? && !e.Spent?
    ensures EntriesSafe(w, s.log, s.current, s.data) ==> EntriesSafe(w, s.log + [e], s.current, s.data)
    ensures s.stored.Some? && EntriesSafe(w, s.log, s.stored.value.current, s.stored.value.data) ==>
            EntriesSafe(w, s.log + [e], s.stored.value.current, s.stored.value.data)
  {
    hide EntriesSafe, SafePayment, SafeSpend;
    if EntriesSafe(w, s.log, s.current, s.data) {
      EntriesStaySafe(w, s.log, s.current, s.data, [e], s.current, s.data);
    }
    if s.stored.Some? && EntriesSafe(w, s.log, s.stored.value.current, s.stored.value.data) {
      EntriesStaySafe(w, s.log, s.stored.value.current, s.stored.value.data, [e],
                      s.stored.value.current, s.stored.value.data);
    }
  }

  lemma CrashPaying(w: World, key: Bytes, s: Sys)
    requires Paying(w, key, s)
    ensures Paying(w, key, ApplyCrash(s))
  {
    hide EntriesSafe, Backed;
    if s.stored.Some? {
      SameOriginSamePolicy(key, s.data, s.stored.value.data);
      var e := ApplyCrash(s).log[|s.log|];
      QuietPaying(w, s, e);
      KeepsBackingOfStored(s, [e]);
    }
  }

  lemma InputHex(d: Data, i: Input)
    requires ApplyInput(d, i).Some?
    ensures ApplyInput(d, i).value.openingTxHex == (if i.TxConfirmed? then i.txHex else d.openingTxHex)
    ensures !EventOf(i).ActionSucceeded?
  {
  }

  /** Delivery to a running machine, seen from the data. */
  lemma HeardPaying(w: World, key: Bytes, s: Sys, i: Input, d: Data, r: Sys)
    requires Paying(w, key, s) && Grows(s.data, d)
    requires d.openingTxHex == if i.TxConfirmed? then i.txHex else s.data.openingTxHex
    requires r.current == s.current && r.data == d && r.stored == Some(Snapshot(s.current, d)) && !Reported(r.phase)
    requires r.log == s.log + InputLog(i)
    ensures Paying(w, key, r)
  {
    hide EntriesSafe, Backed;
    var more := InputLog(i);
    assert s.log + [] == s.log;
    SameOriginSamePolicy(key, s.data, d);
    if s.data.AllowsNewPayment() {
      EntriesStaySafe(w, s.log, s.current, s.data, more, s.current, d);
      if s.current.ClaimSwap? && i.TxConfirmed? {
        BackedByNewHex(s.log, s.data.openingTxHex, s.data.claimPreimage, i.txHex);
      } else {
        KeepsBackingOfStored(s, more);
      }
    }
  }

  lemma DeliverPaying(w: World, key: Bytes, s: Sys, i: Input)
    requires Paying(w, key, s) && InSync(s)
    ensures Paying(w, key, ApplyDeliver(s, i))
  {
    if s.phase.Idle? && s.stored.Some? && ValidInput(s.data, i) && ApplyInput(s.data, i).Some? {
      InputHex(s.data, i);
      hide Paying, InSync, ApplyInput, ValidInput, EventOf;
      assert s.log + [] == s.log;
      HeardPaying(w, key, s, i, ApplyInput(s.data, i).value, ApplyDeliver(s, i));
    } else {
      hide ApplyInput, ValidInput, EventOf, EntriesSafe, Backed;
    }
  }

  lemma DispatchPaying(w: World, key: Bytes, s: Sys, o: Outcome)
    requires Paying(w, key, s) && Bound(w, s) && InSync(s) && Holds(s) && !IsMaker(s.table)
    ensures Paying(w, key, ApplyDispatch(w, s, o))
  {
    CrashPaying(w, key, s);
    var n, x := DispatchCases(w, s, o);
    if s.phase.Pending? && Next(s.table, s.current, s.phase.event) == Some(n) && Acts(w, s, n, x) {
      MovePaying(w, key, s, n, x);
    }
    hide ApplyCrash, ApplyDispatch, Move, Acts, Next, EntriesSafe, Backed, Bound, Holds;
  }

  lemma RestartPaying(w: World, key: Bytes, s: Sys, o: Outcome)
    requires Paying(w, key, s) && Bound(w, s) && InSync(s) && Holds(s) && !IsMaker(s.table)
    ensures Paying(w, key, ApplyRestart(w, s, o))
  {
    CrashPaying(w, key, s);
    var x := RestartCases(w, s, o);
    if s.phase.Down? && Acts(w, s, s.current, x) { ResumePaying(w, key, s, x); }
    hide ApplyRestart, ApplyCrash, Acts, Resume, EntriesSafe, Backed, Bound, Holds;
  }

  lemma PersistPaying(w: World, key: Bytes, s: Sys)
    requires Paying(w, key, s)
    ensures Paying(w, key, ApplyPersist(s))
  {
    hide EntriesSafe, Backed;
  }

  lemma StartPaying(w: World, key: Bytes, s: Sys, r: Request)
    requires Paying(w, key, s) && InSync(s)
    ensures Paying(w, key, ApplyStart(w, s, r))
  {
    hide ValidRequest, Backed;
  }

  lemma StepPaying(w: World, key: Bytes, s: Sys, l: Label)
    requires Paying(w, key, s) && Bound(w, s) && InSync(s) && Holds(s) && !IsMaker(s.table)
    ensures Paying(w, key, Apply(w, s, l))
  {
    hide Paying, Bound, Holds, InSync;
    match l
    case Start(r) => hide ApplyStart; StartPaying(w, key, s, r);
    case Deliver(i) => hide ApplyDeliver; DeliverPaying(w, key, s, i);
    case Dispatch(o) => hide ApplyDispatch; DispatchPaying(w, key, s, o);
    case Persist => hide ApplyPersist; PersistPaying(w, key, s);
    case Crash => hide ApplyCrash; CrashPaying(w, key, s);
    case Restart(o) => hide ApplyRestart; RestartPaying(w, key, s, o);
  }

  lemma {:induction false} AlwaysPaying(w: World, t: Table, key: Bytes, labels: seq<Label>)
    requires !IsMaker(t)
    ensures Paying(w, key, Run(w, New(t, key), labels))
  {
    if labels != [] {
      var before := labels[..|labels| - 1];
      AlwaysPaying(w, t, key, before);
      AlwaysBound(w, t, key, before);
      AlwaysInSync(w, t, key, before);
      AlwaysHolds(w, t, key, before);
      Progress.TableIsFixed(w, New(t, key), before);
      hide Apply, Bound, Holds, InSync;
      StepPaying(w, key, Run(w, New(t, key), before), labels[|labels| - 1]);
    }
  }

  // ------------------------------------------------------------ main results

  /** The raw transactions the watcher reported in (j, i) all have the outputs of `hex`; a
      watcher that looks for one transaction id can report nothing else. */
  ghost predicate SameTxReported(w: World, log: seq<Entry>, j: nat, i: nat, hex: Bytes) {
    forall k :: j < k < i <= |log| && log[k].HexDelivered? ==> w.parse(log[k].txHex) == w.parse(hex)
  }

  lemma {:induction false} RunPays(w: World, t: Table, key: Bytes, labels: seq<Label>)
    requires !IsMaker(t)
    ensures var s := Run(w, New(t, key), labels);
            s.data.privkey == key && (s.data.AllowsNewPayment() ==> EntriesSafe(w, s.log, s.current, s.data))
  {
    AlwaysPaying(w, t, key, labels);
    hide Run, EntriesSafe;
  }

  /** The payment is for the swap's own invoice and amount, and the transaction it pays for
      has an output of the opening amount, locked by the script of the payment's parameters. */
  predicate PaysForOutput(w: World, d: Data, e: Entry)
    requires e.ClaimPayment?
  {
    var chain, invoice := d.GetChain(), w.decode(e.payreq);
    && d.AmountsKnown() && e.params.amount == d.GetOpeningTxAmount()
    && invoice.Some? && invoice.value.amountMsat == Msat(d.GetClaimAmount()) && e.params.hash == invoice.value.hash
    && OpeningOutput(w, chain, e.params, e.txHex).Some?
    && var out := w.parse(e.txHex).value[OpeningOutput(w, chain, e.params, e.txHex).value];
       && out.script == w.scriptHash(RedeemScript(chain, e.params))
       && (if chain.Btc? then out.value == e.params.amount
           else w.unblind(out, e.params.blindingKey) == Some(e.params.amount))
  }

  /** The preimage the payment returned, if it is one, opens the output with the taker's signature. */
  predicate OpensOutput(chain: Chain, e: Entry, tx: Script.Spend, sig: Bytes)
    requires e.ClaimPayment?
  {
    && e.paid.Some? && |e.paid.value| == 32 && tx.sha256(e.paid.value) == e.params.hash
    && tx.check(e.params.taker, sig + [Script.SIGHASH_ALL]).Good? && tx.check(e.params.maker, []).Bad?
    ==> Script.Accepts(tx, RedeemScript(chain, e.params), Script.PreimageWitness(sig, e.paid.value))
  }

  lemma SafePaymentPays(w: World, d: Data, e: Entry)
    requires SafePayment(w, d, e)
    ensures PaysForOutput(w, d, e)
  {
    ValidatedOutput(w, d.GetChain(), e.params, e.txHex);
    hide OpeningOutput, RedeemScript;
  }

  lemma AnyPaymentOpens(chain: Chain, e: Entry, tx: Script.Spend, sig: Bytes)
    requires e.ClaimPayment?
    ensures OpensOutput(chain, e, tx, sig)
  {
    if e.paid.Some? && tx.check(e.params.maker, []).Bad? {
      Script.BuiltWitnesses(tx, e.params.taker, e.params.maker, e.params.hash,
                            if chain.Btc? then BITCOIN_CSV else e.params.csv, sig, [], e.paid.value);
    }
    hide Script.Accepts;
  }

  /** In every taker run whose policy allows new claim payments, every payment is for the
      swap's own invoice, its validated output carries the opening amount and is locked to
      the invoice's hash and the taker's own key, and a preimage it returns opens that output. */
  lemma {:induction false} PaidInvoiceOpensOutput(w: World, t: Table, key: Bytes, labels: seq<Label>, i: nat,
                               tx: Script.Spend, sig: Bytes)
    requires !IsMaker(t)
    requires var s := Run(w, New(t, key), labels);
             s.data.AllowsNewPayment() && i < |s.log| && s.log[i].ClaimPayment?
    ensures var s := Run(w, New(t, key), labels);
            && s.log[i].params.taker == w.pub(key)
            && PaysForOutput(w, s.data, s.log[i]) && OpensOutput(s.data.GetChain(), s.log[i], tx, sig)
  {
    var s := Run(w, New(t, key), labels);
    RunPays(w, t, key, labels);
    hide Run, PaysForOutput, OpensOutput, InvoiceBound, ValidateTx;
    SafePaymentPays(w, s.data, s.log[i]);
    AnyPaymentOpens(s.data.GetChain(), s.log[i], tx, sig);
  }

  /** Every claim with a preimage spends, with that preimage, the very output an earlier
      payment of the same run was validated for. */
  lemma {:induction false} ClaimSpendsPaidOutput(w: World, t: Table, key: Bytes, labels: seq<Label>, i: nat)
    requires !IsMaker(t)
    requires var s := Run(w, New(t, key), labels);
             s.data.AllowsNewPayment() && i < |s.log| && IsPreimageSpend(s.log[i])
    ensures var s := Run(w, New(t, key), labels);
            var log, chain := s.log, s.data.GetChain();
            exists j :: && 0 <= j < i && log[j].ClaimPayment? && log[j].paid == Some(log[i].preimage)
                        && log[j].params == log[i].params
                        && ValidateTx(w, chain, log[j].params, log[j].txHex)
                        && (SameTxReported(w, log, j, i, log[j].txHex) ==>
                              OpeningOutput(w, chain, log[i].params, log[i].txHex)
                              == OpeningOutput(w, chain, log[j].params, log[j].txHex))
  {
    var s := Run(w, New(t, key), labels);
    RunPays(w, t, key, labels);
    hide Run;
    var log := s.log;
    assert Backed(log, i, log[i].txHex, log[i].preimage);
    var j: nat :| Backs(log, j, i, log[i].txHex, log[i].preimage);
    assert SafePayment(w, s.data, log[j]) && SafeSpend(w, s.data, log[i]);
    hide ValidateTx, InvoiceBound;
  }
}
