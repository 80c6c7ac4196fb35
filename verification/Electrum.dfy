/** The Electrum chain watcher: the observers (electrum/tx_observer.go), the list of them that
    shrinks while it is walked (electrum/block_subscriber.go), and the header stream that
    drives both (lwk/electrumtxwatcher.go). */
module Electrum {
  import opened Base

  /** `onchain.LiquidConfs`. */
  const LIQUID_CONFS: u32 := 2

  datatype Observer =
    | OpeningTx(swapId: string, txId: Bytes, startingHeight: u32, paymentWindow: u32)
    | CsvTx(swapId: string, txId: Bytes, csv: u32)

  /** An entry of a script's history. None is a nil entry or one whose hash does not parse. */
  datatype Item = Item(hash: Option<Bytes>, height: i64)

  datatype CallbackError = NoError | SwapDoesNotExist | OtherError

  /** What the server and the swap service answer during one callback. */
  datatype Answer = Answer(
    history: Option<seq<Item>>,
    rawTx: Option<Bytes>,
    callback: CallbackError)

  /** What the swap service is told. */
  datatype Report = Nothing | Confirmed(txHex: Bytes) | DeadlineExceeded | CsvPassed

  datatype Outcome = Outcome(report: Report, callbacked: bool, error: CallbackError)

  // ------------------------------------------------------------- observers

  ghost predicate IsHeightOf(items: seq<Item>, txId: Bytes, height: Option<i64>) {
    match height
    case None => forall k :: 0 <= k < |items| ==> items[k].hash != Some(txId)
    case Some(h) =>
      exists i :: && 0 <= i < |items| && items[i] == Item(Some(txId), h)
                  && forall k :: 0 <= k < i ==> items[k].hash != Some(txId)
  }

  function HeightOf(items: seq<Item>, txId: Bytes): (height: Option<i64>) {
    if items == [] then None
    else if items[0].hash == Some(txId) then Some(items[0].height)
    else HeightOf(items[1..], txId)
  }

  /** `getHeight`: the height of the first entry for the transaction. */
  method GetHeight(items: seq<Item>, txId: Bytes) returns (height: Option<i64>)
    ensures IsHeightOf(items, txId, height)
    ensures height == HeightOf(items, txId)
  {
    var i := 0;
    assert items[0..] == items;
    while i < |items|
      invariant 0 <= i <= |items|
      invariant forall k :: 0 <= k < i ==> items[k].hash != Some(txId)
      invariant HeightOf(items, txId) == HeightOf(items[i..], txId)
    {
      if items[i].hash == Some(txId) {
        return Some(items[i].height);
      }
      assert items[i..][1..] == items[i + 1..];
      i := i + 1;
    }
    return None;
  }

  /** `hasConfirmations`: None is an error. */
  function HasConfirmations(txHeight: i64, tip: i64, required: u32): (r: Option<bool>)
    ensures r.None? <==> tip <= 0 || txHeight > tip
    ensures r == Some(true) <==> 0 < txHeight <= tip && tip - txHeight + 1 >= required
  {
    if tip <= 0 then None
    else if txHeight <= 0 then Some(false)
    else if txHeight > tip then None
    else Some(tip - txHeight + 1 >= required)
  }

  /** The two `Callback` methods. */
  function Callback(o: Observer, tip: i64, a: Answer): Outcome {
    match o
    case OpeningTx(_, txId, start, window) =>
      if tip <= 0 then Outcome(Nothing, false, OtherError)
      else if tip < start || tip >= start + window then Outcome(DeadlineExceeded, true, a.callback)
      else
        (match Found(a, txId, tip, LIQUID_CONFS)
         case Some(true) =>
           if a.rawTx.None? then Outcome(Nothing, false, NoError)
           else Outcome(Confirmed(a.rawTx.value), true, a.callback)
         case Some(false) => Outcome(Nothing, false, NoError)
         case None => Outcome(Nothing, false, OtherError))
    case CsvTx(_, txId, csv) =>
      match Found(a, txId, tip, csv)
      case Some(true) => Outcome(CsvPassed, true, a.callback)
      case Some(false) => Outcome(Nothing, false, NoError)
      case None => Outcome(Nothing, false, OtherError)
  }

  /** Whether the history shows the transaction with enough confirmations; None is an error. */
  function Found(a: Answer, txId: Bytes, tip: i64, required: u32): Option<bool> {
    match a.history
    case None => None
    case Some(items) =>
      match HeightOf(items, txId)
      case None => Some(false)
      case Some(h) => HasConfirmations(h, tip, required)
  }

  /** The transaction is in the history, in a block, with `required` confirmations at `tip`. */
  ghost predicate Deep(a: Answer, txId: Bytes, tip: i64, required: u32) {
    && a.history.Some?
    && exists h: i64 :: IsHeightOf(a.history.value, txId, Some(h)) && 0 < h <= tip && tip - h + 1 >= required
  }

  lemma {:induction false} HeightOfIsFirst(items: seq<Item>, txId: Bytes)
    ensures IsHeightOf(items, txId, HeightOf(items, txId))
  {
    if items != [] && items[0].hash != Some(txId) {
      var rest := items[1..];
      HeightOfIsFirst(rest, txId);
      assert forall k :: 0 < k < |items| ==> items[k] == rest[k - 1];
      if HeightOf(rest, txId).Some? {
        var h := HeightOf(rest, txId).value;
        var i :| && 0 <= i < |rest| && rest[i] == Item(Some(txId), h)
                 && forall k :: 0 <= k < i ==> rest[k].hash != Some(txId);
        assert items[i + 1] == Item(Some(txId), h);
      }
    }
  }

  lemma HeightIsUnique(items: seq<Item>, txId: Bytes, a: Option<i64>, b: Option<i64>)
    requires IsHeightOf(items, txId, a) && IsHeightOf(items, txId, b)
    ensures a == b
  {
    if a.Some? && b.Some? {
      var i :| && 0 <= i < |items| && items[i] == Item(Some(txId), a.value)
               && forall k :: 0 <= k < i ==> items[k].hash != Some(txId);
      var j :| && 0 <= j < |items| && items[j] == Item(Some(txId), b.value)
               && forall k :: 0 <= k < j ==> items[k].hash != Some(txId);
      assert i == j;
    }
  }

  lemma FoundMeansDeep(a: Answer, txId: Bytes, tip: i64, required: u32)
    ensures Found(a, txId, tip, required) == Some(true) <==> Deep(a, txId, tip, required)
  {
    if a.history.Some? {
      var items := a.history.value;
      HeightOfIsFirst(items, txId);
      if Deep(a, txId, tip, required) {
        var h: i64 :| IsHeightOf(items, txId, Some(h)) && 0 < h <= tip && tip - h + 1 >= required;
        HeightIsUnique(items, txId, HeightOf(items, txId), Some(h));
      }
    }
  }

  /** An opening observer reports a missed deadline exactly outside its window, and success
      exactly inside it, with two confirmations and the raw transaction at hand; a CSV observer
      reports exactly once the lock has passed. Whatever is reported, the answer is passed on. */
  lemma ReportsExactlyWhen(o: Observer, tip: i64, a: Answer)
    ensures var r := Callback(o, tip, a);
            && (r.callbacked <==> !r.report.Nothing?)
            && (r.callbacked ==> r.error == a.callback)
    ensures o.OpeningTx? ==>
            var r, deadline := Callback(o, tip, a).report, o.startingHeight + o.paymentWindow;
            && !r.CsvPassed?
            && (r.DeadlineExceeded? <==> 0 < tip && (tip < o.startingHeight || deadline <= tip))
            && (r.Confirmed? <==>
                  0 < tip && o.startingHeight <= tip < deadline && Deep(a, o.txId, tip, 2) && a.rawTx.Some?)
            && (r.Confirmed? ==> r.txHex == a.rawTx.value)
    ensures o.CsvTx? ==>
            var r := Callback(o, tip, a).report;
            !r.Confirmed? && !r.DeadlineExceeded? && (r.CsvPassed? <==> Deep(a, o.txId, tip, o.csv))
  {
    FoundMeansDeep(a, o.txId, tip, if o.OpeningTx? then LIQUID_CONFS else o.csv);
    hide Found, Deep;
  }

  // ------------------------------------------------------------ subscriber

  datatype Call = Call(observer: Observer, tip: i64, outcome: Outcome)

  /** A call after which the observer's swap needs no watching any more. */
  predicate Settles(c: Call) {
    c.outcome.callbacked && (c.outcome.error.NoError? || c.outcome.error.SwapDoesNotExist?)
  }

  function CallOf(observers: seq<Observer>, i: nat, tip: i64, answers: nat -> Answer): Call
    requires i < |observers|
  {
    Call(observers[i], tip, Callback(observers[i], tip, answers(i)))
  }

  /** The first `n` calls of an update: the observers in order, each once. */
  function Calls(observers: seq<Observer>, n: nat, tip: i64, answers: nat -> Answer): (r: seq<Call>)
    requires n <= |observers|
    ensures |r| == n && forall i :: 0 <= i < n ==> r[i] == CallOf(observers, i, tip, answers)
  {
    if n == 0 then [] else Calls(observers, n - 1, tip, answers) + [CallOf(observers, n - 1, tip, answers)]
  }

  function Settled(calls: seq<Call>): set<string> {
    set c | c in calls && Settles(c) :: c.observer.swapId
  }

  /** The order-preserving filter by swap id. */
  function Without(observers: seq<Observer>, ids: set<string>): seq<Observer> {
    if observers == [] then []
    else
      var last := observers[|observers| - 1];
      Without(observers[..|observers| - 1], ids) + (if last.swapId in ids then [] else [last])
  }

  lemma {:induction false} WithoutTwice(observers: seq<Observer>, a: set<string>, b: set<string>)
    ensures Without(Without(observers, a), b) == Without(observers, a + b)
  {
    if observers != [] {
      var init, last := observers[..|observers| - 1], observers[|observers| - 1];
      WithoutTwice(init, a, b);
      var kept := Without(init, a);
      if last.swapId !in a {
        assert (kept + [last])[..|kept + [last]| - 1] == kept;
      } else {
        assert kept + [] == kept;
      }
    }
  }

  lemma {:induction false} WithoutNone(observers: seq<Observer>)
    ensures Without(observers, {}) == observers
  {
    if observers != [] {
      WithoutNone(observers[..|observers| - 1]);
    }
  }

  /** The filter decides observer by observer and keeps the order. */
  lemma {:induction false} WithoutSplits(a: seq<Observer>, b: seq<Observer>, ids: set<string>)
    ensures Without(a + b, ids) == Without(a, ids) + Without(b, ids)
  {
    if b == [] {
      assert a + b == a;
    } else {
      var init, last := b[..|b| - 1], b[|b| - 1];
      WithoutSplits(a, init, ids);
      assert (a + b)[..|a + b| - 1] == a + init;
      var tail := if last.swapId in ids then [] else [last];
      assert Without(b, ids) == Without(init, ids) + tail;
      assert Without(a + b, ids) == Without(a + init, ids) + tail;
      hide Without;
    }
  }

  lemma WithoutOne(o: Observer, ids: set<string>)
    ensures Without([o], ids) == if o.swapId in ids then [] else [o]
  {
    assert [o][..0] == [];
  }

  class BlockHeaderSubscriber {
    var txObservers: seq<Observer>
    var calls: seq<Call>

    constructor ()
      ensures txObservers == [] && calls == []
    {
      txObservers, calls := [], [];
    }

    method Register(o: Observer)
      modifies this`txObservers
      ensures txObservers == old(txObservers) + [o]
    {
      txObservers := txObservers + [o];
    }

    /** Builds a new list and replaces the old one, which an update may still be walking. */
    method Deregister(o: Observer)
      modifies this`txObservers
      ensures txObservers == Without(old(txObservers), {o.swapId})
    {
      var newObservers := [];
      for i := 0 to |txObservers|
        invariant newObservers == Without(txObservers[..i], {o.swapId})
      {
        assert txObservers[..i + 1][..i] == txObservers[..i];
        if txObservers[i].swapId != o.swapId {
          newObservers := newObservers + [txObservers[i]];
        }
      }
      assert txObservers[..|txObservers|] == txObservers;
      txObservers := newObservers;
    }

    /** Every observer registered at the start is called exactly once, in order, even when an
        earlier call deregistered it; what is left is the list without the settled swaps. */
    method Update(tip: i64, answers: nat -> Answer)
      modifies this
      ensures calls == old(calls) + Calls(old(txObservers), |old(txObservers)|, tip, answers)
      ensures txObservers ==
              Without(old(txObservers), Settled(Calls(old(txObservers), |old(txObservers)|, tip, answers)))
    {
      var observers := txObservers;
      WithoutNone(observers);
      assert Settled(Calls(observers, 0, tip, answers)) == {};
      for i := 0 to |observers|
        invariant calls == old(calls) + Calls(observers, i, tip, answers)
        invariant txObservers == Without(observers, Settled(Calls(observers, i, tip, answers)))
      {
        ghost var sofar := Calls(observers, i, tip, answers);
        var outcome := Callback(observers[i], tip, answers(i));
        var call := Call(observers[i], tip, outcome);
        calls := calls + [call];
        assert Calls(observers, i + 1, tip, answers) == sofar + [call];
        SettledGrows(sofar, call);
        hide Settled, Without, Callback, Calls;
        if outcome.callbacked {
          if outcome.error.NoError? || outcome.error.SwapDoesNotExist? {
            Deregister(observers[i]);
            WithoutTwice(observers, Settled(sofar), {observers[i].swapId});
          }
        }
      }
    }
  }

  lemma SettledGrows(calls: seq<Call>, c: Call)
    ensures Settles(c) ==> Settled(calls + [c]) == Settled(calls) + {c.observer.swapId}
    ensures !Settles(c) ==> Settled(calls + [c]) == Settled(calls)
  {
    var all := Settled(calls + [c]);
    forall id | id in Settled(calls) ensures id in all {
      var d :| d in calls && Settles(d) && d.observer.swapId == id;
      assert d in calls + [c];
    }
    if Settles(c) { assert c in calls + [c]; }
  }

  lemma {:induction false} WithoutMembers(observers: seq<Observer>, ids: set<string>, o: Observer)
    ensures o in Without(observers, ids) <==> o in observers && o.swapId !in ids
  {
    if observers != [] {
      var init := observers[..|observers| - 1];
      WithoutMembers(init, ids, o);
      assert observers == init + [observers[|observers| - 1]];
    }
  }

  /** An observer stays exactly as long as every report made for its swap was answered with an
      error other than that the swap does not exist. */
  lemma StaysExactlyWhen(observers: seq<Observer>, calls: seq<Call>, o: Observer)
    ensures o in Without(observers, Settled(calls)) <==>
            && o in observers
            && forall c :: c in calls && c.observer.swapId == o.swapId && c.outcome.callbacked ==>
                 c.outcome.error.OtherError?
  {
    WithoutMembers(observers, Settled(calls), o);
  }

  // --------------------------------------------------------------- watcher

  /** The heights a stream of headers makes the watcher announce. It stops at a header it
      cannot use; None stands for a nil header. */
  function Announced(headers: seq<Option<i64>>, height: i64): seq<i64> {
    if headers == [] || headers[0].None? || headers[0].value <= 0 then []
    else if height > 0 && headers[0].value <= height then Announced(headers[1..], height)
    else [headers[0].value] + Announced(headers[1..], headers[0].value)
  }

  ghost predicate Increasing(heights: seq<i64>) {
    forall i, j :: 0 <= i < j < |heights| ==> heights[i] < heights[j]
  }

  /** For any stream of headers the announced heights strictly increase, from above the
      height the watcher started at. */
  lemma {:induction false} AnnouncedIncrease(headers: seq<Option<i64>>, height: i64)
    ensures Increasing(Announced(headers, height))
    ensures forall i :: 0 <= i < |Announced(headers, height)| ==>
            0 < Announced(headers, height)[i] && (height > 0 ==> height < Announced(headers, height)[i])
  {
    if !(headers == [] || headers[0].None? || headers[0].value <= 0) {
      var h := headers[0].value;
      if height > 0 && h <= height {
        AnnouncedIncrease(headers[1..], height);
      } else {
        AnnouncedIncrease(headers[1..], h);
        var rest := Announced(headers[1..], h);
        assert forall i :: 0 < i < |[h] + rest| ==> ([h] + rest)[i] == rest[i - 1];
      }
    }
  }

  predicate Usable(header: Option<i64>) { header.Some? && header.value > 0 }

  /** The `k`-th header is reached and raises the height. */
  predicate Raises(headers: seq<Option<i64>>, height: i64, k: nat, h: i64) {
    && k < |headers| && headers[k] == Some(h) && (forall j :: 0 <= j <= k ==> Usable(headers[j]))
    && (height > 0 ==> height < h) && (forall j :: 0 <= j < k ==> headers[j].value < h)
  }

  /** A height is announced if and only if a header before any unusable one raises the height
      to it. */
  lemma {:induction false} AnnouncedExactly(headers: seq<Option<i64>>, height: i64, h: i64)
    ensures h in Announced(headers, height) <==> exists k: nat :: Raises(headers, height, k, h)
  {
    if headers == [] || !Usable(headers[0]) {
      return;
    }
    var rest, first := headers[1..], headers[0].value;
    var next := if height > 0 && first <= height then height else first;
    AnnouncedExactly(rest, next, h);
    if k: nat :| Raises(headers, height, k, h) {
      if k > 0 {
        assert forall j :: 0 <= j < |rest| ==> rest[j] == headers[j + 1];
        assert Raises(rest, next, k - 1, h);
      }
    }
    if k: nat :| Raises(rest, next, k, h) {
      assert forall j :: 0 < j < |headers| ==> headers[j] == rest[j - 1];
      assert Raises(headers, height, k + 1, h);
    }
    if next == first && h == first && !(height > 0 && first <= height) {
      assert Raises(headers, height, 0, h);
    }
  }

  /** Observers are called with announced heights only, and never with a lower one later. */
  ghost predicate InOrder(calls: seq<Call>, heights: seq<i64>) {
    && (forall i :: 0 <= i < |calls| ==> calls[i].tip in heights)
    && (forall i, j :: 0 <= i < j < |calls| ==> calls[i].tip <= calls[j].tip)
  }

  lemma InOrderGrows(calls: seq<Call>, heights: seq<i64>, more: seq<Call>, h: i64)
    requires InOrder(calls, heights) && (forall k :: 0 <= k < |heights| ==> heights[k] <= h)
    requires forall i :: 0 <= i < |more| ==> more[i].tip == h
    ensures InOrder(calls + more, heights + [h])
  {
    var all := calls + more;
    forall i | 0 <= i < |all| ensures all[i].tip in heights + [h] && all[i].tip <= h {
      if i < |calls| {
        assert calls[i].tip in heights;
      }
    }
  }

  /** Calls at one height followed by calls at the heights announced after it. */
  lemma OrderJoins(first: seq<Call>, announced: seq<i64>, later: seq<Call>, headers: seq<Option<i64>>, height: i64)
    requires height > 0 && (announced == [] || announced == [height]) && (first != [] ==> announced == [height])
    requires forall i :: 0 <= i < |first| ==> first[i].tip == height
    requires InOrder(later, Announced(headers, height))
    ensures InOrder(first + later, announced + Announced(headers, height))
  {
    AnnouncedIncrease(headers, height);
    var all, more := first + later, Announced(headers, height);
    forall i | 0 <= i < |all| ensures all[i].tip in announced + more && all[i].tip >= height {
      if i >= |first| {
        assert all[i] == later[i - |first|];
        var k :| 0 <= k < |more| && more[k] == all[i].tip;
      } else {
        assert announced[0] == height;
      }
    }
  }

  class TxWatcher {
    var blockHeight: i64
    var stopped: bool
    var heights: seq<i64>
    const subscriber: BlockHeaderSubscriber

    constructor (s: BlockHeaderSubscriber)
      ensures blockHeight == 0 && !stopped && heights == [] && subscriber == s
    {
      blockHeight, stopped, heights, subscriber := 0, false, [], s;
    }

    /** `acceptBlockHeight`: None is an error. */
    method AcceptBlockHeight(header: Option<i64>) returns (changed: Option<bool>)
      modifies this`blockHeight
      ensures changed.None? <==> header.None? || header.value <= 0 || stopped
      ensures changed == Some(true) <==>
              header.Some? && header.value > 0 && !stopped
              && (old(blockHeight) > 0 ==> header.value > old(blockHeight))
      ensures blockHeight == if changed == Some(true) then header.value else old(blockHeight)
    {
      if header.None? || header.value <= 0 {
        return None;
      }
      if stopped {
        return None;
      }
      if blockHeight > 0 && header.value <= blockHeight {
        return Some(false);
      }
      blockHeight := header.value;
      return Some(true);
    }

    method Fail()
      modifies this`stopped
      ensures stopped
    {
      stopped := true;
    }

    method Announce(answers: nat -> Answer) returns (ghost more: seq<Call>)
      modifies this`heights, subscriber
      ensures heights == old(heights) + [blockHeight]
      ensures subscriber.calls == old(subscriber.calls) + more
      ensures forall k :: 0 <= k < |more| ==> more[k].tip == blockHeight
    {
      heights := heights + [blockHeight];
      more := Calls(subscriber.txObservers, |subscriber.txObservers|, blockHeight, answers);
      subscriber.Update(blockHeight, answers);
    }

    /** The event loop over a stream of headers: every announced height goes to the
        subscriber once, in order, and a bad header stops the watcher for good. */
    method Watch(headers: seq<Option<i64>>, answers: (nat, nat) -> Answer)
      requires !stopped
      modifies this, subscriber
      ensures heights == old(heights) + Announced(headers, old(blockHeight))
      ensures stopped <==> exists i :: 0 <= i < |headers| && (headers[i].None? || headers[i].value <= 0)
      ensures old(subscriber.calls) <= subscriber.calls
      ensures InOrder(subscriber.calls[|old(subscriber.calls)|..], Announced(headers, old(blockHeight)))
    {
      var i := 0;
      ghost var announced: seq<i64> := [];
      assert subscriber.calls[|subscriber.calls|..] == [];
      assert headers[0..] == headers;
      while i < |headers|
        invariant 0 <= i <= |headers| && !stopped
        invariant announced + Announced(headers[i..], blockHeight) == Announced(headers, old(blockHeight))
        invariant forall k :: 0 <= k < i ==> headers[k].Some? && headers[k].value > 0
        invariant heights == old(heights) + announced
        invariant old(subscriber.calls) <= subscriber.calls
        invariant InOrder(subscriber.calls[|old(subscriber.calls)|..], announced)
        invariant forall k :: 0 <= k < |announced| ==> announced[k] <= blockHeight && blockHeight > 0
      {
        var rest := headers[i..];
        assert rest[0] == headers[i] && rest[1..] == headers[i + 1..];
        var changed := AcceptBlockHeight(headers[i]);
        if changed.None? {
          Fail();
          assert announced == Announced(headers, old(blockHeight));
          return;
        }
        if changed.value {
          ghost var before := subscriber.calls[|old(subscriber.calls)|..];
          ghost var more := Announce((k: nat) => answers(i, k));
          assert subscriber.calls[|old(subscriber.calls)|..] == before + more;
          InOrderGrows(before, announced, more, blockHeight);
          announced := announced + [blockHeight];
        }
        i := i + 1;
      }
      assert announced == Announced(headers, old(blockHeight));
    }

    /** `StartWatchingTxs`: without a usable first header it returns an error and leaves the
        watcher as it is; with one it announces it and enters the event loop. */
    method StartWatchingTxs(headers: seq<Option<i64>>, answers: (nat, nat) -> Answer) returns (started: bool)
      requires !stopped
      modifies this, subscriber
      ensures started <==> headers != [] && headers[0].Some? && headers[0].value > 0
      ensures heights == old(heights) + Announced(headers, old(blockHeight))
      ensures stopped <==> started && exists i :: 0 < i < |headers| && (headers[i].None? || headers[i].value <= 0)
      ensures old(subscriber.calls) <= subscriber.calls
      ensures InOrder(subscriber.calls[|old(subscriber.calls)|..], Announced(headers, old(blockHeight)))
    {
      ghost var calls := subscriber.calls;
      assert subscriber.calls[|calls|..] == [];
      if headers == [] {
        return false;
      }
      var changed := AcceptBlockHeight(headers[0]);
      if changed.None? {
        return false;
      }
      ghost var first: seq<Call> := [];
      ghost var announced: seq<i64> := [];
      if changed.value {
        first := Announce((k: nat) => answers(0, k));
        announced := [blockHeight];
      }
      ghost var height, middle := blockHeight, subscriber.calls;
      var rest := headers[1..];
      Watch(rest, (i: nat, k: nat) => answers(i + 1, k));
      ghost var later := subscriber.calls[|middle|..];
      assert subscriber.calls[|calls|..] == first + later;
      assert Announced(headers, old(blockHeight)) == announced + Announced(rest, height);
      OrderJoins(first, announced, later, rest, height);
      assert forall i :: 0 < i < |headers| ==> headers[i] == rest[i - 1];
      assert forall i :: 0 <= i < |rest| ==> rest[i] == headers[i + 1];
      return true;
    }

    /** A stopped watcher, or one without a usable height, reports an error. */
    method GetBlockHeight() returns (height: Option<u32>)
      ensures height.Some? <==> !stopped && 0 < blockHeight < TWO_32
      ensures height.Some? ==> height.value == blockHeight
    {
      if stopped || blockHeight <= 0 || blockHeight > TWO_32 - 1 {
        return None;
      }
      return Some(blockHeight);
    }
  }
}
