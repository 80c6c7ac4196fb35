/** Finding a confirmed transaction with a full node (txwatcher/blockchainRpc.go): the fast
    path over `gettxout` and the plain scan of a block range. */
module BlockScan {
  import opened Base

  datatype TxOut = TxOut(confirmations: u32, bestBlock: Bytes)

  /** The node's answers. The outer None of a field is an RPC error. */
  datatype Rpc = Rpc(
    blockHeight: Option<u64>,
    blockHash: u32 -> Option<Bytes>,
    rawTx: (Bytes, Bytes) -> Option<Bytes>,             // transaction id, block hash
    txOut: (Bytes, u32) -> Option<Option<TxOut>>)       // inner None: spent or unknown

  datatype Error = BadRange | RpcError | NotFound | OutOfSync | Unconfirmed | BlockHashMismatch

  /** `Forever` is a scan that does not end. */
  datatype Result = Found(tx: Bytes, height: u32) | Failed(error: Error) | Forever

  /** The raw transaction if the block at this height has it, else the empty string. */
  function RawAt(rpc: Rpc, txId: Bytes, height: u32): Bytes {
    match rpc.blockHash(height)
    case None => []
    case Some(hash) =>
      match rpc.rawTx(txId, hash)
      case None => []
      case Some(tx) => tx
  }

  /** The block a scan from `start` looks at after `n` steps of its 32-bit counter. */
  function Visited(start: u32, n: nat): u32 { (start + n) % TWO_32 }

  /** How many blocks a scan looks at before it ends or repeats itself: with the largest block
      number as its end the counter wraps around below it. */
  function Length(start: u32, end: u32): nat
    requires start <= end
  {
    if end == TWO_32 - 1 then TWO_32 else end - start + 1
  }

  /** The first `n` blocks of the scan can be read and lack the transaction. */
  ghost predicate Absent(rpc: Rpc, txId: Bytes, start: u32, n: nat) {
    forall k: nat :: k < n ==> rpc.blockHash(Visited(start, k)).Some? && RawAt(rpc, txId, Visited(start, k)) == []
  }

  /** The scan comes to its `n`-th block. */
  ghost predicate ComesTo(rpc: Rpc, txId: Bytes, start: u32, end: u32, n: nat) {
    start <= end && n < Length(start, end) && Absent(rpc, txId, start, n)
  }

  /** The first block of the scan that has the transaction, or the reason there is none. */
  ghost predicate IsScan(rpc: Rpc, txId: Bytes, start: u32, end: u32, r: Result) {
    match r
    case Found(tx, h) =>
      exists n: nat :: && ComesTo(rpc, txId, start, end, n) && h == Visited(start, n)
                       && RawAt(rpc, txId, h) == tx && tx != []
    case Failed(BadRange) => end < start
    case Failed(NotFound) => start <= end < TWO_32 - 1 && Absent(rpc, txId, start, Length(start, end))
    case Failed(RpcError) =>
      exists n: nat :: ComesTo(rpc, txId, start, end, n) && rpc.blockHash(Visited(start, n)).None?
    case Forever => end == TWO_32 - 1 && Absent(rpc, txId, start, TWO_32)
    case _ => false
  }

  /** `IsTxInRange`. The loop counter has 32 bits; when it has seen every block and its end is
      the largest block number, it goes on forever. */
  method IsTxInRange(rpc: Rpc, txId: Bytes, start: u32, end: u32) returns (r: Result)
    ensures IsScan(rpc, txId, start, end, r)
    ensures r.Found? && end < TWO_32 - 1 ==> start <= r.height <= end
  {
    if end < start {
      return Failed(BadRange);
    }
    var i: u32 := start;
    var n := 0;
    while i <= end && n < TWO_32
      invariant 0 <= n <= Length(start, end) && i == Visited(start, n) && (end < TWO_32 - 1 ==> i == start + n)
      invariant Absent(rpc, txId, start, n)
      decreases TWO_32 - n
    {
      assert ComesTo(rpc, txId, start, end, n);
      var hash := rpc.blockHash(i);
      if hash.None? {
        return Failed(RpcError);
      }
      var tx := rpc.rawTx(txId, hash.value);
      if tx.Some? && tx.value != [] {
        return Found(tx.value, i);
      }
      i, n := (i + 1) % TWO_32, n + 1;
    }
    if end == TWO_32 - 1 {
      return Forever;
    }
    return Failed(NotFound);
  }

  lemma ScanIsUnique(rpc: Rpc, txId: Bytes, start: u32, end: u32, r: Result, q: Result)
    requires IsScan(rpc, txId, start, end, r) && IsScan(rpc, txId, start, end, q)
    ensures r == q
  {
    if Stops(r) && Stops(q) {
      var n := StopsAt(rpc, txId, start, end, r);
      var m := StopsAt(rpc, txId, start, end, q);
      FirstStop(rpc, txId, start, n, m);
      FirstStop(rpc, txId, start, m, n);
    } else if Stops(r) {
      var n := StopsAt(rpc, txId, start, end, r);
    } else if Stops(q) {
      var m := StopsAt(rpc, txId, start, end, q);
    }
  }

  predicate Stops(r: Result) { r.Found? || r == Failed(RpcError) }

  /** Where a scan stops: a block that is missing or has the transaction. */
  lemma StopsAt(rpc: Rpc, txId: Bytes, start: u32, end: u32, r: Result) returns (n: nat)
    requires IsScan(rpc, txId, start, end, r) && Stops(r)
    ensures ComesTo(rpc, txId, start, end, n)
    ensures rpc.blockHash(Visited(start, n)).None? || RawAt(rpc, txId, Visited(start, n)) != []
    ensures if r.Found? then r.height == Visited(start, n) && r.tx == RawAt(rpc, txId, r.height) && r.tx != []
            else rpc.blockHash(Visited(start, n)).None?
  {
    if r.Found? {
      n :| && ComesTo(rpc, txId, start, end, n) && r.height == Visited(start, n)
           && RawAt(rpc, txId, r.height) == r.tx && r.tx != [];
    } else {
      n :| ComesTo(rpc, txId, start, end, n) && rpc.blockHash(Visited(start, n)).None?;
    }
  }

  lemma FirstStop(rpc: Rpc, txId: Bytes, start: u32, n: nat, m: nat)
    requires Absent(rpc, txId, start, m)
    requires rpc.blockHash(Visited(start, n)).None? || RawAt(rpc, txId, Visited(start, n)) != []
    ensures n >= m
  {
  }

  /** A consistent view of a chain with the transaction in exactly the block at `h`: all
      blocks are there, and an unspent output counts its confirmations from that block. */
  ghost predicate Confirmed(rpc: Rpc, txId: Bytes, vout: u32, h: u32, tx: Bytes) {
    && rpc.blockHeight.Some? && h <= rpc.blockHeight.value < TWO_32 && tx != []
    && (forall k: u32 :: k <= rpc.blockHeight.value ==> rpc.blockHash(k).Some?)
    && rpc.rawTx(txId, rpc.blockHash(h).value) == Some(tx)
    && (forall k: u32 :: k <= rpc.blockHeight.value && k != h ==> RawAt(rpc, txId, k) == [])
    && rpc.txOut(txId, vout).Some?
    && var out := rpc.txOut(txId, vout).value;
       out.Some? ==> out.value.bestBlock == rpc.blockHash(rpc.blockHeight.value).value
                     && out.value.confirmations == rpc.blockHeight.value - h + 1
  }

  lemma ConfirmedIsFound(rpc: Rpc, txId: Bytes, vout: u32, start: u32, tip: u32, h: u32, tx: Bytes)
    requires Confirmed(rpc, txId, vout, h, tx) && start <= h && rpc.blockHeight.value == tip
    ensures IsScan(rpc, txId, start, tip, Found(tx, h))
  {
    var n := h - start;
    assert h == Visited(start, n);
    assert forall k: nat :: k < n ==> Visited(start, k) == start + k;
    assert ComesTo(rpc, txId, start, tip, n);
  }

  /** The node answers the three questions asked first. */
  predicate Ready(rpc: Rpc, txId: Bytes, vout: u32) {
    && rpc.blockHeight.Some? && rpc.blockHash(rpc.blockHeight.value % TWO_32).Some? && rpc.txOut(txId, vout).Some?
  }

  /** `IsTxInMempoolOrRange`. Whether the output is still unspent, and so which of the two
      paths answers, makes no difference to what is found. */
  method IsTxInMempoolOrRange(rpc: Rpc, txId: Bytes, startHeight: u32, vout: u32) returns (r: Result)
    ensures forall h: u32, tx: Bytes :: startHeight <= h && Confirmed(rpc, txId, vout, h, tx) ==> r == Found(tx, h)
    ensures Ready(rpc, txId, vout) && rpc.txOut(txId, vout).value.None? ==>
            IsScan(rpc, txId, startHeight, rpc.blockHeight.value % TWO_32, r)
    ensures Ready(rpc, txId, vout) && rpc.txOut(txId, vout).value.Some? ==>
            var info := rpc.txOut(txId, vout).value.value;
            && (r == Failed(OutOfSync) <==> Some(info.bestBlock) != rpc.blockHash(rpc.blockHeight.value % TWO_32))
            && (r == Failed(Unconfirmed) <==> r != Failed(OutOfSync) && info.confirmations == 0)
    ensures !Ready(rpc, txId, vout) ==> r == Failed(RpcError)
  {
    if rpc.blockHeight.None? {
      return Failed(RpcError);
    }
    var current: u32 := rpc.blockHeight.value % TWO_32;
    var bestHash := rpc.blockHash(current);
    if bestHash.None? {
      return Failed(RpcError);
    }
    var out := rpc.txOut(txId, vout);
    if out.None? {
      return Failed(RpcError);
    }
    if out.value.Some? {
      var info := out.value.value;
      var txBlockHash := bestHash.value;
      if info.bestBlock != bestHash.value {
        return Failed(OutOfSync);
      }
      if info.confirmations == 0 {
        return Failed(Unconfirmed);
      } else if info.confirmations != 1 {
        current := (current + 1 - info.confirmations) % TWO_32;
        var hash := rpc.blockHash(current);
        if hash.None? {
          return Failed(RpcError);
        }
        txBlockHash := hash.value;
      }
      var tx := rpc.rawTx(txId, txBlockHash);
      if tx.None? {
        return Failed(BlockHashMismatch);
      }
      return Found(tx.value, current);
    }
    r := IsTxInRange(rpc, txId, startHeight, current);
    forall h: u32, tx: Bytes | startHeight <= h && Confirmed(rpc, txId, vout, h, tx) ensures r == Found(tx, h) {
      ConfirmedIsFound(rpc, txId, vout, startHeight, current, h, tx);
      ScanIsUnique(rpc, txId, startHeight, current, r, Found(tx, h));
    }
  }
}
