/** How a node recognises the opening output and later selects it for spending
    (onchain/bitcoin.go, onchain/liquid.go). */
module OnChain {
  import opened Base
  import opened Timelock
  import opened SwapData
  import Script

  /** `ParamsToTxScript`: Bitcoin always uses its own lock, Liquid the negotiated one. */
  function RedeemScript(chain: Chain, p: OpeningParams): seq<Script.Op> {
    Script.OpeningScript(p.taker, p.maker, p.hash, if chain.Btc? then BITCOIN_CSV else p.csv)
  }

  function WantScript(w: World, chain: Chain, p: OpeningParams): Bytes {
    w.scriptHash(RedeemScript(chain, p))
  }

  /** Some(i) when i is the first output that satisfies the chain's search key. */
  ghost predicate IsFirst(outs: seq<Output>, key: Output -> bool, i: Option<nat>) {
    match i
    case None => forall k :: 0 <= k < |outs| ==> !key(outs[k])
    case Some(i) => i < |outs| && key(outs[i]) && forall k :: 0 <= k < i ==> !key(outs[k])
  }

  function First(outs: seq<Output>, key: Output -> bool): (i: Option<nat>)
    ensures IsFirst(outs, key, i)
  {
    if outs == [] then None
    else if key(outs[0]) then Some(0)
    else
      match First(outs[1..], key)
      case None => assert forall k :: 0 < k < |outs| ==> outs[k] == outs[1..][k - 1]; None
      case Some(j) => assert forall k :: 0 < k < |outs| ==> outs[k] == outs[1..][k - 1]; Some(j + 1)
  }

  /** Bitcoin searches by amount, Liquid by script. */
  function SearchKey(w: World, chain: Chain, p: OpeningParams): Output -> bool {
    if chain.Btc? then (o: Output) => o.value == p.amount
    else (o: Output) => o.script == WantScript(w, chain, p)
  }

  function OpeningOutput(w: World, chain: Chain, p: OpeningParams, hex: Bytes): Option<nat> {
    match w.parse(hex)
    case None => None
    case Some(outs) => First(outs, SearchKey(w, chain, p))
  }

  /** `ValidateTx` of either chain. */
  predicate ValidateTx(w: World, chain: Chain, p: OpeningParams, hex: Bytes) {
    var found := OpeningOutput(w, chain, p, hex);
    && found.Some?
    && var out := w.parse(hex).value[found.value];
       if chain.Btc? then out.script == WantScript(w, chain, p)
       else w.unblind(out, p.blindingKey) == Some(p.amount)
  }

  /** Whether a spending transaction can be built from this opening transaction. The Bitcoin
      wallets only need it to parse, and fall back to output zero when no output verifies; the
      Liquid wallet checks the output again. */
  predicate Spendable(w: World, chain: Chain, p: OpeningParams, hex: Bytes) {
    if chain.Btc? then w.parse(hex).Some? && w.parse(hex).value != [] else ValidateTx(w, chain, p, hex)
  }

  /** Output `i` is the one the chain looks for, and it is as agreed: Bitcoin looks for the first
      output with the amount, Liquid for the first with the script. */
  predicate IsAgreed(w: World, chain: Chain, p: OpeningParams, outs: seq<Output>, i: nat) {
    && i < |outs| && outs[i].script == WantScript(w, chain, p)
    && if chain.Btc? then outs[i].value == p.amount && forall k :: 0 <= k < i ==> outs[k].value != p.amount
       else w.unblind(outs[i], p.blindingKey) == Some(p.amount)
            && forall k :: 0 <= k < i ==> outs[k].script != WantScript(w, chain, p)
  }

  /** A transaction validates if and only if it parses and has such an output. */
  lemma ValidatesExactly(w: World, chain: Chain, p: OpeningParams, hex: Bytes)
    ensures ValidateTx(w, chain, p, hex) <==>
            w.parse(hex).Some? && exists i: nat :: IsAgreed(w, chain, p, w.parse(hex).value, i)
  {
    if w.parse(hex).Some? {
      var outs, key := w.parse(hex).value, SearchKey(w, chain, p);
      var found := First(outs, key);
      if ValidateTx(w, chain, p, hex) {
        assert key(outs[found.value]);
        assert forall k :: 0 <= k < found.value ==> !key(outs[k]);
        assert IsAgreed(w, chain, p, outs, found.value);
      }
      if i: nat :| IsAgreed(w, chain, p, outs, i) {
        assert key(outs[i]) && forall k :: 0 <= k < i ==> !key(outs[k]);
        FirstIsUnique(outs, key, key, found, Some(i));
      }
    }
  }

  lemma ValidatedIsSpendable(w: World, chain: Chain, p: OpeningParams, hex: Bytes)
    requires ValidateTx(w, chain, p, hex)
    ensures Spendable(w, chain, p, hex)
  {
  }

  /** The search loop of `ValidateTx` and `GetVoutAndVerify`. */
  method FindVoutByAmount(outs: seq<Output>, amount: u64) returns (vout: Option<nat>)
    ensures IsFirst(outs, (o: Output) => o.value == amount, vout)
  {
    for i := 0 to |outs|
      invariant forall k :: 0 <= k < i ==> outs[k].value != amount
    {
      if outs[i].value == amount {
        return Some(i);
      }
    }
    return None;
  }

  /** `LiquidOnChain.FindVout`. */
  method FindVoutByScript(outs: seq<Output>, want: Bytes) returns (vout: Option<nat>)
    ensures IsFirst(outs, (o: Output) => o.script == want, vout)
  {
    for i := 0 to |outs|
      invariant forall k :: 0 <= k < i ==> outs[k].script != want
    {
      if outs[i].script == want {
        return Some(i);
      }
    }
    return None;
  }

  /** `GetVoutAndVerify` of the Bitcoin wallets, whose callers drop `ok` and use `vout`:
      on a transaction that validated, that is the validated output. */
  method GetVoutAndVerify(w: World, p: OpeningParams, hex: Bytes) returns (parsed: bool, ok: bool, vout: nat)
    ensures parsed <==> w.parse(hex).Some?
    ensures ok <==> ValidateTx(w, Btc, p, hex)
    ensures ok ==> Some(vout) == OpeningOutput(w, Btc, p, hex)
    ensures !ok ==> vout == 0
  {
    match w.parse(hex) {
      case None => return false, false, 0;
      case Some(outs) =>
        var found := FindVoutByAmount(outs, p.amount);
        FirstIsUnique(outs, SearchKey(w, Btc, p), (o: Output) => o.value == p.amount,
                      First(outs, SearchKey(w, Btc, p)), found);
        match found {
          case None => return true, false, 0;
          case Some(i) =>
            if outs[i].script != WantScript(w, Btc, p) {
              return true, false, 0;
            }
            return true, true, i;
        }
    }
  }

  lemma FirstIsUnique(outs: seq<Output>, f: Output -> bool, g: Output -> bool, i: Option<nat>, j: Option<nat>)
    requires forall k :: 0 <= k < |outs| ==> f(outs[k]) == g(outs[k])
    requires IsFirst(outs, f, i) && IsFirst(outs, g, j)
    ensures i == j
  {
  }

  /** A transaction that validates has, at the index every claim will select, an output
      locked by exactly the swap's script; on Liquid it also unblinds to the swap amount,
      on Bitcoin it carries it openly. */
  lemma ValidatedOutput(w: World, chain: Chain, p: OpeningParams, hex: Bytes)
    requires ValidateTx(w, chain, p, hex)
    ensures var i := OpeningOutput(w, chain, p, hex).value;
            var out := w.parse(hex).value[i];
            && out.script == WantScript(w, chain, p)
            && (if chain.Btc? then out.value == p.amount else w.unblind(out, p.blindingKey) == Some(p.amount))
  {
  }
}
