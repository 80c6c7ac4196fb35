/** The opening script of a swap and the fragment of Bitcoin Script it uses
    (onchain/utils.go). A script runs on the witness stack as section "Witness
    program" of BIP 141 prescribes: it must finish with exactly one true element. */
module Script {
  import opened Base

  datatype Op =
    | Push(data: Bytes)
    | CheckSig
    | NotIf
    | Else
    | EndIf
    | Size
    | EqualVerify
    | Sha256
    | CheckSequenceVerify

  /** What a signature check can do: push true, push false, or abort the script
      because the item is not even encoded as a signature. */
  datatype SigResult = Good | Bad | Malformed

  /** The spending input as the script sees it. */
  datatype Spend = Spend(
    check: (Bytes, Bytes) -> SigResult,
    sha256: Bytes -> Bytes,
    txVersion: nat,
    sequence: u32)

  /** The top of the stack is its last element. `exec` is the stack of open branches. */
  datatype Vm = Vm(stack: seq<Bytes>, exec: seq<bool>)

  predicate Executing(vm: Vm) {
    forall i :: 0 <= i < |vm.exec| ==> vm.exec[i]
  }

  // ---------------------------------------------------------------- numbers

  /** Script numbers: little endian, with a sign bit in the last byte. */
  function EncodeNum(n: nat): Bytes {
    if n == 0 then []
    else if n < 128 then [n]
    else if n < 256 then [n, 0]
    else [n % 256] + EncodeNum(n / 256)
  }

  function Magnitude(b: Bytes): nat {
    if b == [] then 0 else b[0] + 256 * Magnitude(b[1..])
  }

  function DecodeNum(b: Bytes): int {
    if b == [] then 0
    else if b[|b| - 1] >= 128
    then -(Magnitude(b[..|b| - 1] + [b[|b| - 1] - 128]) as int)
    else Magnitude(b)
  }

  predicate IsTrue(b: Bytes) {
    exists i :: 0 <= i < |b| && b[i] != 0 && !(i == |b| - 1 && b[i] == 128)
  }

  lemma {:induction false} EncodeNumRoundTrip(n: nat)
    ensures DecodeNum(EncodeNum(n)) == n
    ensures Magnitude(EncodeNum(n)) == n
    ensures n > 0 ==> EncodeNum(n) != [] && EncodeNum(n)[|EncodeNum(n)| - 1] < 128
    ensures n > 0 <==> IsTrue(EncodeNum(n))
  {
    var e := EncodeNum(n);
    if n == 0 {
    } else if n < 128 {
      assert e[1..] == [];
      assert Magnitude(e) == n;
      assert e[0] != 0;
    } else if n < 256 {
      assert e[1..] == [0] && e[1..][1..] == [];
      assert Magnitude([0]) == 0 && Magnitude(e) == n;
      assert e[0] != 0;
    } else {
      var tail := EncodeNum(n / 256);
      EncodeNumRoundTrip(n / 256);
      assert e[1..] == tail;
      assert e[|e| - 1] == tail[|tail| - 1];
      var i :| 0 <= i < |tail| && tail[i] != 0 && !(i == |tail| - 1 && tail[i] == 128);
      assert e[i + 1] == tail[i];
    }
  }

  lemma {:induction false} EncodeNumLength(n: nat, k: nat)
    requires n < Pow256(k)
    ensures |EncodeNum(n)| <= k + 1
  {
    if n >= 256 {
      assert n / 256 < Pow256(k - 1) by { assert Pow256(k) == 256 * Pow256(k - 1); }
      EncodeNumLength(n / 256, k - 1);
    }
  }

  function Pow256(k: nat): nat {
    if k == 0 then 1 else 256 * Pow256(k - 1)
  }

  // ------------------------------------------------------------ interpreter

  /** The comparison of section "Specification" of BIP 112. */
  predicate SequenceMature(tx: Spend, n: nat) {
    if (n / 0x8000_0000) % 2 == 1 then true
    else
      && tx.txVersion >= 2
      && (tx.sequence / 0x8000_0000) % 2 == 0
      && (n / 0x40_0000) % 2 == (tx.sequence / 0x40_0000) % 2
      && n % 0x1_0000 <= tx.sequence % 0x1_0000
  }

  function Bool(b: bool): Bytes { if b then [1] else [] }

  function Step(tx: Spend, op: Op, vm: Vm): Option<Vm> {
    var s, n := vm.stack, |vm.stack|;
    match op
    case NotIf =>
      if !Executing(vm) then Some(vm.(exec := vm.exec + [false]))
      else if n < 1 then None
      else Some(Vm(s[..n - 1], vm.exec + [!IsTrue(s[n - 1])]))
    case Else =>
      if vm.exec == [] then None
      else Some(vm.(exec := vm.exec[..|vm.exec| - 1] + [!vm.exec[|vm.exec| - 1]]))
    case EndIf =>
      if vm.exec == [] then None
      else Some(vm.(exec := vm.exec[..|vm.exec| - 1]))
    case _ => if Executing(vm) then Do(tx, op, vm) else Some(vm)
  }

  function Do(tx: Spend, op: Op, vm: Vm): Option<Vm> {
    var s, n := vm.stack, |vm.stack|;
    match op
    case Push(data) => Some(vm.(stack := s + [data]))
    case CheckSig =>
      if n < 2 then None
      else (match tx.check(s[n - 1], s[n - 2])
            case Good => Some(vm.(stack := s[..n - 2] + [Bool(true)]))
            case Bad => Some(vm.(stack := s[..n - 2] + [Bool(false)]))
            case Malformed => None)
    case Size =>
      if n < 1 then None else Some(vm.(stack := s + [EncodeNum(|s[n - 1]|)]))
    case EqualVerify =>
      if n < 2 || s[n - 1] != s[n - 2] then None else Some(vm.(stack := s[..n - 2]))
    case Sha256 =>
      if n < 1 then None else Some(vm.(stack := s[..n - 1] + [tx.sha256(s[n - 1])]))
    case CheckSequenceVerify =>
      if n < 1 || |s[n - 1]| > 5 || DecodeNum(s[n - 1]) < 0 then None
      else if SequenceMature(tx, DecodeNum(s[n - 1])) then Some(vm) else None
    case _ => Some(vm)
  }

  function Run(tx: Spend, ops: seq<Op>, vm: Vm): Option<Vm> {
    if ops == [] then Some(vm)
    else
      match Step(tx, ops[0], vm)
      case None => None
      case Some(next) => Run(tx, ops[1..], next)
  }

  predicate Accepts(tx: Spend, ops: seq<Op>, items: seq<Bytes>) {
    var end := Run(tx, ops, Vm(items, []));
    end.Some? && end.value.exec == [] && |end.value.stack| == 1 && IsTrue(end.value.stack[0])
  }

  // -------------------------------------------------------- opening script

  function OpeningScript(taker: Bytes, maker: Bytes, hash: Bytes, csv: u32): seq<Op> {
    [Push(maker), CheckSig, NotIf]
    + ([Push(maker), CheckSig, NotIf]
       + ([Size, Push([0x20]), EqualVerify, Sha256, Push(hash), EqualVerify]
          + ([EndIf, Push(taker), CheckSig]
             + [Else, Push(EncodeNum(csv)), CheckSequenceVerify, EndIf])))
  }

  const SIGHASH_ALL: byte := 1

  function PreimageWitness(signature: Bytes, preimage: Bytes): seq<Bytes> {
    [signature + [SIGHASH_ALL], preimage, [], []]
  }

  function CsvWitness(signature: Bytes): seq<Bytes> {
    [signature + [SIGHASH_ALL]]
  }

  function CooperativeWitness(takerSig: Bytes, makerSig: Bytes): seq<Bytes> {
    [takerSig + [SIGHASH_ALL], makerSig + [SIGHASH_ALL], []]
  }

  // ---------------------------------------------------------- the theorem

  predicate ByTimeout(tx: Spend, maker: Bytes, csv: u32, w: seq<Bytes>) {
    |w| == 1 && tx.check(maker, w[0]).Good? && csv != 0 && SequenceMature(tx, csv)
  }

  predicate ByBothKeys(tx: Spend, taker: Bytes, maker: Bytes, w: seq<Bytes>) {
    && |w| == 3 && tx.check(maker, w[2]).Bad? && tx.check(maker, w[1]).Good?
    && tx.check(taker, w[0]).Good?
  }

  predicate ByPreimage(tx: Spend, taker: Bytes, maker: Bytes, hash: Bytes, w: seq<Bytes>) {
    && |w| == 4 && tx.check(maker, w[3]).Bad? && tx.check(maker, w[2]).Bad?
    && |w[1]| == 32 && tx.sha256(w[1]) == hash && tx.check(taker, w[0]).Good?
  }

  lemma {:induction false} RunSplit(tx: Spend, p: seq<Op>, q: seq<Op>, vm: Vm)
    ensures Run(tx, p + q, vm) ==
            (match Run(tx, p, vm) case None => None case Some(mid) => Run(tx, q, mid))
  {
    if p == [] {
      assert p + q == q;
    } else {
      assert (p + q)[0] == p[0] && (p + q)[1..] == p[1..] + q;
      match Step(tx, p[0], vm)
      case None =>
      case Some(next) => RunSplit(tx, p[1..], q, next);
    }
  }

  lemma Run3(tx: Spend, a: Op, b: Op, c: Op, vm: Vm)
    ensures Run(tx, [a, b, c], vm) ==
            (match Step(tx, a, vm) case None => None
             case Some(v) => match Step(tx, b, v) case None => None
             case Some(u) => Step(tx, c, u))
  {
    assert [a, b, c][1..] == [b, c] && [b, c][1..] == [c] && [c][1..] == [];
    match Step(tx, a, vm)
    case None =>
    case Some(v) =>
      assert Run(tx, [b, c], v) == (match Step(tx, b, v) case None => None case Some(u) => Run(tx, [c], u));
      match Step(tx, b, v)
      case None =>
      case Some(u) =>
        assert Run(tx, [c], u) == (match Step(tx, c, u) case None => None case Some(x) => Run(tx, [], x));
  }

  /** `<key> CHECKSIG NOTIF` takes one item off the stack and opens a branch that
      runs exactly when the item is not a signature by the key. */
  lemma SignatureGate(tx: Spend, key: Bytes, vm: Vm)
    requires Executing(vm)
    ensures var s, n := vm.stack, |vm.stack|;
            Run(tx, [Push(key), CheckSig, NotIf], vm) ==
            (if n < 1 || tx.check(key, s[n - 1]).Malformed? then None
             else Some(Vm(s[..n - 1], vm.exec + [tx.check(key, s[n - 1]).Bad?])))
  {
    Run3(tx, Push(key), CheckSig, NotIf, vm);
    var s, n := vm.stack, |vm.stack|;
    var pushed := vm.(stack := s + [key]);
    assert Step(tx, Push(key), vm) == Some(pushed);
    if n >= 1 {
      assert pushed.stack[..n - 1] == s[..n - 1];
      assert IsTrue([1]) by { assert [1][0] != 0; }
      assert forall b: Bytes :: (s[..n - 1] + [b])[..n - 1] == s[..n - 1];
    }
  }

  /** Inside a branch that is not taken the gate only opens another such branch. */
  lemma SkippedGate(tx: Spend, key: Bytes, vm: Vm)
    requires !Executing(vm)
    ensures Run(tx, [Push(key), CheckSig, NotIf], vm) == Some(vm.(exec := vm.exec + [false]))
  {
    Run3(tx, Push(key), CheckSig, NotIf, vm);
  }

  function HashCheck(hash: Bytes): seq<Op> {
    [Size, Push([0x20]), EqualVerify, Sha256, Push(hash), EqualVerify]
  }

  lemma SkippedHashCheck(tx: Spend, hash: Bytes, vm: Vm)
    requires !Executing(vm)
    ensures Run(tx, HashCheck(hash), vm) == Some(vm)
  {
    var a, b := [Size, Push([0x20]), EqualVerify], [Sha256, Push(hash), EqualVerify];
    assert HashCheck(hash) == a + b;
    RunSplit(tx, a, b, vm);
    Run3(tx, Size, Push([0x20]), EqualVerify, vm);
    Run3(tx, Sha256, Push(hash), EqualVerify, vm);
  }

  lemma EncodedSize(n: nat)
    ensures EncodeNum(n) == [0x20] <==> n == 32
  {
    EncodeNumRoundTrip(n);
    EncodeNumRoundTrip(32);
  }

  /** `SIZE 32 EQUALVERIFY` keeps its item, if it has 32 bytes. */
  lemma TakenSizeCheck(tx: Spend, vm: Vm)
    requires Executing(vm)
    ensures var s, n := vm.stack, |vm.stack|;
            Run(tx, [Size, Push([0x20]), EqualVerify], vm) == (if n < 1 || |s[n - 1]| != 32 then None else Some(vm))
  {
    Run3(tx, Size, Push([0x20]), EqualVerify, vm);
    var s, n := vm.stack, |vm.stack|;
    if n >= 1 {
      EncodedSize(|s[n - 1]|);
      assert (s + [EncodeNum(|s[n - 1]|)] + [[0x20]])[..n] == s;
    }
    hide Run, EncodeNum;
  }

  /** `SHA256 <hash> EQUALVERIFY` consumes its item, if it is a preimage. */
  lemma TakenDigestCheck(tx: Spend, hash: Bytes, vm: Vm)
    requires Executing(vm)
    ensures var s, n := vm.stack, |vm.stack|;
            Run(tx, [Sha256, Push(hash), EqualVerify], vm)
            == (if n < 1 || tx.sha256(s[n - 1]) != hash then None else Some(vm.(stack := s[..n - 1])))
  {
    Run3(tx, Sha256, Push(hash), EqualVerify, vm);
    var s, n := vm.stack, |vm.stack|;
    if n >= 1 {
      assert (s[..n - 1] + [tx.sha256(s[n - 1])] + [hash])[..n - 1] == s[..n - 1];
    }
    hide Run;
  }

  /** The hash check consumes its item, and survives exactly on a 32-byte preimage. */
  lemma TakenHashCheck(tx: Spend, hash: Bytes, vm: Vm)
    requires Executing(vm)
    ensures var s, n := vm.stack, |vm.stack|;
            Run(tx, HashCheck(hash), vm) ==
            (if n < 1 || |s[n - 1]| != 32 || tx.sha256(s[n - 1]) != hash then None
             else Some(vm.(stack := s[..n - 1])))
  {
    var a, b := [Size, Push([0x20]), EqualVerify], [Sha256, Push(hash), EqualVerify];
    assert HashCheck(hash) == a + b;
    RunSplit(tx, a, b, vm);
    TakenSizeCheck(tx, vm);
    TakenDigestCheck(tx, hash, vm);
    hide Run;
  }

  /** `ENDIF <taker> CHECKSIG` closes the inner branch and, when the outer one is
      taken, replaces one item by the verdict on the taker's signature. */
  lemma TakerCheck(tx: Spend, taker: Bytes, stack: seq<Bytes>, outer: bool, inner: bool)
    ensures var n := |stack|;
            Run(tx, [EndIf, Push(taker), CheckSig], Vm(stack, [outer, inner])) ==
            (if !outer then Some(Vm(stack, [false]))
             else if n < 1 || tx.check(taker, stack[n - 1]).Malformed? then None
             else Some(Vm(stack[..n - 1] + [Bool(tx.check(taker, stack[n - 1]).Good?)], [true])))
  {
    var vm := Vm(stack, [outer, inner]);
    Run3(tx, EndIf, Push(taker), CheckSig, vm);
    assert vm.exec[..1] == [outer];
    var closed := Vm(stack, [outer]);
    assert Step(tx, EndIf, vm) == Some(closed);
    assert Executing(closed) <==> outer by { assert closed.exec[0] == outer; }
    if outer {
      assert Step(tx, Push(taker), closed) == Some(closed.(stack := stack + [taker]));
    }
    if |stack| >= 1 {
      assert (stack + [taker])[..|stack| - 1] == stack[..|stack| - 1];
    }
  }

  /** The else branch runs when the outer branch did not, and leaves the script
      number of the lock on the stack if the input's sequence satisfies it. */
  lemma TimeoutTail(tx: Spend, csv: u32, stack: seq<Bytes>, outer: bool)
    ensures Run(tx, [Else, Push(EncodeNum(csv)), CheckSequenceVerify, EndIf], Vm(stack, [outer])) ==
            (if outer then Some(Vm(stack, []))
             else if SequenceMature(tx, csv) then Some(Vm(stack + [EncodeNum(csv)], []))
             else None)
  {
    var vm := Vm(stack, [outer]);
    var a, b := [Else, Push(EncodeNum(csv)), CheckSequenceVerify], [EndIf];
    assert [Else, Push(EncodeNum(csv)), CheckSequenceVerify, EndIf] == a + b;
    RunSplit(tx, a, b, vm);
    Run3(tx, Else, Push(EncodeNum(csv)), CheckSequenceVerify, vm);
    assert vm.exec[..0] + [!outer] == [!outer];
    var turned := Vm(stack, [!outer]);
    assert Step(tx, Else, vm) == Some(turned);
    assert Executing(turned) <==> !outer by { assert turned.exec[0] == !outer; }
    if !outer {
      var pushed := turned.(stack := stack + [EncodeNum(csv)]);
      assert Step(tx, Push(EncodeNum(csv)), turned) == Some(pushed);
      assert Executing(pushed);
    }
    EncodeNumRoundTrip(csv);
    assert Pow256(4) == 0x1_0000_0000 by {
      assert Pow256(1) == 256 && Pow256(2) == 0x1_0000 && Pow256(3) == 0x100_0000;
    }
    EncodeNumLength(csv, 4);
    assert b[1..] == [];
    forall v: Vm ensures Run(tx, b, v) == Step(tx, EndIf, v) {
      match Step(tx, EndIf, v)
      case None =>
      case Some(u) => assert Run(tx, [], u) == Some(u);
    }
    assert [!outer][..0] == [];
  }

  /** Running the rest of the script after the first gate took the maker's side. */
  lemma AfterMaker(tx: Spend, taker: Bytes, maker: Bytes, hash: Bytes, csv: u32, stack: seq<Bytes>)
    ensures var rest := OpeningScript(taker, maker, hash, csv)[3..];
            Run(tx, rest, Vm(stack, [false])) ==
            (if SequenceMature(tx, csv) then Some(Vm(stack + [EncodeNum(csv)], [])) else None)
  {
    var tail := [Else, Push(EncodeNum(csv)), CheckSequenceVerify, EndIf];
    var close := [EndIf, Push(taker), CheckSig];
    var gate := [Push(maker), CheckSig, NotIf];
    var rest := OpeningScript(taker, maker, hash, csv)[3..];
    assert rest == gate + (HashCheck(hash) + (close + tail));
    var vm := Vm(stack, [false]);
    var deeper := Vm(stack, [false, false]);
    assert !Executing(vm) by { assert !vm.exec[0]; }
    assert !Executing(deeper) by { assert !deeper.exec[0]; }
    RunSplit(tx, gate, HashCheck(hash) + (close + tail), vm);
    SkippedGate(tx, maker, vm);
    assert vm.exec + [false] == [false, false];
    RunSplit(tx, HashCheck(hash), close + tail, deeper);
    SkippedHashCheck(tx, hash, deeper);
    RunSplit(tx, close, tail, deeper);
    TakerCheck(tx, taker, stack, false, false);
    TimeoutTail(tx, csv, stack, false);
  }

  /** Running the rest of the script after the first gate found no maker signature. */
  lemma AfterNonMaker(tx: Spend, taker: Bytes, maker: Bytes, hash: Bytes, csv: u32, stack: seq<Bytes>)
    ensures var rest := OpeningScript(taker, maker, hash, csv)[3..];
            var n := |stack|;
            Run(tx, rest, Vm(stack, [true])) ==
            (if n < 1 || tx.check(maker, stack[n - 1]).Malformed? then None
             else if tx.check(maker, stack[n - 1]).Good? then
               if n < 2 || tx.check(taker, stack[n - 2]).Malformed? then None
               else Some(Vm(stack[..n - 2] + [Bool(tx.check(taker, stack[n - 2]).Good?)], []))
             else if n < 2 || |stack[n - 2]| != 32 || tx.sha256(stack[n - 2]) != hash then None
             else if n < 3 || tx.check(taker, stack[n - 3]).Malformed? then None
             else Some(Vm(stack[..n - 3] + [Bool(tx.check(taker, stack[n - 3]).Good?)], [])))
  {
    var tail := [Else, Push(EncodeNum(csv)), CheckSequenceVerify, EndIf];
    var close := [EndIf, Push(taker), CheckSig];
    var gate := [Push(maker), CheckSig, NotIf];
    var rest := OpeningScript(taker, maker, hash, csv)[3..];
    assert rest == gate + (HashCheck(hash) + (close + tail));
    hide OpeningScript, HashCheck, Run;
    var n := |stack|;
    var vm := Vm(stack, [true]);
    RunSplit(tx, gate, HashCheck(hash) + (close + tail), vm);
    SignatureGate(tx, maker, vm);
    if n >= 1 && !tx.check(maker, stack[n - 1]).Malformed? {
      var s1 := stack[..n - 1];
      var bad := tx.check(maker, stack[n - 1]).Bad?;
      assert vm.exec + [bad] == [true, bad];
      var vm1 := Vm(s1, [true, bad]);
      RunSplit(tx, HashCheck(hash), close + tail, vm1);
      if bad {
        TakenHashCheck(tx, hash, vm1);
        if n >= 2 {
          assert s1[..n - 2] == stack[..n - 2];
          AfterBranch(tx, taker, csv, stack[..n - 2], true);
          if n >= 3 { assert stack[..n - 2][..n - 3] == stack[..n - 3]; }
        }
      } else {
        assert !Executing(vm1) by { assert !vm1.exec[1]; }
        SkippedHashCheck(tx, hash, vm1);
        AfterBranch(tx, taker, csv, s1, false);
        if n >= 2 { assert s1[..n - 2] == stack[..n - 2]; }
      }
    }
  }

  lemma AfterBranch(tx: Spend, taker: Bytes, csv: u32, stack: seq<Bytes>, inner: bool)
    ensures var n := |stack|;
            Run(tx, [EndIf, Push(taker), CheckSig]
                    + [Else, Push(EncodeNum(csv)), CheckSequenceVerify, EndIf], Vm(stack, [true, inner])) ==
            (if n < 1 || tx.check(taker, stack[n - 1]).Malformed? then None
             else Some(Vm(stack[..n - 1] + [Bool(tx.check(taker, stack[n - 1]).Good?)], [])))
  {
    RunSplit(tx, [EndIf, Push(taker), CheckSig],
             [Else, Push(EncodeNum(csv)), CheckSequenceVerify, EndIf], Vm(stack, [true, inner]));
    TakerCheck(tx, taker, stack, true, inner);
    if |stack| >= 1 {
      TimeoutTail(tx, csv, stack[..|stack| - 1] + [Bool(tx.check(taker, stack[|stack| - 1]).Good?)], true);
    }
  }

  /** Exactly three spends open a swap output: the maker after the relative lock,
      both keys together, or the taker with the preimage. */
  lemma OpeningScriptAccepts(tx: Spend, taker: Bytes, maker: Bytes, hash: Bytes, csv: u32, w: seq<Bytes>)
    ensures Accepts(tx, OpeningScript(taker, maker, hash, csv), w) <==>
            || ByTimeout(tx, maker, csv, w)
            || ByBothKeys(tx, taker, maker, w)
            || ByPreimage(tx, taker, maker, hash, w)
  {
    var script := OpeningScript(taker, maker, hash, csv);
    var gate := [Push(maker), CheckSig, NotIf];
    assert script == gate + script[3..];
    RunSplit(tx, gate, script[3..], Vm(w, []));
    SignatureGate(tx, maker, Vm(w, []));
    EncodeNumRoundTrip(csv);
    assert IsTrue(Bool(true)) && !IsTrue(Bool(false)) by { assert Bool(true)[0] != 0; }
    var n := |w|;
    if n >= 1 {
      var s := w[..n - 1];
      assert [] + [true] == [true] && [] + [false] == [false];
      AfterMaker(tx, taker, maker, hash, csv, s);
      AfterNonMaker(tx, taker, maker, hash, csv, s);
    }
  }

  /** Who can move the money: without the maker's key a spend carries the preimage
      and the taker's signature; without the taker's key it is the maker's alone and
      the input waited for the relative lock. */
  lemma NoThirdWay(tx: Spend, taker: Bytes, maker: Bytes, hash: Bytes, csv: u32, w: seq<Bytes>)
    requires Accepts(tx, OpeningScript(taker, maker, hash, csv), w)
    ensures (forall i :: 0 <= i < |w| ==> !tx.check(maker, w[i]).Good?) ==>
            |w| == 4 && |w[1]| == 32 && tx.sha256(w[1]) == hash && tx.check(taker, w[0]).Good?
    ensures (forall i :: 0 <= i < |w| ==> !tx.check(taker, w[i]).Good?) ==>
            |w| == 1 && tx.check(maker, w[0]).Good? && SequenceMature(tx, csv)
  {
    OpeningScriptAccepts(tx, taker, maker, hash, csv, w);
  }

  /** Section "Specification" of BIP 68: an output confirmed at `confirmed` may be spent
      in the block at `height` by an input with this sequence. */
  predicate RelativeLockPassed(confirmed: nat, height: nat, sequence: u32) {
    (sequence / 0x8000_0000) % 2 == 0 && (sequence / 0x40_0000) % 2 == 0
    ==> height >= confirmed + sequence % 0x1_0000
  }

  /** For the locks in use a spend without the taker's key cannot be mined before
      `csv` blocks have been built on the opening transaction. */
  lemma MakerAloneWaits(tx: Spend, taker: Bytes, maker: Bytes, hash: Bytes, csv: u32, w: seq<Bytes>,
                        confirmed: nat, height: nat)
    requires 0 < csv < 0x1_0000
    requires Accepts(tx, OpeningScript(taker, maker, hash, csv), w)
    requires forall i :: 0 <= i < |w| ==> !tx.check(taker, w[i]).Good?
    requires RelativeLockPassed(confirmed, height, tx.sequence)
    ensures height >= confirmed + csv
  {
    NoThirdWay(tx, taker, maker, hash, csv, w);
    assert csv / 0x8000_0000 == 0 && csv / 0x40_0000 == 0 && csv % 0x1_0000 == csv;
  }

  /** What the three witness builders need to be accepted, each exactly. An empty
      item is never a signature. */
  lemma BuiltWitnesses(tx: Spend, taker: Bytes, maker: Bytes, hash: Bytes, csv: u32,
                       takerSig: Bytes, makerSig: Bytes, preimage: Bytes)
    requires tx.check(maker, []).Bad?
    ensures Accepts(tx, OpeningScript(taker, maker, hash, csv), PreimageWitness(takerSig, preimage)) <==>
            |preimage| == 32 && tx.sha256(preimage) == hash && tx.check(taker, takerSig + [SIGHASH_ALL]).Good?
    ensures Accepts(tx, OpeningScript(taker, maker, hash, csv), CsvWitness(makerSig)) <==>
            csv != 0 && SequenceMature(tx, csv) && tx.check(maker, makerSig + [SIGHASH_ALL]).Good?
    ensures Accepts(tx, OpeningScript(taker, maker, hash, csv), CooperativeWitness(takerSig, makerSig)) <==>
            && tx.check(taker, takerSig + [SIGHASH_ALL]).Good? && tx.check(maker, makerSig + [SIGHASH_ALL]).Good?
  {
    OpeningScriptAccepts(tx, taker, maker, hash, csv, PreimageWitness(takerSig, preimage));
    OpeningScriptAccepts(tx, taker, maker, hash, csv, CsvWitness(makerSig));
    OpeningScriptAccepts(tx, taker, maker, hash, csv, CooperativeWitness(takerSig, makerSig));
  }

  /** A spending input whose sequence is set to the lock satisfies it. */
  lemma SequenceSetToLock(tx: Spend, csv: u32)
    requires csv < 0x1_0000 && tx.txVersion == 2 && tx.sequence == csv
    ensures SequenceMature(tx, csv)
  {
    assert csv / 0x8000_0000 == 0;
  }
}
