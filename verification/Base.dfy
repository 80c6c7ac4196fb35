/** Vocabulary shared by every component: options, byte strings, the fixed-width
    integers of the original, and counting over logs. */
module Base {

  datatype Option<+T> = None | Some(value: T)

  type byte = n: int | 0 <= n < 256

  /** A byte string. Hex text of the original is identified with the bytes it
      denotes, and the empty hex string with the empty byte string. */
  type Bytes = seq<byte>

  /** A SHA-256 digest or a preimage. */
  type Bytes32 = b: Bytes | |b| == 32 witness seq(32, _ => 0)

  const TWO_32: int := 0x1_0000_0000
  const TWO_63: int := 0x8000_0000_0000_0000
  const TWO_64: int := 0x1_0000_0000_0000_0000

  type u32 = n: int | 0 <= n < 0x1_0000_0000
  type u64 = n: int | 0 <= n < 0x1_0000_0000_0000_0000
  type i64 = n: int | -0x8000_0000_0000_0000 <= n < 0x8000_0000_0000_0000

  /** How many entries of a log satisfy a predicate. */
  function Count<T>(log: seq<T>, p: T -> bool): nat
  {
    if log == [] then 0
    else Count(log[..|log| - 1], p) + (if p(log[|log| - 1]) then 1 else 0)
  }

  lemma {:induction false} CountAppend<T>(a: seq<T>, b: seq<T>, p: T -> bool)
    ensures Count(a + b, p) == Count(a, p) + Count(b, p)
  {
    if b == [] {
      assert a + b == a;
    } else {
      var b' := b[..|b| - 1];
      assert (a + b)[..|a + b| - 1] == a + b';
      CountAppend(a, b', p);
    }
  }

  /** A positive count has an entry behind it, and every entry is counted. */
  lemma {:induction false} CountPositive<T>(log: seq<T>, p: T -> bool)
    ensures Count(log, p) > 0 <==> exists i :: 0 <= i < |log| && p(log[i])
  {
    if log != [] {
      var init := log[..|log| - 1];
      CountPositive(init, p);
      if exists i :: 0 <= i < |log| && p(log[i]) {
        var i :| 0 <= i < |log| && p(log[i]);
        assert i == |log| - 1 || p(init[i]);
      }
    }
  }

  lemma CountNone<T>(log: seq<T>, p: T -> bool)
    requires forall i :: 0 <= i < |log| ==> !p(log[i])
    ensures Count(log, p) == 0
  {
    CountPositive(log, p);
  }

  lemma CountMonotone<T>(a: seq<T>, b: seq<T>, p: T -> bool)
    requires a <= b
    ensures Count(a, p) <= Count(b, p)
  {
    assert b == a + b[|a|..];
    CountAppend(a, b[|a|..], p);
  }

  /** Two entries are counted twice. */
  lemma TwoCounted<T>(log: seq<T>, p: T -> bool, i: nat, j: nat)
    requires i < j < |log| && p(log[i]) && p(log[j])
    ensures Count(log, p) >= 2
  {
    var a, b := log[..j], log[j..];
    assert log == a + b;
    CountAppend(a, b, p);
    assert p(a[i]) && p(b[0]);
    CountPositive(a, p);
    CountPositive(b, p);
  }
}
