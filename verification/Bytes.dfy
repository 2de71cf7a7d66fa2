/** Results, and byte strings read as little-endian integers. */
module Wrappers {

  datatype Option<+T> = None | Some(value: T)

  /** The three refusals the engine can give (nymora-core's error discipline). */
  datatype ProtocolError = Malformed | Rejected | Unavailable

  datatype Result<+T> = Ok(value: T) | Err(error: ProtocolError)
  {
    predicate IsFailure() {
      Err?
    }

    function PropagateFailure<U>(): Result<U>
      requires Err?
    {
      Err(error)
    }

    function Extract(): T
      requires Ok?
    {
      value
    }
  }
}

module Bytes {

  type byte = b: int | 0 <= b < 256

  /** A digest-width value: commitment, root, nullifier, key. */
  type Bytes32 = b: seq<byte> | |b| == 32 witness seq(32, _ => 0)

  const ZERO32: Bytes32 := [0, 0, 0, 0, 0, 0, 0, 0, 0, 0, 0, 0, 0, 0, 0, 0, 0, 0, 0, 0, 0, 0, 0, 0, 0, 0, 0, 0, 0, 0, 0, 0]

  // A u64 bound.
  const U64: nat := 0x1_0000_0000_0000_0000

  function Pow256(k: nat): (p: nat)
    ensures p > 0
  {
    if k == 0 then 1 else 256 * Pow256(k - 1)
  }

  /** The integer a byte string names, least significant byte first. */
  function LE(b: seq<byte>): nat {
    if |b| == 0 then 0 else b[0] + 256 * LE(b[1..])
  }

  function ToLE(n: nat, width: nat): (b: seq<byte>)
    ensures |b| == width
    decreases width, n
  {
    if width == 0 then [] else [n % 256] + ToLE(n / 256, width - 1)
  }

  function U64Bytes(n: nat): (b: seq<byte>)
    ensures |b| == 8
  {
    ToLE(n, 8)
  }

  lemma {:induction false} LEBound(b: seq<byte>)
    ensures LE(b) < Pow256(|b|)
  {
    if |b| > 0 {
      LEBound(b[1..]);
    }
  }

  lemma {:induction false} LEToLE(n: nat, width: nat)
    requires n < Pow256(width)
    ensures LE(ToLE(n, width)) == n
  {
    if width > 0 {
      LEToLE(n / 256, width - 1);
      assert ToLE(n, width)[1..] == ToLE(n / 256, width - 1);
    }
  }

  lemma {:induction false} ToLELE(b: seq<byte>)
    ensures ToLE(LE(b), |b|) == b
  {
    if |b| > 0 {
      ToLELE(b[1..]);
      assert b == [b[0]] + b[1..];
    }
  }

  lemma LEInjective(a: seq<byte>, b: seq<byte>)
    requires |a| == |b| && LE(a) == LE(b)
    ensures a == b
  {
    ToLELE(a);
    ToLELE(b);
  }

  lemma {:induction false} LEConcat(a: seq<byte>, b: seq<byte>)
    ensures LE(a + b) == LE(a) + Pow256(|a|) * LE(b)
  {
    if |a| == 0 {
      assert a + b == b;
    } else {
      LEConcat(a[1..], b);
      assert (a + b)[1..] == a[1..] + b;
      assert 256 * (Pow256(|a| - 1) * LE(b)) == Pow256(|a|) * LE(b);
    }
  }

  lemma LEZero()
    ensures LE(ZERO32) == 0
  {
    LEToLE(0, 32);
    ToLEZero(32);
    assert ZERO32 == seq(32, _ => 0);
  }

  lemma {:induction false} ToLEZero(width: nat)
    ensures ToLE(0, width) == seq(width, _ => 0)
  {
    if width > 0 {
      ToLEZero(width - 1);
    }
  }

  lemma Pow256Of32()
    ensures Pow256(8) == U64
    ensures Pow256(31) == 0x100_0000_0000_0000_0000_0000_0000_0000_0000_0000_0000_0000_0000_0000_0000_0000
    ensures Pow256(32) == 0x1_0000_0000_0000_0000_0000_0000_0000_0000_0000_0000_0000_0000_0000_0000_0000_0000
  {
    assert Pow256(4) == 0x1_0000_0000;
    assert Pow256(8) == 0x1_0000_0000_0000_0000;
    assert Pow256(12) == 0x1_0000_0000_0000_0000_0000_0000;
    assert Pow256(16) == 0x1_0000_0000_0000_0000_0000_0000_0000_0000;
    assert Pow256(20) == 0x1_0000_0000_0000_0000_0000_0000_0000_0000_0000_0000;
    assert Pow256(24) == 0x1_0000_0000_0000_0000_0000_0000_0000_0000_0000_0000_0000_0000;
    assert Pow256(28) == 0x1_0000_0000_0000_0000_0000_0000_0000_0000_0000_0000_0000_0000_0000_0000;
    assert Pow256(31) == 0x100_0000_0000_0000_0000_0000_0000_0000_0000_0000_0000_0000_0000_0000_0000_0000;
  }

  lemma U64RoundTrip(n: nat)
    requires n < U64
    ensures LE(U64Bytes(n)) == n
  {
    Pow256Of32();
    LEToLE(n, 8);
  }

  lemma U64Decoded(b: seq<byte>)
    requires |b| == 8
    ensures LE(b) < U64 && U64Bytes(LE(b)) == b
  {
    Pow256Of32();
    LEBound(b);
    ToLELE(b);
  }
}
