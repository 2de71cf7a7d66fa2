/** The base64url alphabet (section 5 of RFC 4648), without padding. */
module Base64 {
  import opened Wrappers
  import opened Bytes

  function Letter(value: nat): (ch: byte)
    requires value < 64
  {
    if value < 26 then 65 + value
    else if value < 52 then 97 + (value - 26)
    else if value < 62 then 48 + (value - 52)
    else if value == 62 then 45
    else 95
  }

  function Sextet(ch: byte): Option<nat> {
    if 65 <= ch <= 90 then Some(ch - 65)
    else if 97 <= ch <= 122 then Some(ch - 97 + 26)
    else if 48 <= ch <= 57 then Some(ch - 48 + 52)
    else if ch == 45 then Some(62)
    else if ch == 95 then Some(63)
    else None
  }

  /** Letters are read back, and none of them is whitespace. */
  lemma LetterRoundTrip(value: nat)
    requires value < 64
    ensures Sextet(Letter(value)) == Some(value) && !IsSpace(Letter(value))
  {
  }

  predicate IsSpace(ch: byte) {
    ch == 32 || ch == 10 || ch == 13 || ch == 9
  }

  /** Three bytes as one number, absent ones zero. */
  function Triple(a: byte, b: byte, c: byte): nat {
    a * 65536 + b * 256 + c
  }

  function FourLetters(triple: nat): (chars: seq<byte>)
    requires triple < 0x100_0000
    ensures |chars| == 4
  {
    [Letter(triple / 262144 % 64), Letter(triple / 4096 % 64), Letter(triple / 64 % 64), Letter(triple % 64)]
  }

  function At(bytes: seq<byte>, i: nat): byte {
    if i < |bytes| then bytes[i] else 0
  }

  /** The letters of one group: one more than its bytes, at most four. */
  function GroupLetters(bytes: seq<byte>): (chars: seq<byte>)
    requires 0 < |bytes| <= 3
    ensures |chars| == |bytes| + 1
  {
    FourLetters(Triple(bytes[0], At(bytes, 1), At(bytes, 2)))[..|bytes| + 1]
  }

  function Encoded(bytes: seq<byte>): seq<byte> {
    if |bytes| == 0 then []
    else if |bytes| <= 3 then GroupLetters(bytes)
    else GroupLetters(bytes[..3]) + Encoded(bytes[3..])
  }

  function EncodedLen(bytes: nat): nat {
    (bytes * 4 + 2) / 3
  }

  lemma {:induction false} EncodedLength(bytes: seq<byte>)
    ensures |Encoded(bytes)| == EncodedLen(|bytes|)
  {
    if |bytes| > 3 {
      EncodedLength(bytes[3..]);
    }
  }

  lemma {:induction false} EncodedSplits(head: seq<byte>, tail: seq<byte>)
    requires |head| % 3 == 0
    ensures Encoded(head + tail) == Encoded(head) + Encoded(tail)
  {
    if |head| > 0 {
      EncodedSplits(head[3..], tail);
      assert (head + tail)[..3] == head[..3] && (head + tail)[3..] == head[3..] + tail;
      if |head| == 3 {
        assert head[..3] == head && head[3..] == [];
        if |tail| == 0 {
          assert head + tail == head;
        }
      }
    } else {
      assert head + tail == tail;
    }
  }

  /** The bytes of one group of letters: one fewer than its letters. */
  function GroupBytes(chars: seq<byte>): Option<seq<byte>>
    requires 2 <= |chars| <= 4
  {
    if exists i :: 0 <= i < |chars| && Sextet(chars[i]).None? then None
    else
      var triple := Joined(chars);
      Some([triple / 65536 % 256, triple / 256 % 256, triple % 256][..|chars| - 1])
  }

  function Value(chars: seq<byte>, i: nat): (v: nat)
    ensures v < 64
  {
    if i < |chars| && Sextet(chars[i]).Some? then Sextet(chars[i]).value else 0
  }

  /** The bytes letters stand for, group by group: none for a letter outside the alphabet or a
      lone last one. */
  function Decoded(chars: seq<byte>): Option<seq<byte>> {
    if |chars| == 0 then Some([])
    else if |chars| == 1 then None
    else if |chars| < 4 then GroupBytes(chars)
    else match GroupBytes(chars[..4])
      case None => None
      case Some(bytes) =>
        match Decoded(chars[4..])
        case None => None
        case Some(rest) => Some(bytes + rest)
  }

  lemma SixBits(triple: nat)
    requires triple < 0x100_0000
    ensures (triple / 262144 % 64) * 262144 + (triple / 4096 % 64) * 4096 + (triple / 64 % 64) * 64 + triple % 64 == triple
  {
    assert triple / 4096 == triple / 64 / 64 && triple / 262144 == triple / 64 / 64 / 64;
    assert triple / 262144 < 64;
  }

  lemma EightBits(a: byte, b: byte, c: byte)
    ensures Triple(a, b, c) < 0x100_0000
    ensures Triple(a, b, c) / 65536 % 256 == a && Triple(a, b, c) / 256 % 256 == b && Triple(a, b, c) % 256 == c
  {
    assert Triple(a, b, c) == (a * 256 + b) * 256 + c;
    assert Triple(a, b, c) / 256 == a * 256 + b;
    assert Triple(a, b, c) / 65536 == a;
  }

  function Joined(chars: seq<byte>): nat {
    Value(chars, 0) * 262144 + Value(chars, 1) * 4096 + Value(chars, 2) * 64 + Value(chars, 3)
  }

  lemma FourRoundTrip(a: byte, b: byte, c: byte)
    ensures Triple(a, b, c) < 0x100_0000 && Joined(FourLetters(Triple(a, b, c))) == Triple(a, b, c)
  {
    hide Letter, Sextet;
    EightBits(a, b, c);
    var triple := Triple(a, b, c);
    LetterRoundTrip(triple / 262144 % 64);
    LetterRoundTrip(triple / 4096 % 64);
    LetterRoundTrip(triple / 64 % 64);
    LetterRoundTrip(triple % 64);
    SixBits(triple);
  }

  lemma GroupRoundTrip(bytes: seq<byte>)
    requires 0 < |bytes| <= 3
    ensures GroupBytes(GroupLetters(bytes)) == Some(bytes)
  {
    hide FourLetters, Triple, Sextet, Value;
    var a, b, c := bytes[0], At(bytes, 1), At(bytes, 2);
    ShortGroup(a, b, c, |bytes|);
    FourRoundTrip(a, b, c);
    EightBits(a, b, c);
    assert [a, b, c][..|bytes|] == bytes;
  }

  lemma Multiple(n: nat)
    ensures n * 64 % 64 == 0 && n * 64 / 64 == n
  {
  }

  lemma ZeroTail(a: byte, b: byte)
    ensures Triple(a, b, 0) % 64 == 0
    ensures Triple(a, 0, 0) / 64 % 64 == 0
  {
    Multiple(a * 1024 + b * 4);
    Multiple(a * 1024);
    Multiple(a * 16);
  }

  lemma FourValues(triple: nat)
    requires triple < 0x100_0000
    ensures forall i :: 0 <= i < 4 ==> Sextet(FourLetters(triple)[i]).Some?
    ensures Value(FourLetters(triple), 2) == triple / 64 % 64 && Value(FourLetters(triple), 3) == triple % 64
  {
    hide Letter, Sextet;
    LetterRoundTrip(triple / 262144 % 64);
    LetterRoundTrip(triple / 4096 % 64);
    LetterRoundTrip(triple / 64 % 64);
    LetterRoundTrip(triple % 64);
  }

  /** Cutting a group short loses only letters that were zero. */
  lemma ShortGroup(a: byte, b: byte, c: byte, count: nat)
    requires 1 <= count <= 3 && (count < 3 ==> c == 0) && (count < 2 ==> b == 0)
    ensures Triple(a, b, c) < 0x100_0000
    ensures var four := FourLetters(Triple(a, b, c));
            && (forall i :: 0 <= i < 4 ==> Sextet(four[i]).Some?)
            && Joined(four[..count + 1]) == Joined(four)
  {
    hide FourLetters, Triple, Sextet;
    EightBits(a, b, c);
    ZeroTail(a, b);
    FourValues(Triple(a, b, c));
  }

  /** Decoding undoes encoding. */
  lemma {:induction false} RoundTrip(bytes: seq<byte>)
    ensures Decoded(Encoded(bytes)) == Some(bytes)
  {
    if |bytes| > 3 {
      RoundTrip(bytes[3..]);
      GroupRoundTrip(bytes[..3]);
      var head, tail := GroupLetters(bytes[..3]), Encoded(bytes[3..]);
      assert (head + tail)[..4] == head && (head + tail)[4..] == tail;
      assert bytes == bytes[..3] + bytes[3..];
    } else if |bytes| == 3 {
      GroupRoundTrip(bytes);
      assert Encoded(bytes)[..4] == Encoded(bytes) && Encoded(bytes)[4..] == [];
      assert bytes + [] == bytes;
    } else if |bytes| > 0 {
      GroupRoundTrip(bytes);
    }
  }

  // ---- Which letters decode alike ----

  predicate InAlphabet(chars: seq<byte>) {
    forall i :: 0 <= i < |chars| ==> Sextet(chars[i]).Some?
  }

  /** How many values of a last letter stand for the same bits: a last group of two letters
      leaves four bits unused, one of three leaves two. */
  function Spare(letters: nat): (n: nat)
    ensures n > 0
  {
    if letters % 4 == 2 then 16 else if letters % 4 == 3 then 4 else 1
  }

  /** Two letters agree on the bits above the unused ones. */
  predicate LetterAlike(a: byte, b: byte, spare: nat)
    requires spare > 0
  {
    Sextet(a).Some? && Sextet(b).Some? && Sextet(a).value / spare == Sextet(b).value / spare
  }

  /** The same letters, but for the unused low bits of the last one. */
  predicate Alike(a: seq<byte>, b: seq<byte>) {
    && |b| == |a|
    && (forall i :: 0 <= i < |a| - 1 ==> b[i] == a[i])
    && (|a| > 0 ==> LetterAlike(a[|a| - 1], b[|a| - 1], Spare(|a|)))
  }

  lemma SextetNames(a: byte, b: byte)
    requires Sextet(a).Some? && Sextet(b) == Sextet(a)
    ensures a == b
  {
  }

  /** The bytes of a group, from its letters' values. */
  function BytesOf(v0: nat, v1: nat, v2: nat, v3: nat): (bytes: seq<byte>)
    requires v0 < 64 && v1 < 64 && v2 < 64 && v3 < 64
    ensures |bytes| == 3
  {
    [v0 * 4 + v1 / 16, v1 % 16 * 16 + v2 / 4, v2 % 4 * 64 + v3]
  }

  lemma Regrouped(v0: nat, v1: nat, v2: nat, v3: nat)
    requires v0 < 64 && v1 < 64 && v2 < 64 && v3 < 64
    ensures var b := BytesOf(v0, v1, v2, v3); v0 * 262144 + v1 * 4096 + v2 * 64 + v3 == Triple(b[0], b[1], b[2])
  {
    assert v1 * 4096 == v1 / 16 * 65536 + v1 % 16 * 4096;
    assert v2 * 64 == v2 / 4 * 256 + v2 % 4 * 64;
  }

  lemma GroupIs(chars: seq<byte>)
    requires 2 <= |chars| <= 4 && InAlphabet(chars)
    ensures GroupBytes(chars)
         == Some(BytesOf(Value(chars, 0), Value(chars, 1), Value(chars, 2), Value(chars, 3))[..|chars| - 1])
  {
    hide Sextet, Triple;
    var b := BytesOf(Value(chars, 0), Value(chars, 1), Value(chars, 2), Value(chars, 3));
    Regrouped(Value(chars, 0), Value(chars, 1), Value(chars, 2), Value(chars, 3));
    EightBits(b[0], b[1], b[2]);
    assert Joined(chars) == Triple(b[0], b[1], b[2]);
  }

  /** Which values make the same leading bytes. */
  lemma BytesAlike(v0: nat, v1: nat, v2: nat, v3: nat, u0: nat, u1: nat, u2: nat, u3: nat)
    requires v0 < 64 && v1 < 64 && v2 < 64 && v3 < 64 && u0 < 64 && u1 < 64 && u2 < 64 && u3 < 64
    ensures BytesOf(v0, v1, v2, v3)[0] == BytesOf(u0, u1, u2, u3)[0] <==> v0 == u0 && v1 / 16 == u1 / 16
    ensures BytesOf(v0, v1, v2, v3)[1] == BytesOf(u0, u1, u2, u3)[1] <==> v1 % 16 == u1 % 16 && v2 / 4 == u2 / 4
    ensures BytesOf(v0, v1, v2, v3)[2] == BytesOf(u0, u1, u2, u3)[2] <==> v2 % 4 == u2 % 4 && v3 == u3
  {
  }

  lemma NotInAlphabet(a: seq<byte>, b: seq<byte>)
    requires 2 <= |a| <= 4 && |b| == |a| && InAlphabet(a) && !InAlphabet(b)
    ensures GroupBytes(b).None? && !Alike(a, b)
  {
    hide Sextet;
  }

  lemma GroupsAlike(a: seq<byte>, b: seq<byte>)
    requires 2 <= |a| <= 4 && |b| == |a| && InAlphabet(a)
    ensures GroupBytes(b) == GroupBytes(a) <==> Alike(a, b)
  {
    hide Sextet, BytesOf, Alike, GroupBytes, Value;
    GroupIs(a);
    if !InAlphabet(b) {
      NotInAlphabet(a, b);
    } else {
      GroupIs(b);
      ValuesAlike(a, b);
      var x := BytesOf(Value(a, 0), Value(a, 1), Value(a, 2), Value(a, 3));
      var y := BytesOf(Value(b, 0), Value(b, 1), Value(b, 2), Value(b, 3));
      BytesAlike(Value(a, 0), Value(a, 1), Value(a, 2), Value(a, 3), Value(b, 0), Value(b, 1), Value(b, 2), Value(b, 3));
      assert x[..|a| - 1] == y[..|a| - 1] <==> forall i :: 0 <= i < |a| - 1 ==> x[i] == y[i];
    }
  }

  /** Letters agree exactly when their values do. */
  lemma ValuesAlike(a: seq<byte>, b: seq<byte>)
    requires 2 <= |a| <= 4 && |b| == |a| && InAlphabet(a) && InAlphabet(b)
    ensures Alike(a, b) <==>
              && (forall i :: 0 <= i < |a| - 1 ==> Value(a, i) == Value(b, i))
              && Value(a, |a| - 1) / Spare(|a|) == Value(b, |a| - 1) / Spare(|a|)
  {
    hide Sextet;
    forall i | 0 <= i < |a| ensures a[i] == b[i] <==> Value(a, i) == Value(b, i) {
      if Value(a, i) == Value(b, i) {
        SextetNames(a[i], b[i]);
      }
    }
  }

  lemma {:induction false} DecodedSize(chars: seq<byte>)
    requires Decoded(chars).Some?
    ensures |chars| % 4 != 1 && |Decoded(chars).value| == |chars| / 4 * 3 + (if |chars| % 4 == 0 then 0 else |chars| % 4 - 1)
    ensures InAlphabet(chars)
  {
    hide Sextet;
    if |chars| >= 4 {
      DecodedSize(chars[4..]);
      assert chars == chars[..4] + chars[4..];
      forall i | 0 <= i < |chars| ensures Sextet(chars[i]).Some? {
        if i < 4 {
          assert chars[..4][i] == chars[i];
        } else {
          assert chars[4..][i - 4] == chars[i];
        }
      }
    }
  }

  lemma AlikeSplits(a: seq<byte>, b: seq<byte>)
    requires |a| >= 4 && |b| >= 4 && InAlphabet(a)
    ensures Alike(a, b) <==> Alike(a[..4], b[..4]) && Alike(a[4..], b[4..])
  {
    hide Sextet;
    if Alike(a[..4], b[..4]) {
      SextetNames(a[3], b[3]);
      assert a[..4] == b[..4];
    }
    if Alike(a[..4], b[..4]) && Alike(a[4..], b[4..]) {
      forall i | 0 <= i < |a| - 1 ensures b[i] == a[i] {
        if i < 4 {
          assert a[..4][i] == b[..4][i];
        } else {
          assert a[4..][i - 4] == b[4..][i - 4];
        }
      }
    }
  }

  /** Decoding, exactly: letters decode to the same bytes if and only if they are the same but
      for the unused low bits of the last letter of a short last group. */
  lemma {:induction false} DecodeAlike(a: seq<byte>, b: seq<byte>)
    requires Decoded(a).Some?
    ensures Decoded(b) == Decoded(a) <==> Alike(a, b)
  {
    hide Sextet, GroupBytes, Alike;
    DecodedSize(a);
    if Decoded(b).Some? {
      DecodedSize(b);
    }
    if |a| != |b| {
      AlikeLength(a, b);
    } else if |a| >= 4 {
      DecodeAlike(a[4..], b[4..]);
      AlikeSplits(a, b);
      GroupsAlike(a[..4], b[..4]);
      FourIsThree(a[..4]);
      FourIsThree(b[..4]);
      if Decoded(b).Some? {
        JoinedAlike(GroupBytes(a[..4]).value, GroupBytes(b[..4]).value, Decoded(a[4..]).value, Decoded(b[4..]).value);
      }
    } else if |a| >= 2 {
      GroupsAlike(a, b);
    } else {
      AlikeEmpty(a, b);
    }
  }

  lemma AlikeLength(a: seq<byte>, b: seq<byte>)
    requires |a| != |b|
    ensures !Alike(a, b)
  {
  }

  lemma AlikeEmpty(a: seq<byte>, b: seq<byte>)
    requires |a| == |b| == 0
    ensures Alike(a, b)
  {
  }

  lemma JoinedAlike(x: seq<byte>, y: seq<byte>, r: seq<byte>, t: seq<byte>)
    requires |x| == |y|
    ensures x + r == y + t <==> x == y && r == t
  {
    if x + r == y + t {
      assert x == (x + r)[..|x|] && y == (y + t)[..|y|] && r == (x + r)[|x|..] && t == (y + t)[|y|..];
    }
  }

  lemma FourIsThree(chars: seq<byte>)
    requires |chars| == 4
    ensures GroupBytes(chars).Some? ==> |GroupBytes(chars).value| == 3
  {
  }

  /** Cut short, a group's last letter has its unused bits clear. */
  lemma {:induction false} LastLetter(bytes: seq<byte>)
    requires |bytes| % 3 != 0
    ensures var chars := Encoded(bytes);
            |chars| > 0 && Sextet(chars[|chars| - 1]).Some? && Sextet(chars[|chars| - 1]).value % Spare(|chars|) == 0 && Spare(|chars|) > 1
  {
    hide GroupLetters, Letter, Sextet, Spare;
    if |bytes| > 3 {
      LastLetter(bytes[3..]);
      LastOfTail(GroupLetters(bytes[..3]), Encoded(bytes[3..]));
    } else {
      SpareOfGroup(bytes);
      LastOfGroup(bytes);
    }
  }

  lemma LastOfTail(head: seq<byte>, tail: seq<byte>)
    requires |head| == 4 && |tail| > 0
    ensures (head + tail)[|head + tail| - 1] == tail[|tail| - 1] && Spare(|head + tail|) == Spare(|tail|)
  {
  }

  lemma SpareOfGroup(bytes: seq<byte>)
    requires 0 < |bytes| < 3
    ensures |GroupLetters(bytes)| > 0 && Spare(|GroupLetters(bytes)|) > 1
  {
  }

  lemma LastOfGroup(bytes: seq<byte>)
    requires 0 < |bytes| < 3
    ensures var chars := GroupLetters(bytes);
            Sextet(chars[|chars| - 1]).Some? && Sextet(chars[|chars| - 1]).value % Spare(|chars|) == 0
  {
    hide Letter, Sextet;
    var triple := Triple(bytes[0], At(bytes, 1), 0);
    EightBits(bytes[0], At(bytes, 1), 0);
    LetterRoundTrip(triple / 4096 % 64);
    LetterRoundTrip(triple / 64 % 64);
    SpareBits(bytes[0], At(bytes, 1));
  }

  lemma SpareBits(a: byte, b: byte)
    ensures Triple(a, b, 0) / 64 % 64 % 4 == 0
    ensures Triple(a, 0, 0) / 4096 % 64 % 16 == 0
  {
    assert Triple(a, b, 0) == (a * 1024 + b * 4) * 64;
    assert Triple(a, 0, 0) == (a * 16) * 64 * 64;
    Multiple(a * 1024 + b * 4);
    Multiple(a * 16 * 64);
    Multiple(a * 16);
    assert Triple(a, 0, 0) / 4096 == a * 16;
    Fours(a * 256 + b);
    Fours(a * 4);
    Sixteens(a);
  }

  lemma Fours(y: nat)
    ensures y * 4 % 64 % 4 == 0
  {
    assert y * 4 % 64 == y % 16 * 4;
  }

  lemma Sixteens(y: nat)
    ensures y * 16 % 64 % 16 == 0
  {
    assert y * 16 % 64 == y % 4 * 16;
  }

  lemma GroupHasNoSpaces(bytes: seq<byte>)
    requires 0 < |bytes| <= 3
    ensures forall i :: 0 <= i < |GroupLetters(bytes)| ==> !IsSpace(GroupLetters(bytes)[i])
  {
    var triple := Triple(bytes[0], At(bytes, 1), At(bytes, 2));
    LetterRoundTrip(triple / 262144 % 64);
    LetterRoundTrip(triple / 4096 % 64);
    LetterRoundTrip(triple / 64 % 64);
    LetterRoundTrip(triple % 64);
  }

  lemma {:induction false} NoSpaces(bytes: seq<byte>)
    ensures forall i :: 0 <= i < |Encoded(bytes)| ==> !IsSpace(Encoded(bytes)[i])
  {
    hide GroupLetters, IsSpace;
    if |bytes| > 3 {
      GroupHasNoSpaces(bytes[..3]);
      NoSpaces(bytes[3..]);
    } else if |bytes| > 0 {
      GroupHasNoSpaces(bytes);
    }
  }
}

/** The text armor: one form for every artifact handed over a channel nobody controls. */
module Armors {
  import opened Wrappers
  import opened Bytes
  import opened Base64
  import Crypto

  // "nymora1"
  const PREFIX: seq<byte> := [110, 121, 109, 111, 114, 97, 49]

  const CHECK_LEN := 4

  datatype Kind =
    | Bundle | Invitation | SessionCode | ProposalCode
    | Challenge | LiveAuthCommitment | LiveAuthReveal | LiveAuthProof
  {
    function Byte(): byte {
      match this
      case Bundle => 1
      case Invitation => 2
      case SessionCode => 3
      case ProposalCode => 4
      case Challenge => 5
      case LiveAuthCommitment => 6
      case LiveAuthReveal => 7
      case LiveAuthProof => 8
    }
  }

  function KindOf(b: byte): Option<Kind> {
    if b == 1 then Some(Bundle)
    else if b == 2 then Some(Invitation)
    else if b == 3 then Some(SessionCode)
    else if b == 4 then Some(ProposalCode)
    else if b == 5 then Some(Challenge)
    else if b == 6 then Some(LiveAuthCommitment)
    else if b == 7 then Some(LiveAuthReveal)
    else if b == 8 then Some(LiveAuthProof)
    else None
  }

  /** The checksum trailer. */
  function Check(c: Crypto.Scheme, kind: Kind, payload: seq<byte>): (check: seq<byte>)
    ensures |check| == CHECK_LEN
  {
    Crypto.Digest(c, Crypto.Domain.Armor, [PREFIX, [kind.Byte()], payload])[..CHECK_LEN]
  }

  /** What the letters carry. */
  function Source(c: Crypto.Scheme, kind: Kind, payload: seq<byte>): seq<byte> {
    [kind.Byte()] + payload + Check(c, kind, payload)
  }

  function ArmoredLen(payload: nat): nat {
    |PREFIX| + EncodedLen(1 + payload + CHECK_LEN)
  }

  function Armored(c: Crypto.Scheme, kind: Kind, payload: seq<byte>): (text: seq<byte>)
    ensures |text| == ArmoredLen(|payload|)
  {
    EncodedLength(Source(c, kind, payload));
    PREFIX + Encoded(Source(c, kind, payload))
  }

  // ---- Reading ----

  function TrimStart(s: seq<byte>): (t: seq<byte>)
    ensures |t| <= |s|
  {
    if |s| > 0 && IsSpace(s[0]) then TrimStart(s[1..]) else s
  }

  function TrimEnd(s: seq<byte>): (t: seq<byte>)
    ensures |t| <= |s|
  {
    if |s| > 0 && IsSpace(s[|s| - 1]) then TrimEnd(s[..|s| - 1]) else s
  }

  function Trim(s: seq<byte>): seq<byte> {
    TrimEnd(TrimStart(s))
  }

  function Filtered(s: seq<byte>): seq<byte> {
    if |s| == 0 then [] else (if IsSpace(s[0]) then [] else [s[0]]) + Filtered(s[1..])
  }

  // Straight double and single quotes, then smart double and single, in UTF-8.
  const QUOTES: seq<(seq<byte>, seq<byte>)> := [
    ([34], [34]), ([39], [39]), ([0xe2, 0x80, 0x9c], [0xe2, 0x80, 0x9d]), ([0xe2, 0x80, 0x98], [0xe2, 0x80, 0x99])]

  predicate Wrapped(text: seq<byte>, pair: (seq<byte>, seq<byte>)) {
    && |text| >= |pair.0| + |pair.1|
    && text[..|pair.0|] == pair.0
    && text[|text| - |pair.1|..] == pair.1
  }

  /** Strips the first listed pair of quotes that surrounds the text, if one does. */
  function Unquoted(text: seq<byte>, pairs: seq<(seq<byte>, seq<byte>)>): seq<byte> {
    if |pairs| == 0 then text
    else if Wrapped(text, pairs[0]) then text[|pairs[0].0|..|text| - |pairs[0].1|]
    else Unquoted(text, pairs[1..])
  }

  function Inner(text: seq<byte>): seq<byte> {
    Trim(Unquoted(Trim(text), QUOTES))
  }

  /** The kind and payload an armor's letters carry, if the checksum is theirs. */
  function Checked(c: Crypto.Scheme, bytes: seq<byte>): Result<(Kind, seq<byte>)> {
    if |bytes| < 1 + CHECK_LEN then Err(Malformed)
    else match KindOf(bytes[0])
      case None => Err(Malformed)
      case Some(kind) =>
        var payload := bytes[1..|bytes| - CHECK_LEN];
        if bytes[|bytes| - CHECK_LEN..] != Check(c, kind, payload) then Err(Malformed) else Ok((kind, payload))
  }

  function Unarmored(c: Crypto.Scheme, text: seq<byte>, room: nat): Result<(Kind, seq<byte>)> {
    var inner := Inner(text);
    if !(PREFIX <= inner) then Err(Malformed)
    else match Decoded(Filtered(inner[|PREFIX|..]))
      case None => Err(Malformed)
      case Some(bytes) => if |bytes| > room then Err(Malformed) else Checked(c, bytes)
  }

  // ---- What a channel may do to the text ----

  predicate AllSpace(s: seq<byte>) {
    forall i :: 0 <= i < |s| ==> IsSpace(s[i])
  }

  /** An armored text as it arrives: spaced out after the prefix, padded around, perhaps
      quoted. */
  datatype Arrival = Arrival(before: seq<byte>, quoted: Option<nat>, inside: seq<byte>, body: seq<byte>, after: seq<byte>)
  {
    predicate Harmless() {
      AllSpace(before) && AllSpace(inside) && AllSpace(after) && (quoted.Some? ==> quoted.value < |QUOTES|)
    }

    function Open(): seq<byte> {
      if quoted.Some? && quoted.value < |QUOTES| then QUOTES[quoted.value].0 else []
    }

    function Close(): seq<byte> {
      if quoted.Some? && quoted.value < |QUOTES| then QUOTES[quoted.value].1 else []
    }

    function Text(): seq<byte> {
      before + (Open() + (inside + (PREFIX + body)) + Close()) + after
    }
  }

  lemma {:induction false} TrimStartSpaces(space: seq<byte>, rest: seq<byte>)
    requires AllSpace(space) && (|rest| > 0 ==> !IsSpace(rest[0]))
    ensures TrimStart(space + rest) == rest
  {
    if |space| > 0 {
      assert (space + rest)[1..] == space[1..] + rest;
      TrimStartSpaces(space[1..], rest);
    } else {
      assert space + rest == rest;
    }
  }

  lemma {:induction false} TrimEndSpaces(rest: seq<byte>, space: seq<byte>)
    requires AllSpace(space) && (|rest| > 0 ==> !IsSpace(rest[|rest| - 1]))
    ensures TrimEnd(rest + space) == rest
  {
    if |space| > 0 {
      assert (rest + space)[..|rest + space| - 1] == rest + space[..|space| - 1];
      TrimEndSpaces(rest, space[..|space| - 1]);
    } else {
      assert rest + space == rest;
    }
  }

  /** Trimming an end that may reach into a body trims only the body. */
  lemma {:induction false} TrimEndKeeps(head: seq<byte>, body: seq<byte>)
    requires |head| > 0 && !IsSpace(head[|head| - 1])
    ensures TrimEnd(head + body) == head + TrimEnd(body)
  {
    if |body| > 0 {
      if IsSpace(body[|body| - 1]) {
        assert (head + body)[..|head + body| - 1] == head + body[..|body| - 1];
        TrimEndKeeps(head, body[..|body| - 1]);
      }
    } else {
      assert head + body == head;
    }
  }

  lemma {:induction false} FilteredAppend(a: seq<byte>, b: seq<byte>)
    ensures Filtered(a + b) == Filtered(a) + Filtered(b)
  {
    if |a| > 0 {
      assert (a + b)[1..] == a[1..] + b;
      FilteredAppend(a[1..], b);
    } else {
      assert a + b == b;
    }
  }

  lemma {:induction false} FilteredSpaces(space: seq<byte>)
    requires AllSpace(space)
    ensures Filtered(space) == []
  {
    if |space| > 0 {
      FilteredSpaces(space[1..]);
    }
  }

  lemma {:induction false} FilteredTrimEnd(s: seq<byte>)
    ensures Filtered(TrimEnd(s)) == Filtered(s)
  {
    if |s| > 0 && IsSpace(s[|s| - 1]) {
      FilteredTrimEnd(s[..|s| - 1]);
      FilteredAppend(s[..|s| - 1], [s[|s| - 1]]);
      assert s == s[..|s| - 1] + [s[|s| - 1]];
      assert [s[|s| - 1]][1..] == [];
    }
  }

  /** Padding around the text falls away, up to spaces at the end of an unquoted body. */
  lemma Unpadded(before: seq<byte>, core: seq<byte>, after: seq<byte>)
    requires AllSpace(before) && AllSpace(after) && |core| > 0 && !IsSpace(core[0])
    ensures Trim(before + core + after) == TrimEnd(core + after)
  {
    assert before + core + after == before + (core + after);
    TrimStartSpaces(before, core + after);
  }

  lemma QuotesSurround(inner: seq<byte>, i: nat)
    requires i < |QUOTES|
    ensures Unquoted(QUOTES[i].0 + inner + QUOTES[i].1, QUOTES) == inner
  {
    var text := QUOTES[i].0 + inner + QUOTES[i].1;
    assert Wrapped(text, QUOTES[i]);
    assert text[|QUOTES[i].0|..|text| - |QUOTES[i].1|] == inner;
    FirstPairs(text, i);
  }

  /** No two pairs open alike. */
  lemma OpensApart(i: nat, j: nat)
    requires j < i < |QUOTES|
    ensures exists p :: 0 <= p < |QUOTES[j].0| && p < |QUOTES[i].0| && QUOTES[j].0[p] != QUOTES[i].0[p]
  {
    if j >= 2 {
      assert QUOTES[j].0[2] != QUOTES[i].0[2];
    } else {
      assert QUOTES[j].0[0] != QUOTES[i].0[0];
    }
  }

  lemma {:induction false} FirstWrapping(text: seq<byte>, pairs: seq<(seq<byte>, seq<byte>)>, i: nat)
    requires i < |pairs| && Wrapped(text, pairs[i]) && forall j :: 0 <= j < i ==> !Wrapped(text, pairs[j])
    ensures Unquoted(text, pairs) == text[|pairs[i].0|..|text| - |pairs[i].1|]
  {
    if i > 0 {
      FirstWrapping(text, pairs[1..], i - 1);
    }
  }

  lemma FirstPairs(text: seq<byte>, i: nat)
    requires i < |QUOTES| && Wrapped(text, QUOTES[i])
    ensures Unquoted(text, QUOTES) == text[|QUOTES[i].0|..|text| - |QUOTES[i].1|]
  {
    forall j | 0 <= j < i ensures !Wrapped(text, QUOTES[j]) {
      OpensApart(i, j);
      var p :| 0 <= p < |QUOTES[j].0| && p < |QUOTES[i].0| && QUOTES[j].0[p] != QUOTES[i].0[p];
      assert text[..|QUOTES[i].0|][p] == QUOTES[i].0[p] == text[p];
      if |text| >= |QUOTES[j].0| {
        assert text[..|QUOTES[j].0|][p] == text[p];
      }
    }
    FirstWrapping(text, QUOTES, i);
  }

  lemma {:induction false} Unwrapped(text: seq<byte>, pairs: seq<(seq<byte>, seq<byte>)>)
    requires forall j :: 0 <= j < |pairs| ==> !Wrapped(text, pairs[j])
    ensures Unquoted(text, pairs) == text
  {
    if |pairs| > 0 {
      Unwrapped(text, pairs[1..]);
    }
  }

  /** An unquoted armor starts with a letter no quote starts with. */
  lemma PrefixUnquoted(body: seq<byte>)
    ensures Unquoted(PREFIX + body, QUOTES) == PREFIX + body
  {
    var text := PREFIX + body;
    assert text[0] == 110;
    forall j | 0 <= j < |QUOTES| ensures !Wrapped(text, QUOTES[j]) {
      assert QUOTES[j].0[0] != 110 && text[..|QUOTES[j].0|][0] == text[0];
    }
    Unwrapped(text, QUOTES);
  }

  lemma QuoteEnds(i: nat)
    requires i < |QUOTES|
    ensures |QUOTES[i].0| > 0 && |QUOTES[i].1| > 0
    ensures !IsSpace(QUOTES[i].0[0]) && !IsSpace(QUOTES[i].1[|QUOTES[i].1| - 1])
  {
  }

  lemma Edges(open: seq<byte>, middle: seq<byte>, close: seq<byte>)
    requires |open| > 0 && |close| > 0
    ensures var text := open + middle + close; |text| > 0 && text[0] == open[0] && text[|text| - 1] == close[|close| - 1]
  {
  }

  /** Whatever harmless things happened to it, the prefix and the letters come through. */
  lemma QuotedArrives(a: Arrival)
    requires a.Harmless() && a.quoted.Some?
    ensures Inner(a.Text()) == PREFIX + TrimEnd(a.body)
  {
    hide TrimStart, TrimEnd, Unquoted, Wrapped;
    var i := a.quoted.value;
    var middle := a.inside + (PREFIX + a.body);
    var core := QUOTES[i].0 + middle + QUOTES[i].1;
    QuoteEnds(i);
    Edges(QUOTES[i].0, middle, QUOTES[i].1);
    Unpadded(a.before, core, a.after);
    TrimEndSpaces(core, a.after);
    QuotesSurround(middle, i);
    PrefixEnds(a.body);
    TrimStartSpaces(a.inside, PREFIX + a.body);
    TrimEndKeeps(PREFIX, a.body);
  }

  lemma PrefixEnds(body: seq<byte>)
    ensures !IsSpace((PREFIX + body)[0]) && !IsSpace(PREFIX[|PREFIX| - 1])
  {
  }

  lemma BareArrives(a: Arrival)
    requires a.Harmless() && a.quoted.None?
    ensures Inner(a.Text()) == PREFIX + TrimEnd(TrimEnd(a.body + a.after))
  {
    hide TrimStart, TrimEnd, Unquoted, Wrapped;
    var core := PREFIX + (a.body + a.after);
    assert a.Text() == (a.before + a.inside) + core + [] by {
      assert [] + (a.inside + (PREFIX + a.body)) + [] == a.inside + (PREFIX + a.body);
    }
    PrefixEnds(a.body + a.after);
    Unpadded(a.before + a.inside, core, []);
    assert core + [] == core;
    TrimEndKeeps(PREFIX, a.body + a.after);
    PrefixUnquoted(TrimEnd(a.body + a.after));
    PrefixEnds(TrimEnd(a.body + a.after));
    TrimStartSpaces([], PREFIX + TrimEnd(a.body + a.after));
    assert [] + (PREFIX + TrimEnd(a.body + a.after)) == PREFIX + TrimEnd(a.body + a.after);
    TrimEndKeeps(PREFIX, TrimEnd(a.body + a.after));
  }

  lemma LettersArrive(a: Arrival)
    requires a.Harmless()
    ensures PREFIX <= Inner(a.Text()) && Filtered(Inner(a.Text())[|PREFIX|..]) == Filtered(a.body)
  {
    hide TrimEnd, Inner, Filtered;
    if a.quoted.Some? {
      QuotedArrives(a);
      FilteredTrimEnd(a.body);
      assert (PREFIX + TrimEnd(a.body))[|PREFIX|..] == TrimEnd(a.body);
    } else {
      BareArrives(a);
      FilteredTrimEnd(TrimEnd(a.body + a.after));
      FilteredTrimEnd(a.body + a.after);
      FilteredAppend(a.body, a.after);
      FilteredSpaces(a.after);
      assert (PREFIX + TrimEnd(TrimEnd(a.body + a.after)))[|PREFIX|..] == TrimEnd(TrimEnd(a.body + a.after));
      assert Filtered(a.body) + [] == Filtered(a.body);
    }
  }

  lemma KindRoundTrip(kind: Kind)
    ensures KindOf(kind.Byte()) == Some(kind)
  {
  }

  lemma SourceChecks(c: Crypto.Scheme, kind: Kind, payload: seq<byte>)
    ensures Checked(c, Source(c, kind, payload)) == Ok((kind, payload))
  {
    hide Check;
    KindRoundTrip(kind);
    var bytes := Source(c, kind, payload);
    assert bytes[1..|bytes| - CHECK_LEN] == payload && bytes[|bytes| - CHECK_LEN..] == Check(c, kind, payload);
  }

  /** Armor round trip: for every kind and payload, the armored text comes back whole from any
      arrival that keeps its letters in order, given room for the payload and five bytes. */
  lemma UnarmorRecovers(c: Crypto.Scheme, kind: Kind, payload: seq<byte>, a: Arrival, room: nat)
    requires a.Harmless() && PREFIX + Filtered(a.body) == Armored(c, kind, payload) && room >= |payload| + 5
    ensures Unarmored(c, a.Text(), room) == Ok((kind, payload))
  {
    hide Inner, Filtered, Decoded, Encoded, Checked;
    LettersArrive(a);
    RoundTrip(Source(c, kind, payload));
    SourceChecks(c, kind, payload);
    assert (PREFIX + Filtered(a.body))[|PREFIX|..] == Filtered(a.body);
    assert Armored(c, kind, payload)[|PREFIX|..] == Encoded(Source(c, kind, payload));
  }

  /** The armored text as written comes back whole. */
  lemma ArmorRoundTrip(c: Crypto.Scheme, kind: Kind, payload: seq<byte>, room: nat)
    requires room >= |payload| + 5
    ensures Unarmored(c, Armored(c, kind, payload), room) == Ok((kind, payload))
  {
    hide Unarmored, Encoded, Source, Armored;
    ArmoredArrives(c, kind, payload);
    UnarmorRecovers(c, kind, payload, Arrival([], None, [], Encoded(Source(c, kind, payload)), []), room);
  }

  /** The armored text itself arrives. */
  lemma ArmoredArrives(c: Crypto.Scheme, kind: Kind, payload: seq<byte>)
    ensures var a := Arrival([], None, [], Encoded(Source(c, kind, payload)), []);
            a.Harmless() && a.Text() == Armored(c, kind, payload) && PREFIX + Filtered(a.body) == Armored(c, kind, payload)
  {
    hide Encoded, Source, Filtered, IsSpace;
    NoSpaces(Source(c, kind, payload));
    FilteredSolid(Encoded(Source(c, kind, payload)));
    BareText(Encoded(Source(c, kind, payload)));
  }

  lemma BareText(letters: seq<byte>)
    ensures Arrival([], None, [], letters, []).Text() == PREFIX + letters
    ensures Arrival([], None, [], letters, []).Harmless()
  {
    var text := PREFIX + letters;
    assert [] + text == text && text + [] == text;
  }

  lemma {:induction false} FilteredSolid(s: seq<byte>)
    requires forall i :: 0 <= i < |s| ==> !IsSpace(s[i])
    ensures Filtered(s) == s
  {
    if |s| > 0 {
      FilteredSolid(s[1..]);
    }
  }

  // ---- Canonicity ----

  /** The checksum and kind leave exactly one byte string for a kind and payload. */
  lemma ChecksOnlySource(c: Crypto.Scheme, bytes: seq<byte>, kind: Kind, payload: seq<byte>)
    ensures Checked(c, bytes) == Ok((kind, payload)) <==> bytes == Source(c, kind, payload)
  {
    hide Check;
    SourceChecks(c, kind, payload);
    if Checked(c, bytes) == Ok((kind, payload)) {
      KindByte(bytes[0]);
      assert bytes == [bytes[0]] + bytes[1..|bytes| - CHECK_LEN] + bytes[|bytes| - CHECK_LEN..];
    }
  }

  /** Two kinds and payloads whose four-byte checksums are alike. */
  predicate ChecksumClash(c: Crypto.Scheme, kind: Kind, payload: seq<byte>, kind': Kind, payload': seq<byte>) {
    && (kind, payload) != (kind', payload')
    && c.digest(Crypto.Domain.Armor, [PREFIX, [kind.Byte()], payload])[..4]
       == c.digest(Crypto.Domain.Armor, [PREFIX, [kind'.Byte()], payload'])[..4]
  }

  /** A checksum is taken for no other kind or payload than its own, but for a listed clash: an
      artifact passed off as another kind, or altered in transit, is refused. */
  lemma AlteredIsCaught(c: Crypto.Scheme, kind: Kind, payload: seq<byte>, kind': Kind, payload': seq<byte>)
    requires !ChecksumClash(c, kind, payload, kind', payload')
    ensures Checked(c, [kind'.Byte()] + payload' + Check(c, kind, payload)).Ok? <==> kind' == kind && payload' == payload
  {
    var bytes := [kind'.Byte()] + payload' + Check(c, kind, payload);
    KindRoundTrip(kind');
    assert bytes[1..|bytes| - CHECK_LEN] == payload' && bytes[|bytes| - CHECK_LEN..] == Check(c, kind, payload);
    if Check(c, kind', payload') == Check(c, kind, payload) {
      assert (kind, payload) == (kind', payload');
    }
  }

  lemma KindByte(b: byte)
    ensures KindOf(b).Some? ==> KindOf(b).value.Byte() == b
  {
  }

  lemma {:induction false} LettersAreSolid(letters: seq<byte>)
    requires InAlphabet(letters)
    ensures Filtered(letters) == letters
  {
    if |letters| > 0 {
      LettersAreSolid(letters[1..]);
    }
  }

  /** A bare text of letters is read as its letters. */
  lemma BareLetters(letters: seq<byte>)
    requires InAlphabet(letters)
    ensures PREFIX <= Inner(PREFIX + letters) && Filtered(Inner(PREFIX + letters)[|PREFIX|..]) == letters
  {
    hide Inner, Filtered;
    BareText(letters);
    LettersArrive(Arrival([], None, [], letters, []));
    LettersAreSolid(letters);
  }

  /** Which letters an armor accepts, exactly: those of the armored text itself, but for the
      unused low bits of the last one. */
  lemma AcceptedLetters(c: Crypto.Scheme, kind: Kind, payload: seq<byte>, letters: seq<byte>, room: nat)
    requires InAlphabet(letters) && room >= |payload| + 5
    ensures Unarmored(c, PREFIX + letters, room) == Ok((kind, payload)) <==> Alike(Encoded(Source(c, kind, payload)), letters)
  {
    hide Inner, Filtered, Decoded, Encoded, Checked, Alike, InAlphabet, Sextet, Source;
    BareLetters(letters);
    RoundTrip(Source(c, kind, payload));
    SourceLength(c, kind, payload);
    DecodeAlike(Encoded(Source(c, kind, payload)), letters);
    if Decoded(letters).Some? {
      ChecksOnlySource(c, Decoded(letters).value, kind, payload);
    }
  }

  lemma SourceLength(c: Crypto.Scheme, kind: Kind, payload: seq<byte>)
    ensures |Source(c, kind, payload)| == |payload| + 5
  {
  }

  /** The armored text's letters with the last one counted up into its unused bits. */
  function Nudged(letters: seq<byte>): (other: seq<byte>)
    requires |letters| > 0 && Sextet(letters[|letters| - 1]).Some? && Sextet(letters[|letters| - 1]).value % 4 == 0
    ensures |other| == |letters|
  {
    letters[|letters| - 1 := Letter(Sextet(letters[|letters| - 1]).value + 1)]
  }

  lemma NudgedAlike(letters: seq<byte>)
    requires InAlphabet(letters) && |letters| > 0 && Spare(|letters|) > 1
    requires Sextet(letters[|letters| - 1]).value % Spare(|letters|) == 0
    ensures Sextet(letters[|letters| - 1]).value % 4 == 0
    ensures Nudged(letters) != letters && InAlphabet(Nudged(letters)) && Alike(letters, Nudged(letters))
  {
    hide Letter, Sextet;
    var v := Sextet(letters[|letters| - 1]).value;
    assert v % 4 == 0 && v < 64 && (v + 1) / Spare(|letters|) == v / Spare(|letters|) by {
      assert v == Value(letters, |letters| - 1);
      assert v % 16 == 0 ==> v % 4 == 0;
    }
    LetterRoundTrip(v + 1);
    assert Nudged(letters)[|letters| - 1] == Letter(v + 1);
  }

  /** The armor is not canonical: an armored text whose payload leaves a short last group is still
      accepted with its last letter changed. */
  lemma LowBitsIgnored(c: Crypto.Scheme, kind: Kind, payload: seq<byte>, room: nat)
    requires (|payload| + 5) % 3 != 0 && room >= |payload| + 5
    ensures var letters := Encoded(Source(c, kind, payload));
            && |letters| > 0 && Sextet(letters[|letters| - 1]).Some? && Sextet(letters[|letters| - 1]).value % 4 == 0
            && InAlphabet(Nudged(letters))
            && PREFIX + Nudged(letters) != Armored(c, kind, payload)
            && Unarmored(c, PREFIX + Nudged(letters), room) == Ok((kind, payload))
  {
    hide Unarmored, Encoded, Decoded, Alike, Sextet, Letter, Source, Spare;
    var letters := Encoded(Source(c, kind, payload));
    SourceLength(c, kind, payload);
    LastLetter(Source(c, kind, payload));
    RoundTrip(Source(c, kind, payload));
    DecodedSize(letters);
    NudgedAlike(letters);
    AcceptedLetters(c, kind, payload, Nudged(letters), room);
    assert (PREFIX + Nudged(letters))[|PREFIX|..] == Nudged(letters);
    assert Armored(c, kind, payload)[|PREFIX|..] == letters;
  }

  /** These letters and no others are accepted for a kind and payload. */
  ghost predicate OnlyLetters(c: Crypto.Scheme, kind: Kind, payload: seq<byte>, room: nat) {
    forall letters :: InAlphabet(letters) && Unarmored(c, PREFIX + letters, room) == Ok((kind, payload)) ==>
      PREFIX + letters == Armored(c, kind, payload)
  }

  /** With whole groups, letters accepted for a kind and payload are the armored text's own. */
  lemma WholeGroupsOnly(c: Crypto.Scheme, kind: Kind, payload: seq<byte>, other: seq<byte>, room: nat)
    requires room >= |payload| + 5 && (|payload| + 5) % 3 == 0
    requires InAlphabet(other) && Unarmored(c, PREFIX + other, room) == Ok((kind, payload))
    ensures PREFIX + other == Armored(c, kind, payload)
  {
    hide Unarmored, Encoded, Source, InAlphabet, Alike;
    AcceptedLetters(c, kind, payload, other, room);
    SourceLength(c, kind, payload);
    EncodedLength(Source(c, kind, payload));
    WholeGroupsAlike(Encoded(Source(c, kind, payload)), other);
  }

  /** Canonicity, exactly: a kind and payload have one accepted letter string if and only if their
      bytes fill whole groups. */
  lemma CanonicalExactly(c: Crypto.Scheme, kind: Kind, payload: seq<byte>, room: nat)
    requires room >= |payload| + 5
    ensures OnlyLetters(c, kind, payload, room) <==> (|payload| + 5) % 3 == 0
  {
    hide Unarmored, Armored, Encoded, Sextet, Source, InAlphabet;
    if (|payload| + 5) % 3 == 0 {
      forall other | InAlphabet(other) && Unarmored(c, PREFIX + other, room) == Ok((kind, payload))
        ensures PREFIX + other == Armored(c, kind, payload)
      {
        WholeGroupsOnly(c, kind, payload, other, room);
      }
    } else {
      LowBitsIgnored(c, kind, payload, room);
      assert !OnlyLetters(c, kind, payload, room);
    }
  }

  lemma WholeGroupsAlike(a: seq<byte>, b: seq<byte>)
    requires |a| % 4 == 0 && Alike(a, b)
    ensures a == b
  {
    hide Sextet;
    if |a| > 0 {
      SextetNames(a[|a| - 1], b[|a| - 1]);
    }
  }

  // ---- As it runs ----

  /** Armors a payload into a caller's buffer, three bytes to four letters at a time. */
  method Armor(c: Crypto.Scheme, kind: Kind, payload: seq<byte>, out: array<byte>) returns (r: Result<nat>)
    modifies out
    ensures r == if ArmoredLen(|payload|) <= out.Length then Ok(ArmoredLen(|payload|)) else Err(Malformed)
    ensures r.Ok? ==> out[..r.value] == Armored(c, kind, payload) && out[r.value..] == old(out[r.value..])
    ensures r.Err? ==> out[..] == old(out[..])
  {
    hide GroupLetters, Check, Encoded, EncodedLen, Source;
    var total := ArmoredLen(|payload|);
    if total > out.Length {
      return Err(Malformed);
    }
    var source := Source(c, kind, payload);
    SourceLength(c, kind, payload);
    EncodedLength(source);
    NothingEncoded(source);
    WriteAt(out, 0, PREFIX);
    var at := |PREFIX|;
    var i := 0;
    while i < |source|
      invariant i <= |source| && (i % 3 == 0 || i == |source|)
      invariant at == |PREFIX| + |Encoded(source[..i])| && at <= total
      invariant out[..at] == PREFIX + Encoded(source[..i])
      invariant out[total..] == old(out[total..])
    {
      var next := if i + 3 <= |source| then i + 3 else |source|;
      var chars := GroupLetters(source[i..next]);
      EncodedNext(source, i, next);
      WriteAt(out, at, chars);
      Prefixed(Encoded(source[..i]), chars);
      at := at + |chars|;
      i := next;
    }
    assert source[..i] == source;
    return Ok(total);
  }

  lemma NothingEncoded(source: seq<byte>)
    ensures Encoded(source[..0]) == [] && PREFIX + [] == PREFIX
  {
  }

  lemma Prefixed(before: seq<byte>, chars: seq<byte>)
    ensures PREFIX + before + chars == PREFIX + (before + chars)
  {
  }

  lemma EncodedNext(source: seq<byte>, i: nat, next: nat)
    requires i < |source| && i % 3 == 0 && next == if i + 3 <= |source| then i + 3 else |source|
    ensures Encoded(source[..next]) == Encoded(source[..i]) + GroupLetters(source[i..next])
    ensures |Encoded(source[..next])| <= EncodedLen(|source|)
  {
    hide GroupLetters;
    assert source[..next] == source[..i] + source[i..next];
    EncodedSplits(source[..i], source[i..next]);
    assert Encoded(source[i..next]) == GroupLetters(source[i..next]);
    EncodedLength(source[..next]);
  }

  method WriteAt(out: array<byte>, at: nat, bytes: seq<byte>)
    requires at + |bytes| <= out.Length
    modifies out
    ensures out[..at + |bytes|] == old(out[..at]) + bytes
    ensures out[at + |bytes|..] == old(out[at + |bytes|..])
  {
    for i := 0 to |bytes|
      invariant out[..at] == old(out[..at])
      invariant out[at..at + i] == bytes[..i]
      invariant out[at + i..] == old(out[at + i..])
    {
      out[at + i] := bytes[i];
      assert out[at..at + i + 1] == out[at..at + i] + [bytes[i]];
    }
    assert out[..at + |bytes|] == out[..at] + out[at..at + |bytes|];
    assert bytes[..|bytes|] == bytes;
  }

  /** Skips whitespace. */
  method Letters(body: seq<byte>) returns (chars: seq<byte>)
    ensures chars == Filtered(body)
  {
    chars := [];
    for i := 0 to |body|
      invariant chars + Filtered(body[i..]) == Filtered(body)
    {
      assert body[i..][0] == body[i] && body[i..][1..] == body[i + 1..];
      if !IsSpace(body[i]) {
        chars := chars + [body[i]];
      }
    }
    assert body[|body|..] == [];
    assert chars + [] == chars;
  }

  /** Decodes armored text into a caller's buffer, which ends holding the payload at its start. */
  method Unarmor(c: Crypto.Scheme, text: seq<byte>, out: array<byte>) returns (r: Result<(Kind, nat)>)
    modifies out
    ensures match Unarmored(c, text, out.Length)
            case Err(error) => r == Err(error)
            case Ok((kind, payload)) => r == Ok((kind, |payload|)) && |payload| <= out.Length && out[..|payload|] == payload
  {
    hide Inner, Decoded, Check, Filtered;
    var inner := Inner(text);
    if !(PREFIX <= inner) {
      return Err(Malformed);
    }
    var chars := Letters(inner[|PREFIX|..]);
    var written := DecodeInto(chars, out);
    if written.None? {
      return Err(Malformed);
    }
    var bytes := out[..written.value];
    if |bytes| < 1 + CHECK_LEN {
      return Err(Malformed);
    }
    var kind := KindOf(bytes[0]);
    if kind.None? {
      return Err(Malformed);
    }
    var payload := bytes[1..|bytes| - CHECK_LEN];
    if bytes[|bytes| - CHECK_LEN..] != Check(c, kind.value, payload) {
      return Err(Malformed);
    }
    WriteAt(out, 0, payload);
    assert out[..0] == [];
    return Ok((kind.value, |payload|));
  }

  /** The letters' bytes, group by group, while the buffer has room. */
  method DecodeInto(chars: seq<byte>, out: array<byte>) returns (written: Option<nat>)
    modifies out
    ensures written == match Decoded(chars) case None => None case Some(bytes) => if |bytes| > out.Length then None else Some(|bytes|)
    ensures written.Some? ==> Decoded(chars) == Some(out[..written.value])
  {
    hide GroupBytes;
    var at: nat, count: nat := 0, 0;
    assert chars[at..] == chars && out[..count] == [];
    if Decoded(chars).Some? {
      assert [] + Decoded(chars).value == Decoded(chars).value;
    }
    while at < |chars|
      invariant at <= |chars| && count <= out.Length
      invariant Decoded(chars) == match Decoded(chars[at..]) case None => None case Some(rest) => Some(out[..count] + rest)
    {
      var left := chars[at..];
      if |left| == 1 {
        return None;
      }
      var size := if |left| < 4 then |left| else 4;
      GroupSize(left[..size]);
      DecodedStep(left);
      var bytes := GroupBytes(left[..size]);
      if bytes.None? {
        return None;
      }
      if count + |bytes.value| > out.Length {
        return None;
      }
      ghost var done := out[..count];
      WriteAt(out, count, bytes.value);
      assert left[size..] == chars[at + size..];
      Associates(done, bytes.value, Decoded(left[size..]));
      count := count + |bytes.value|;
      at := at + size;
    }
    assert chars[at..] == [] && out[..count] + [] == out[..count];
    return Some(count);
  }

  lemma Associates(a: seq<byte>, b: seq<byte>, rest: Option<seq<byte>>)
    ensures rest.Some? ==> a + (b + rest.value) == (a + b) + rest.value
  {
  }

  lemma GroupSize(chars: seq<byte>)
    requires 2 <= |chars| <= 4
    ensures GroupBytes(chars).Some? ==> |GroupBytes(chars).value| == |chars| - 1
  {
  }

  lemma DecodedStep(chars: seq<byte>)
    requires |chars| >= 2
    ensures var size := if |chars| < 4 then |chars| else 4;
            Decoded(chars) == match GroupBytes(chars[..size])
                              case None => None
                              case Some(bytes) => match Decoded(chars[size..]) case None => None case Some(rest) => Some(bytes + rest)
  {
    hide GroupBytes;
    if |chars| < 4 {
      assert chars[..|chars|] == chars && chars[|chars|..] == [];
      if GroupBytes(chars).Some? {
        assert GroupBytes(chars).value + [] == GroupBytes(chars).value;
      }
    }
  }
}
