/**
 Bytes, big-endian integers, length-prefixed text, and a reader of each:
 what the canonical manifest and the environment frames are made of.
 */
module ByteCoding {
  import opened Options

  type Byte = x: int | 0 <= x < 256
  type Text = seq<Byte>

  /** Every Go slice and string is shorter than this. */
  const SLICE_LIMIT := 0x8000_0000_0000_0000
  const WORD := 0x1_0000_0000_0000_0000

  /** A Go `int` on a 64-bit platform. */
  type Int64 = x: int | -0x8000_0000_0000_0000 <= x < 0x8000_0000_0000_0000

  /** The bytes of an ASCII literal. */
  function Ascii(s: string): (t: Text)
    ensures |t| == |s|
  {
    seq(|s|, i requires 0 <= i < |s| => s[i] as int % 256)
  }

  /** How many values k bytes can hold. */
  function Capacity(k: nat): nat { if k == 0 then 1 else 256 * Capacity(k - 1) }

  function BigEndian(n: nat, k: nat): (b: seq<Byte>)
    ensures |b| == k
  {
    if k == 0 then [] else BigEndian(n / 256, k - 1) + [n % 256]
  }

  function Value(b: seq<Byte>): nat {
    if b == [] then 0 else 256 * Value(b[..|b| - 1]) + b[|b| - 1]
  }

  lemma {:induction false} BigEndianRoundTrip(n: nat, k: nat)
    requires n < Capacity(k)
    ensures Value(BigEndian(n, k)) == n
  {
    if k > 0 {
      BigEndianRoundTrip(n / 256, k - 1);
      assert BigEndian(n, k)[..k - 1] == BigEndian(n / 256, k - 1);
    }
  }

  lemma {:induction false} ValueRoundTrip(b: seq<Byte>)
    ensures Value(b) < Capacity(|b|) && BigEndian(Value(b), |b|) == b
  {
    if b != [] {
      ValueRoundTrip(b[..|b| - 1]);
    }
  }

  lemma Capacities()
    ensures Capacity(2) == 0x1_0000 && Capacity(4) == 0x1_0000_0000 && Capacity(8) == WORD
  {
    assert Capacity(2) == 0x1_0000;
    assert Capacity(4) == 0x1_0000_0000;
    assert Capacity(6) == 0x1_0000_0000_0000;
  }

  /** `uint64(value)`: two's complement for a negative Go int. */
  function Unsigned(n: Int64): nat { if n < 0 then n + WORD else n }

  function Signed(n: nat): int { if n < SLICE_LIMIT then n else n - WORD }

  function PutUint(n: nat): seq<Byte> { BigEndian(n, 8) }

  function PutText(t: Text): seq<Byte> { PutUint(|t|) + t }

  function PutTexts(ts: seq<Text>): seq<Byte> {
    if ts == [] then [] else PutText(ts[0]) + PutTexts(ts[1..])
  }

  datatype Parse<+T> = Fail | Got(value: T, rest: seq<Byte>) {
    predicate IsFailure() { Fail? }

    function PropagateFailure<U>(): Parse<U>
      requires Fail?
    {
      Fail
    }

    function Extract(): (T, seq<Byte>)
      requires Got?
    {
      (value, rest)
    }
  }

  function ReadUint(b: seq<Byte>): Parse<nat> {
    if |b| < 8 then Fail else Got(Value(b[..8]), b[8..])
  }

  function ReadText(b: seq<Byte>): Parse<Text> {
    var (n, b1) :- ReadUint(b);
    if |b1| < n then Fail else Got(b1[..n], b1[n..])
  }

  function ReadTexts(b: seq<Byte>, n: nat): (r: Parse<seq<Text>>)
    ensures r.Got? ==> |r.value| == n
  {
    if n == 0 then Got([], b)
    else
      var (t, b1) :- ReadText(b);
      var (ts, b2) :- ReadTexts(b1, n - 1);
      Got([t] + ts, b2)
  }

  lemma UintRoundTrip(n: nat, rest: seq<Byte>)
    requires n < WORD
    ensures ReadUint(PutUint(n) + rest) == Got(n, rest)
  {
    Capacities();
    BigEndianRoundTrip(n, 8);
    assert (PutUint(n) + rest)[..8] == PutUint(n);
    assert (PutUint(n) + rest)[8..] == rest;
  }

  lemma TextRoundTrip(t: Text, rest: seq<Byte>)
    requires |t| < WORD
    ensures ReadText(PutText(t) + rest) == Got(t, rest)
  {
    assert PutText(t) + rest == PutUint(|t|) + (t + rest);
    UintRoundTrip(|t|, t + rest);
    assert (t + rest)[..|t|] == t && (t + rest)[|t|..] == rest;
  }

  lemma {:induction false} TextsRoundTrip(ts: seq<Text>, rest: seq<Byte>)
    requires |PutTexts(ts)| < WORD
    ensures ReadTexts(PutTexts(ts) + rest, |ts|) == Got(ts, rest)
  {
    if ts == [] {
      assert PutTexts(ts) + rest == rest;
    } else {
      assert |PutTexts(ts)| >= |ts[0]|;
      hide PutText, ReadText;
      assert PutTexts(ts) + rest == PutText(ts[0]) + (PutTexts(ts[1..]) + rest);
      TextRoundTrip(ts[0], PutTexts(ts[1..]) + rest);
      TextsRoundTrip(ts[1..], rest);
      assert [ts[0]] + ts[1..] == ts;
    }
  }

  lemma {:induction false} TextsAppend(ts: seq<Text>, t: Text)
    ensures PutTexts(ts + [t]) == PutTexts(ts) + PutText(t)
  {
    if ts == [] {
      assert ts + [t] == [t];
    } else {
      assert (ts + [t])[1..] == ts[1..] + [t];
      TextsAppend(ts[1..], t);
    }
  }

  /** Each text takes at least eight bytes, so a buffer bounds how many it holds. */
  lemma {:induction false} TextsCount(ts: seq<Text>)
    ensures 8 * |ts| <= |PutTexts(ts)|
  {
    if ts != [] {
      TextsCount(ts[1..]);
    }
  }

  /** Two texts of different lengths never start the same bytes. */
  lemma PrefixesDiffer(t: Text, u: Text, rest: seq<Byte>)
    requires |t| < WORD && |u| < WORD && |t| != |u|
    ensures !(PutText(t) <= PutText(u) + rest)
  {
    if PutText(t) <= PutText(u) + rest {
      var b := PutText(u) + rest;
      assert b == PutText(t) + b[|PutText(t)|..] == PutUint(|t|) + (t + b[|PutText(t)|..]);
      assert b == PutUint(|u|) + (u + rest);
      UintRoundTrip(|t|, t + b[|PutText(t)|..]);
      UintRoundTrip(|u|, u + rest);
    }
  }

  /** The byte order of Go strings and of `bytes.Compare`. */
  predicate Below(a: Text, b: Text) {
    b != [] && (a == [] || a[0] < b[0] || (a[0] == b[0] && Below(a[1..], b[1..])))
  }

  lemma {:induction false} BelowIsTotal(a: Text, b: Text)
    ensures a == b <==> !Below(a, b) && !Below(b, a)
    ensures !(Below(a, b) && Below(b, a))
  {
    if a != [] && b != [] {
      BelowIsTotal(a[1..], b[1..]);
      assert a == [a[0]] + a[1..] && b == [b[0]] + b[1..];
    }
  }

  lemma {:induction false} BelowIsTransitive(a: Text, b: Text, c: Text)
    requires Below(a, b) && Below(b, c)
    ensures Below(a, c)
  {
    if a != [] && a[0] == b[0] == c[0] {
      BelowIsTransitive(a[1..], b[1..], c[1..]);
    }
  }

  const EQUALS: Byte := '=' as int

  /** `strings.Cut` at the first equals sign. */
  function Cut(t: Text): Option<(Text, Text)> {
    if t == [] then None
    else if t[0] == EQUALS then Some(([], t[1..]))
    else
      match Cut(t[1..])
      case None => None
      case Some((before, after)) => Some(([t[0]] + before, after))
  }

  lemma {:induction false} CutSplits(t: Text)
    ensures match Cut(t)
            case None => EQUALS !in t
            case Some((before, after)) => t == before + ([EQUALS] + after) && EQUALS !in before
  {
    if t != [] && t[0] != EQUALS {
      CutSplits(t[1..]);
      assert t == [t[0]] + t[1..];
    }
  }

  lemma {:induction false} CutJoins(before: Text, after: Text)
    requires EQUALS !in before
    ensures Cut(before + ([EQUALS] + after)) == Some((before, after))
  {
    var t := before + ([EQUALS] + after);
    if before == [] {
      assert t[0] == EQUALS && t[1..] == after;
    } else {
      assert t[0] == before[0] && t[1..] == before[1..] + ([EQUALS] + after);
      CutJoins(before[1..], after);
      assert [before[0]] + before[1..] == before;
    }
  }
}
