/**
 Surrogate escapes in JSON text (internal/instructions/model.go:148-192): the
 one-pass scanner over bytes, and the same question asked token by token.
 */
module SurrogateScanner {
  import opened Options
  import opened ByteCoding

  const QUOTE: Byte := 34
  const BACKSLASH: Byte := 92
  const LOWER_U: Byte := 117

  /** The value of one hexadecimal digit, if it is one. */
  function Digit(b: Byte): Option<nat> {
    if '0' as int <= b <= '9' as int then Some(b - '0' as int)
    else if 'a' as int <= b <= 'f' as int then Some(b - 'a' as int + 10)
    else if 'A' as int <= b <= 'F' as int then Some(b - 'A' as int + 10)
    else None
  }

  /** `strconv.ParseUint` of four bytes in base 16. */
  function Hex(b: seq<Byte>): Option<nat>
    requires |b| == 4
  {
    match (Digit(b[0]), Digit(b[1]), Digit(b[2]), Digit(b[3]))
    case (Some(w), Some(x), Some(y), Some(z)) => Some(4096 * w + 256 * x + 16 * y + z)
    case _ => None
  }

  const LOWER_DIGITS := "0123456789abcdef"
  const UPPER_DIGITS := "0123456789ABCDEF"

  /** The byte is the digit of this value, in either case. */
  predicate Spells(b: Byte, d: nat)
    requires d < 16
  {
    b == LOWER_DIGITS[d] as int || b == UPPER_DIGITS[d] as int
  }

  lemma DigitIsSpelled(b: Byte, d: nat)
    ensures Digit(b) == Some(d) <==> d < 16 && Spells(b, d)
    ensures Digit(b).Some? ==> Digit(b).value < 16
  {
  }

  /** Four bytes have a value exactly when they spell it in base 16, in any mixture of cases. */
  lemma HexIsSpelled(b: seq<Byte>, w: nat, x: nat, y: nat, z: nat)
    requires |b| == 4 && w < 16 && x < 16 && y < 16 && z < 16
    ensures Hex(b) == Some(4096 * w + 256 * x + 16 * y + z) <==>
              Spells(b[0], w) && Spells(b[1], x) && Spells(b[2], y) && Spells(b[3], z)
    ensures Hex(b).None? <==> exists i | 0 <= i < 4 :: forall d: nat | d < 16 :: !Spells(b[i], d)
  {
    hide Digit, Spells;
    DigitIsSpelled(b[0], w);
    DigitIsSpelled(b[1], x);
    DigitIsSpelled(b[2], y);
    DigitIsSpelled(b[3], z);
    NoDigitSpells(b[0]);
    NoDigitSpells(b[1]);
    NoDigitSpells(b[2]);
    NoDigitSpells(b[3]);
    if Hex(b) == Some(4096 * w + 256 * x + 16 * y + z) {
      SameDigits(w, x, y, z, Digit(b[0]).value, Digit(b[1]).value, Digit(b[2]).value, Digit(b[3]).value);
    }
  }

  lemma SameDigits(w: nat, x: nat, y: nat, z: nat, w': nat, x': nat, y': nat, z': nat)
    requires w < 16 && x < 16 && y < 16 && z < 16 && w' < 16 && x' < 16 && y' < 16 && z' < 16
    requires 4096 * w + 256 * x + 16 * y + z == 4096 * w' + 256 * x' + 16 * y' + z'
    ensures w == w' && x == x' && y == y' && z == z'
  {
  }

  lemma NoDigitSpells(b: Byte)
    ensures Digit(b).None? <==> forall d: nat | d < 16 :: !Spells(b, d)
  {
    forall d: nat | d < 16 { DigitIsSpelled(b, d); }
  }

  predicate High(v: nat) { 0xD800 <= v <= 0xDBFF }

  predicate Low(v: nat) { 0xDC00 <= v <= 0xDFFF }

  /** What the scanner decides from outside a string, and from inside one. Malformed text is left to the decoder. */
  predicate Outside(b: seq<Byte>)
    decreases |b|
  {
    b == [] || (if b[0] == QUOTE then Inside(b[1..]) else Outside(b[1..]))
  }

  predicate Inside(b: seq<Byte>)
    decreases |b|
  {
    if b == [] then true
    else if b[0] == QUOTE then Outside(b[1..])
    else if b[0] != BACKSLASH then Inside(b[1..])
    else if |b| < 2 then true
    else if b[1] != LOWER_U then Inside(b[2..])
    else if |b| < 6 || Hex(b[2..6]).None? then true
    else if Low(Hex(b[2..6]).value) then false
    else if !High(Hex(b[2..6]).value) then Inside(b[6..])
    else if |b| < 12 || b[6] != BACKSLASH || b[7] != LOWER_U then false
    else if Hex(b[8..12]).None? || !Low(Hex(b[8..12]).value) then false
    else Inside(b[12..])
  }

  /** The same decision at an index of the text. */
  lemma InsideAt(raw: seq<Byte>, i: nat)
    requires i < |raw|
    ensures Inside(raw[i..]) ==
            if raw[i] == QUOTE then Outside(raw[i + 1..])
            else if raw[i] != BACKSLASH then Inside(raw[i + 1..])
            else if i + 1 >= |raw| then true
            else if raw[i + 1] != LOWER_U then Inside(raw[i + 2..])
            else if i + 5 >= |raw| || Hex(raw[i + 2..i + 6]).None? then true
            else if Low(Hex(raw[i + 2..i + 6]).value) then false
            else if !High(Hex(raw[i + 2..i + 6]).value) then Inside(raw[i + 6..])
            else if i + 11 >= |raw| || raw[i + 6] != BACKSLASH || raw[i + 7] != LOWER_U then false
            else if Hex(raw[i + 8..i + 12]).None? || !Low(Hex(raw[i + 8..i + 12]).value) then false
            else Inside(raw[i + 12..])
  {
    hide Hex, High, Low;
    var b := raw[i..];
    assert b[1..] == raw[i + 1..];
    if |b| >= 2 { assert b[2..] == raw[i + 2..]; }
    if |b| >= 6 { assert b[2..6] == raw[i + 2..i + 6] && b[6..] == raw[i + 6..]; }
    if |b| >= 12 { assert b[8..12] == raw[i + 8..i + 12] && b[12..] == raw[i + 12..]; }
  }

  /** One escape: a verdict, or the position behind it. */
  method ScanEscape(raw: seq<Byte>, start: nat) returns (verdict: Option<bool>, i: nat)
    requires start < |raw| && raw[start] == BACKSLASH
    ensures start < i <= |raw|
    ensures if verdict.Some? then Inside(raw[start..]) == verdict.value else Inside(raw[start..]) == Inside(raw[i..])
  {
    InsideAt(raw, start);
    hide Inside, Outside, Hex, High, Low;
    i := start + 1;
    if i >= |raw| { return Some(true), i; }
    if raw[i] != LOWER_U { return None, i + 1; }
    if i + 4 >= |raw| { return Some(true), i; }
    var value := Hex(raw[i + 1..i + 5]);
    if value.None? { return Some(true), i; }
    i := i + 4;
    if Low(value.value) { return Some(false), i; }
    if High(value.value) {
      if i + 6 >= |raw| || raw[i + 1] != BACKSLASH || raw[i + 2] != LOWER_U { return Some(false), i; }
      var low := Hex(raw[i + 3..i + 7]);
      if low.None? || !Low(low.value) { return Some(false), i; }
      i := i + 6;
    }
    return None, i + 1;
  }

  /** The inner loop: a verdict, or the position behind the closing quote. */
  method ScanString(raw: seq<Byte>, start: nat) returns (verdict: Option<bool>, i: nat)
    requires start <= |raw|
    ensures start <= i <= |raw|
    ensures if verdict.Some? then Inside(raw[start..]) == verdict.value else Inside(raw[start..]) == Outside(raw[i..])
  {
    assert Inside(raw[|raw|..]);
    hide Inside, Outside;
    i := start;
    while i < |raw|
      invariant start <= i <= |raw|
      invariant Inside(raw[start..]) == Inside(raw[i..])
    {
      if raw[i] == BACKSLASH {
        var decided, next := ScanEscape(raw, i);
        if decided.Some? { return decided, i; }
        i := next;
      } else {
        InsideAt(raw, i);
        if raw[i] == QUOTE { return None, i + 1; }
        i := i + 1;
      }
    }
    return Some(true), i;
  }

  /** The index never leaves the text, and the scan ends. */
  method ValidJSONSurrogateEscapes(raw: seq<Byte>) returns (valid: bool)
    ensures valid == Outside(raw)
  {
    var i := 0;
    assert raw[0..] == raw;
    while i < |raw|
      invariant 0 <= i <= |raw|
      invariant Outside(raw) == Outside(raw[i..])
    {
      assert raw[i..][1..] == raw[i + 1..];
      if raw[i] == QUOTE {
        var verdict, next := ScanString(raw, i + 1);
        if verdict.Some? { return verdict.value; }
        i := next;
      } else {
        i := i + 1;
      }
    }
    return true;
  }

  // ----- the token level

  /**
   One character of a JSON string as section 7 of RFC 8259 writes it: a byte of an
   unescaped character, a two-character escape, or a unicode escape of four digits.
   */
  datatype Item = Raw(byte: Byte) | Escape(letter: Byte) | Unicode(digits: seq<Byte>)

  /** A JSON text is strings among other bytes; no other token contains a quote. */
  datatype Piece = Other(bytes: seq<Byte>) | Str(items: seq<Item>)

  predicate ValidItem(x: Item) {
    match x
    case Raw(b) => b != QUOTE && b != BACKSLASH
    case Escape(c) => c != LOWER_U
    case Unicode(digits) => |digits| == 4 && Hex(digits).Some?
  }

  predicate ValidPiece(p: Piece) {
    match p
    case Other(bytes) => QUOTE !in bytes
    case Str(items) => forall x | x in items :: ValidItem(x)
  }

  function ItemBytes(x: Item): seq<Byte> {
    match x
    case Raw(b) => [b]
    case Escape(c) => [BACKSLASH, c]
    case Unicode(digits) => [BACKSLASH, LOWER_U] + digits
  }

  function ItemsBytes(xs: seq<Item>): seq<Byte> {
    if xs == [] then [] else ItemBytes(xs[0]) + ItemsBytes(xs[1..])
  }

  function TextOf(ps: seq<Piece>): seq<Byte> {
    if ps == [] then []
    else
      match ps[0]
      case Other(bytes) => bytes + TextOf(ps[1..])
      case Str(items) => [QUOTE] + (ItemsBytes(items) + ([QUOTE] + TextOf(ps[1..])))
  }

  predicate IsHigh(x: Item) { ValidItem(x) && x.Unicode? && High(Hex(x.digits).value) }

  predicate IsLow(x: Item) { ValidItem(x) && x.Unicode? && Low(Hex(x.digits).value) }

  /** Every high surrogate is followed at once by a low one, and every low one follows a high one. */
  predicate Paired(xs: seq<Item>) {
    && (forall i | 0 <= i < |xs| && IsHigh(xs[i]) :: i + 1 < |xs| && IsLow(xs[i + 1]))
    && (forall i | 0 <= i < |xs| && IsLow(xs[i]) :: 0 < i && IsHigh(xs[i - 1]))
  }

  predicate AllPaired(ps: seq<Piece>) {
    forall p | p in ps && p.Str? :: Paired(p.items)
  }

  lemma PairedTail(xs: seq<Item>, n: nat)
    requires n < |xs| && ((n == 0 && !IsHigh(xs[0]) && !IsLow(xs[0])) || (n == 1 && IsHigh(xs[0]) && IsLow(xs[1])))
    ensures Paired(xs) <==> Paired(xs[n + 1..])
  {
    var ys := xs[n + 1..];
    forall i | 0 <= i < |ys| ensures ys[i] == xs[i + n + 1] {}
    if Paired(ys) {
      forall i | 0 <= i < |xs| && IsHigh(xs[i]) ensures i + 1 < |xs| && IsLow(xs[i + 1]) {
        if i > n { assert IsHigh(ys[i - n - 1]); }
      }
      forall i | 0 <= i < |xs| && IsLow(xs[i]) ensures 0 < i && IsHigh(xs[i - 1]) {
        if i > n { assert IsLow(ys[i - n - 1]); }
      }
    }
    if Paired(xs) {
      forall i | 0 <= i < |ys| && IsHigh(ys[i]) ensures i + 1 < |ys| && IsLow(ys[i + 1]) {
        assert IsHigh(xs[i + n + 1]);
      }
      forall i | 0 <= i < |ys| && IsLow(ys[i]) ensures 0 < i && IsHigh(ys[i - 1]) {
        assert IsLow(xs[i + n + 1]);
      }
    }
  }

  /** Inside a string, the scan agrees with the pairing of the items, and then goes on behind the closing quote. */
  lemma {:induction false} InsideAgrees(xs: seq<Item>, rest: seq<Byte>)
    requires forall x | x in xs :: ValidItem(x)
    ensures Inside(ItemsBytes(xs) + ([QUOTE] + rest)) == (Paired(xs) && Outside(rest))
    decreases |xs|
  {
    var b := ItemsBytes(xs) + ([QUOTE] + rest);
    if xs == [] {
      assert b[0] == QUOTE && b[1..] == rest;
    } else {
      var x := xs[0];
      var c := ItemsBytes(xs[1..]) + ([QUOTE] + rest);
      assert x in xs && b == ItemBytes(x) + c;
      if x.Unicode? {
        UnicodeAgrees(xs, rest, b, c);
      } else {
        assert b[|ItemBytes(x)|..] == c;
        InsideAgrees(xs[1..], rest);
        PairedTail(xs, 0);
      }
    }
  }

  lemma UnicodeAgrees(xs: seq<Item>, rest: seq<Byte>, b: seq<Byte>, c: seq<Byte>)
    requires (forall x | x in xs :: ValidItem(x)) && xs != [] && xs[0].Unicode?
    requires b == ItemBytes(xs[0]) + c && c == ItemsBytes(xs[1..]) + ([QUOTE] + rest)
    ensures Inside(b) == (Paired(xs) && Outside(rest))
    decreases |xs|, 1
  {
    assert xs[0] in xs && ValidItem(xs[0]);
    UnicodeStep(xs[0], b, c);
    LowFirstIsUnpaired(xs);
    hide *;
    if IsLow(xs[0]) {
    } else if !IsHigh(xs[0]) {
      InsideAgrees(xs[1..], rest);
      PairedTail(xs, 0);
    } else if |xs| > 1 && IsLow(xs[1]) {
      PairAgrees(xs, rest, c);
    } else {
      assert forall y | y in xs[1..] :: y in xs;
      NoLowStart(xs[1..], rest);
    }
  }

  lemma LowFirstIsUnpaired(xs: seq<Item>)
    requires xs != []
    ensures IsLow(xs[0]) ==> !Paired(xs)
    ensures IsHigh(xs[0]) && !(|xs| > 1 && IsLow(xs[1])) ==> !Paired(xs)
  {
    hide IsLow, IsHigh;
  }

  lemma PairAgrees(xs: seq<Item>, rest: seq<Byte>, c: seq<Byte>)
    requires (forall x | x in xs :: ValidItem(x)) && |xs| > 1 && IsHigh(xs[0]) && IsLow(xs[1])
    requires c == ItemsBytes(xs[1..]) + ([QUOTE] + rest)
    ensures LowFirst(c) && Inside(c[6..]) == (Paired(xs) && Outside(rest))
    decreases |xs|, 0
  {
    var d := ItemsBytes(xs[2..]) + ([QUOTE] + rest);
    assert xs[1..][0] == xs[1] && xs[1..][1..] == xs[2..];
    assert c == ItemBytes(xs[1]) + d;
    hide Inside, Outside, ItemBytes;
    LowStep(xs[1], c, d);
    InsideAgrees(xs[2..], rest);
    PairedTail(xs, 1);
  }

  /** A low escape starts these bytes. */
  predicate LowFirst(c: seq<Byte>) {
    |c| >= 6 && c[0] == BACKSLASH && c[1] == LOWER_U && Hex(c[2..6]).Some? && Low(Hex(c[2..6]).value)
  }

  lemma UnicodeStep(x: Item, b: seq<Byte>, c: seq<Byte>)
    requires ValidItem(x) && x.Unicode? && b == ItemBytes(x) + c
    ensures Inside(b) == if IsLow(x) then false else if !IsHigh(x) then Inside(c) else LowFirst(c) && Inside(c[6..])
  {
    assert b[0] == BACKSLASH && b[1] == LOWER_U && b[2..6] == x.digits && b[6..] == c;
    hide Hex, High, Low;
    if |c| >= 6 {
      assert b[6] == c[0] && b[7] == c[1] && b[8..12] == c[2..6] && b[12..] == c[6..];
    }
  }

  lemma LowStep(y: Item, c: seq<Byte>, d: seq<Byte>)
    requires IsLow(y) && c == ItemBytes(y) + d
    ensures LowFirst(c) && c[6..] == d
  {
    assert c[2..6] == y.digits;
  }

  lemma NoLowStart(xs: seq<Item>, rest: seq<Byte>)
    requires (forall x | x in xs :: ValidItem(x)) && (xs == [] || !IsLow(xs[0]))
    ensures !LowFirst(ItemsBytes(xs) + ([QUOTE] + rest))
  {
    var c := ItemsBytes(xs) + ([QUOTE] + rest);
    if xs != [] {
      assert xs[0] in xs;
      var d := ItemsBytes(xs[1..]) + ([QUOTE] + rest);
      assert c == ItemBytes(xs[0]) + d;
      if xs[0].Unicode? {
        assert c[2..6] == xs[0].digits;
      }
    }
  }

  lemma {:induction false} OtherAgrees(bytes: seq<Byte>, rest: seq<Byte>)
    requires QUOTE !in bytes
    ensures Outside(bytes + rest) == Outside(rest)
  {
    if bytes == [] {
      assert bytes + rest == rest;
    } else {
      assert (bytes + rest)[1..] == bytes[1..] + rest;
      OtherAgrees(bytes[1..], rest);
    }
  }

  /**
   On every well-formed JSON text the byte scanner answers the token-level question:
   whether every surrogate escape of every string is one half of a high-then-low pair.
   */
  lemma {:induction false} ScannerAgrees(ps: seq<Piece>)
    requires forall p | p in ps :: ValidPiece(p)
    ensures Outside(TextOf(ps)) == AllPaired(ps)
    decreases |ps|
  {
    if ps != [] {
      var rest := TextOf(ps[1..]);
      ScannerAgrees(ps[1..]);
      assert ps[0] in ps && ps == [ps[0]] + ps[1..];
      match ps[0]
      case Other(bytes) => OtherAgrees(bytes, rest);
      case Str(items) =>
        InsideAgrees(items, rest);
        assert TextOf(ps)[1..] == ItemsBytes(items) + ([QUOTE] + rest);
    }
  }
}
