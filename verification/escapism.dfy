/**
 * pkg/escapism/escapism.go: the label codec.
 *
 * A Go string is a sequence of bytes. Ranging over it decodes UTF-8; a rune is represented
 * here by its encoding, so that string(char) is the identity on well-formed runes, and a
 * byte that starts no well-formed rune reads as U+FFFD and takes one byte.
 * The tables behind unicode.IsLower and unicode.IsDigit are the parameter `safe`.
 */
module Escapism {
  import opened Prelude

  type Byte = b: int | 0 <= b < 256

  type Text = seq<Byte>

  const DASH: Byte := 45

  /** U+FFFD, which Go substitutes for an ill-formed byte. */
  const RUNE_ERROR: Text := [0xEF, 0xBF, 0xBD]

  /** The bytes of "escaped-". */
  const PREFIX: Text := [101, 115, 99, 97, 112, 101, 100, 45]

  predicate Tail(b: Byte) {
    0x80 <= b <= 0xBF
  }

  /** The length of the well-formed rune at the front of s (section 4 of RFC 3629), or 0. */
  function RuneWidth(s: Text): (w: nat)
    ensures w <= |s| && w <= 4
  {
    if |s| >= 1 && s[0] <= 0x7F then 1
    else if |s| >= 2 && 0xC2 <= s[0] <= 0xDF && Tail(s[1]) then 2
    else if |s| >= 3 && Tail(s[1]) && Tail(s[2])
            && ((s[0] == 0xE0 && s[1] >= 0xA0) || 0xE1 <= s[0] <= 0xEC
                || (s[0] == 0xED && s[1] <= 0x9F) || 0xEE <= s[0] <= 0xEF) then 3
    else if |s| >= 4 && Tail(s[1]) && Tail(s[2]) && Tail(s[3])
            && ((s[0] == 0xF0 && s[1] >= 0x90) || 0xF1 <= s[0] <= 0xF3
                || (s[0] == 0xF4 && s[1] <= 0x8F)) then 4
    else 0
  }

  /** The code points that UTF-8 encodes: no surrogates (section 3 of RFC 3629). */
  predicate Scalar(c: int) {
    0 <= c <= 0x10FFFF && !(0xD800 <= c <= 0xDFFF)
  }

  /** The UTF-8 encoding of a code point. */
  function Utf8(c: int): Text
    requires Scalar(c)
  {
    if c < 0x80 then [c]
    else if c < 0x800 then [0xC0 + c / 64, 0x80 + c % 64]
    else if c < 0x10000 then [0xE0 + c / 4096, 0x80 + c / 64 % 64, 0x80 + c % 64]
    else [0xF0 + c / 262144, 0x80 + c / 4096 % 64, 0x80 + c / 64 % 64, 0x80 + c % 64]
  }

  /** A further byte of six bits. */
  function Shift(high: int, b: Byte): int {
    high * 64 + (b as int - 0x80)
  }

  function Lead(b: Byte, base: int): int {
    b as int - base
  }

  /** The code point that the bits of one to four bytes make. */
  function CodePoint(r: Text): int {
    if |r| == 1 then Lead(r[0], 0)
    else if |r| == 2 then Shift(Lead(r[0], 0xC0), r[1])
    else if |r| == 3 then Shift(Shift(Lead(r[0], 0xE0), r[1]), r[2])
    else if |r| == 4 then Shift(Shift(Shift(Lead(r[0], 0xF0), r[1]), r[2]), r[3])
    else -1
  }

  /** A well-formed rune is the encoding of a code point. */
  lemma RuneIsUtf8(s: Text)
    requires RuneWidth(s) > 0
    ensures var r := s[..RuneWidth(s)]; Scalar(CodePoint(r)) && r == Utf8(CodePoint(r))
  {
    var r := s[..RuneWidth(s)];
    if |r| == 2 {
      Shifted(Lead(r[0], 0xC0), r[1]);
    } else if |r| == 3 {
      var a := Lead(r[0], 0xE0);
      var b := Shift(a, r[1]);
      Shifted(a, r[1]);
      Shifted(b, r[2]);
      Quotients(Shift(b, r[2]));
    } else if |r| == 4 {
      var a := Lead(r[0], 0xF0);
      var b := Shift(a, r[1]);
      var c := Shift(b, r[2]);
      Shifted(a, r[1]);
      Shifted(b, r[2]);
      Shifted(c, r[3]);
      Quotients(Shift(c, r[3]));
    }
  }

  lemma Shifted(high: int, b: Byte)
    requires Tail(b)
    ensures Shift(high, b) / 64 == high && Shift(high, b) % 64 == b as int - 0x80
  {
  }

  lemma Quotients(c: int)
    requires c >= 0
    ensures c / 4096 == c / 64 / 64 && c / 262144 == c / 64 / 64 / 64
  {
  }

  /** And the encoding of every code point is one well-formed rune, whatever follows it. */
  lemma Utf8IsRune(c: int, rest: Text)
    requires Scalar(c)
    ensures RuneWidth(Utf8(c) + rest) == |Utf8(c)| && FirstRune(Utf8(c) + rest) == (Utf8(c), |Utf8(c)|)
  {
  }

  /** What one turn of `for _, char := range input` reads: the rune, and how far it moves. */
  function FirstRune(s: Text): (r: (Text, nat))
    requires s != []
    ensures 0 < r.1 <= |s| && 0 < |r.0|
  {
    var w := RuneWidth(s);
    if w == 0 then (RUNE_ERROR, 1) else (s[..w], w)
  }

  /** s is well-formed UTF-8: a concatenation of well-formed runes. */
  predicate ValidUtf8(s: Text) {
    s == [] || (RuneWidth(s) > 0 && ValidUtf8(s[RuneWidth(s)..]))
  }

  /** What the tables must say of the two runes the codec depends on. */
  predicate Table(safe: Text -> bool) {
    !safe([DASH]) && !safe(RUNE_ERROR)
  }

  function HexDigit(n: int): Byte
    requires 0 <= n < 16
  {
    if n < 10 then 48 + n else 87 + n
  }

  /** hex.DecodeString accepts both letter cases. */
  function HexValue(b: Byte): Option<int> {
    if 48 <= b <= 57 then Some(b - 48)
    else if 97 <= b <= 102 then Some(b - 87)
    else if 65 <= b <= 70 then Some(b - 55)
    else None
  }

  function EscapedBytes(c: Text, escape: Text): Text {
    if c == [] then []
    else escape + [HexDigit(c[0] / 16), HexDigit(c[0] % 16)] + EscapedBytes(c[1..], escape)
  }

  method EscapeChar(c: Text, escape: Text) returns (safechars: Text)
    ensures safechars == EscapedBytes(c, escape)
  {
    safechars := [];
    for i := 0 to |c|
      invariant safechars + EscapedBytes(c[i..], escape) == EscapedBytes(c, escape)
    {
      safechars := safechars + escape;
      safechars := safechars + [HexDigit(c[i] / 16), HexDigit(c[i] % 16)];
      assert c[i..][1..] == c[i + 1..];
    }
  }

  function EscapedRune(r: Text, safe: Text -> bool): Text {
    if safe(r) then r else EscapedBytes(r, [DASH])
  }

  /** The label of s, rune by rune. */
  function Escaped(s: Text, safe: Text -> bool): Text {
    if s == [] then []
    else
      var (r, w) := FirstRune(s);
      EscapedRune(r, safe) + Escaped(s[w..], safe)
  }

  lemma Assoc(a: Text, b: Text, c: Text)
    ensures a + (b + c) == a + b + c
  {
  }

  lemma EscapedFrom(s: Text, at: nat, safe: Text -> bool, sofar: Text)
    requires at < |s|
    ensures var (r, w) := FirstRune(s[at..]);
            sofar + Escaped(s[at..], safe) == sofar + EscapedRune(r, safe) + Escaped(s[at + w..], safe)
  {
    var (r, w) := FirstRune(s[at..]);
    assert s[at..][w..] == s[at + w..];
    Assoc(sofar, EscapedRune(r, safe), Escaped(s[at + w..], safe));
  }

  method EscapeToDNSLabel(input: Text, safe: Text -> bool) returns (safestring: Text)
    ensures safestring == Escaped(input, safe)
  {
    safestring := [];
    var at := 0;
    while at < |input|
      invariant 0 <= at <= |input|
      invariant safestring + Escaped(input[at..], safe) == Escaped(input, safe)
    {
      var (rune, width) := FirstRune(input[at..]);
      ghost var sofar := safestring;
      if !safe(rune) {
        var escaped := EscapeChar(rune, [DASH]);
        safestring := safestring + escaped;
      } else {
        safestring := safestring + rune;
      }
      EscapedFrom(input, at, safe, sofar);
      at := at + width;
    }
  }

  /** What decoding meets: the bytes, a pair that is not hex, or the end inside a pair. */
  datatype Decoded = Bytes(bytes: Text) | NotHex | OutOfRange

  /** UnescapeDNSLabel returns a string, or panics when it slices past the end. */
  datatype Unescaping = Returned(text: Text) | Panicked

  function Prepend(front: Text, d: Decoded): Decoded {
    match d
    case Bytes(b) => Bytes(front + b)
    case _ => d
  }

  function Decode(s: Text): Decoded {
    if s == [] then Bytes([])
    else if s[0] != DASH then Prepend([s[0]], Decode(s[1..]))
    else if |s| < 3 then OutOfRange
    else
      match (HexValue(s[1]), HexValue(s[2]))
      case (Some(hi), Some(lo)) => Prepend([hi * 16 + lo], Decode(s[3..]))
      case _ => NotHex
  }

  function Unescaped(s: Text): Unescaping {
    match Decode(s)
    case Bytes(b) => Returned(b)
    case NotHex => Returned([])
    case OutOfRange => Panicked
  }

  /** Decoding from position i, with what was decoded before it. */
  lemma DecodeFrom(front: Text, s: Text, i: nat)
    requires i < |s|
    ensures Prepend(front, Decode(s[i..]))
            == if s[i] != DASH then Prepend(front + [s[i]], Decode(s[i + 1..]))
               else if i + 3 > |s| then OutOfRange
               else
                 match (HexValue(s[i + 1]), HexValue(s[i + 2]))
                 case (Some(hi), Some(lo)) => Prepend(front + [hi * 16 + lo], Decode(s[i + 3..]))
                 case _ => NotHex
  {
    var rest := s[i..];
    if s[i] != DASH {
      assert rest[1..] == s[i + 1..];
      PrependTwice(front, [s[i]], Decode(s[i + 1..]));
    } else if i + 3 <= |s| {
      assert rest[3..] == s[i + 3..];
      match (HexValue(s[i + 1]), HexValue(s[i + 2]))
      case (Some(hi), Some(lo)) => PrependTwice(front, [hi * 16 + lo], Decode(s[i + 3..]));
      case _ =>
    }
  }

  method UnescapeDNSLabel(input: Text) returns (r: Unescaping)
    ensures r == Unescaped(input)
  {
    var bytestring: Text := [];
    var index := 0;
    while index < |input|
      invariant 0 <= index <= |input|
      invariant Prepend(bytestring, Decode(input[index..])) == Decode(input)
    {
      DecodeFrom(bytestring, input, index);
      var bytechar := input[index];
      if bytechar == DASH {
        if index + 3 > |input| {
          return Panicked;
        }
        match (HexValue(input[index + 1]), HexValue(input[index + 2]))
        case (Some(hi), Some(lo)) =>
          bytestring := bytestring + [hi * 16 + lo];
          index := index + 2;
        case _ =>
          return Returned([]);
      } else {
        bytestring := bytestring + [bytechar];
      }
      index := index + 1;
    }
    r := Returned(bytestring);
  }

  function PrimehubLabel(s: Text, safe: Text -> bool): Text {
    PREFIX + Escaped(s, safe)
  }

  function UnescapedPrimehubLabel(s: Text): Unescaping {
    if |s| < 8 then Panicked else Unescaped(s[8..])
  }

  // ---- what the codec is for ----

  lemma PrependTwice(a: Text, b: Text, d: Decoded)
    ensures Prepend(a, Prepend(b, d)) == Prepend(a + b, d)
  {
    match d
    case Bytes(c) => assert a + (b + c) == (a + b) + c;
    case _ =>
  }

  /** The string a range loop sees: every ill-formed byte replaced by U+FFFD. */
  function Sanitized(s: Text): Text {
    if s == [] then []
    else
      var (r, w) := FirstRune(s);
      r + Sanitized(s[w..])
  }

  lemma {:induction false} DecodeEscapedBytes(c: Text, rest: Text)
    ensures Decode(EscapedBytes(c, [DASH]) + rest) == Prepend(c, Decode(rest))
  {
    if c == [] {
      assert EscapedBytes(c, [DASH]) + rest == rest;
      match Decode(rest) case Bytes(b) => assert [] + b == b; case _ =>
    } else {
      var all := EscapedBytes(c, [DASH]) + rest;
      var tail := EscapedBytes(c[1..], [DASH]) + rest;
      var hi, lo := HexDigit(c[0] / 16), HexDigit(c[0] % 16);
      assert all == [DASH, hi, lo] + tail;
      assert all[3..] == tail && all[1] == hi && all[2] == lo;
      assert HexValue(hi) == Some(c[0] / 16) && HexValue(lo) == Some(c[0] % 16);
      DecodeEscapedBytes(c[1..], rest);
      assert Decode(all) == Prepend([c[0]], Decode(tail));
      PrependTwice([c[0]], c[1..], Decode(rest));
      assert [c[0]] + c[1..] == c;
    }
  }

  lemma {:induction false} DecodePlain(c: Text, rest: Text)
    requires DASH !in c
    ensures Decode(c + rest) == Prepend(c, Decode(rest))
  {
    if c == [] {
      assert c + rest == rest;
      match Decode(rest) case Bytes(b) => assert [] + b == b; case _ =>
    } else {
      assert (c + rest)[0] == c[0] != DASH;
      assert (c + rest)[1..] == c[1..] + rest;
      DecodePlain(c[1..], rest);
      PrependTwice([c[0]], c[1..], Decode(rest));
      assert [c[0]] + c[1..] == c;
    }
  }

  /** Decoding undoes escaping on what the range loop saw, for every input. */
  lemma {:induction false} DecodeEscaped(s: Text, safe: Text -> bool)
    requires Table(safe)
    ensures Decode(Escaped(s, safe)) == Bytes(Sanitized(s))
  {
    if s != [] {
      var (r, w) := FirstRune(s);
      DecodeEscaped(s[w..], safe);
      var rest := Escaped(s[w..], safe);
      if safe(r) {
        assert r != [DASH];
        assert |r| == 1 || forall b :: b in r ==> b > 0x7F;
        DecodePlain(r, rest);
      } else {
        DecodeEscapedBytes(r, rest);
      }
    }
  }

  lemma {:induction false} SanitizedLength(s: Text)
    ensures |Sanitized(s)| >= |s|
    ensures ValidUtf8(s) <==> |Sanitized(s)| == |s|
    ensures ValidUtf8(s) ==> Sanitized(s) == s
  {
    if s != [] {
      var (r, w) := FirstRune(s);
      SanitizedLength(s[w..]);
      if RuneWidth(s) > 0 {
        assert s == s[..w] + s[w..];
      }
    }
  }

  /** UnescapeDNSLabel(EscapeToDNSLabel(s)) never slices past the end, and it gives s back
      exactly when s is well-formed UTF-8. */
  lemma RoundTrip(s: Text, safe: Text -> bool)
    requires Table(safe)
    ensures Unescaped(Escaped(s, safe)) == Returned(Sanitized(s))
    ensures Unescaped(Escaped(s, safe)) == Returned(s) <==> ValidUtf8(s)
    ensures UnescapedPrimehubLabel(PrimehubLabel(s, safe)) == Unescaped(Escaped(s, safe))
  {
    DecodeEscaped(s, safe);
    SanitizedLength(s);
    assert PrimehubLabel(s, safe)[8..] == Escaped(s, safe);
  }

  /** Escaping looks only at what the range loop sees. */
  lemma {:induction false} EscapedSanitized(s: Text, t: Text, safe: Text -> bool)
    requires Sanitized(s) == Sanitized(t)
    ensures Escaped(s, safe) == Escaped(t, safe)
  {
    if s == [] {
      SanitizedLength(t);
    } else if t == [] {
      SanitizedLength(s);
    } else {
      var (r, w) := FirstRune(s);
      var (q, v) := FirstRune(t);
      SameFirstRune(r, Sanitized(s[w..]), q, Sanitized(t[v..]));
      EscapedSanitized(s[w..], t[v..], safe);
    }
  }

  /** A well-formed rune is never a proper prefix of another. */
  lemma SameFirstRune(r: Text, s: Text, q: Text, t: Text)
    requires RuneWidth(r) == |r| > 0 && RuneWidth(q) == |q| > 0
    requires r + s == q + t
    ensures r == q && s == t
  {
    var a := r + s;
    assert a[..|r|] == r && a[|r|..] == s;
    assert a[..|q|] == q && a[|q|..] == t;
    assert forall i :: 0 <= i < |r| ==> a[i] == r[i];
    assert forall i :: 0 <= i < |q| ==> a[i] == q[i];
  }

  /** Two names get the same label exactly when they decode alike, so labels are injective on
      well-formed names. */
  lemma LabelsInjective(s: Text, t: Text, safe: Text -> bool)
    requires Table(safe)
    ensures PrimehubLabel(s, safe) == PrimehubLabel(t, safe) <==> Sanitized(s) == Sanitized(t)
    ensures ValidUtf8(s) && ValidUtf8(t)
            ==> (PrimehubLabel(s, safe) == PrimehubLabel(t, safe) <==> s == t)
  {
    var a, b := PrimehubLabel(s, safe), PrimehubLabel(t, safe);
    assert a[8..] == Escaped(s, safe) && b[8..] == Escaped(t, safe);
    DecodeEscaped(s, safe);
    DecodeEscaped(t, safe);
    SanitizedLength(s);
    SanitizedLength(t);
    if Sanitized(s) == Sanitized(t) {
      EscapedSanitized(s, t, safe);
    }
  }

  /** Letters a-z, digits and the dash. */
  predicate LabelChar(b: Byte) {
    97 <= b <= 122 || 48 <= b <= 57 || b == DASH
  }

  predicate LabelSafe(s: Text) {
    forall b :: b in s ==> LabelChar(b)
  }

  /** The tables agree with ASCII on one-byte runes. */
  predicate AsciiTable(safe: Text -> bool) {
    forall b: Byte :: b <= 0x7F ==> (safe([b]) <==> (97 <= b <= 122 || 48 <= b <= 57))
  }

  /** Some rune of s is a lower-case letter or digit beyond ASCII. */
  predicate HasForeignLetter(s: Text, safe: Text -> bool) {
    s != [] && (var (r, w) := FirstRune(s); (|r| > 1 && safe(r)) || HasForeignLetter(s[w..], safe))
  }

  lemma {:induction false} EscapedBytesSafe(c: Text)
    ensures LabelSafe(EscapedBytes(c, [DASH]))
  {
    if c != [] {
      EscapedBytesSafe(c[1..]);
    }
  }

  /** The label uses only label characters exactly when the name holds no lower-case letter or
      digit beyond ASCII: such a rune is passed through unescaped. */
  lemma {:induction false} LabelAlphabet(s: Text, safe: Text -> bool)
    requires Table(safe) && AsciiTable(safe)
    ensures LabelSafe(Escaped(s, safe)) <==> !HasForeignLetter(s, safe)
  {
    if s != [] {
      var (r, w) := FirstRune(s);
      LabelAlphabet(s[w..], safe);
      var front, rest := EscapedRune(r, safe), Escaped(s[w..], safe);
      assert Escaped(s, safe) == front + rest;
      assert LabelSafe(front + rest) <==> LabelSafe(front) && LabelSafe(rest) by {
        assert forall b :: b in front + rest <==> b in front || b in rest;
      }
      if safe(r) {
        if |r| > 1 {
          assert r[0] in r && r[0] > 0x7F;
        } else {
          assert r == [r[0]];
        }
      } else {
        EscapedBytesSafe(r);
      }
    }
  }

  lemma {:induction false} EscapedNotShorter(s: Text, safe: Text -> bool)
    ensures |Escaped(s, safe)| >= |s|
  {
    if s != [] {
      var (r, w) := FirstRune(s);
      EscapedNotShorter(s[w..], safe);
      EscapedBytesLength(r);
    }
  }

  lemma {:induction false} EscapedBytesLength(c: Text)
    ensures |EscapedBytes(c, [DASH])| == 3 * |c|
  {
    if c != [] {
      EscapedBytesLength(c[1..]);
    }
  }

  /** Every rune that the range loop sees is a lower-case letter or a digit. */
  predicate AllSafe(s: Text, safe: Text -> bool) {
    s == [] || (var (r, w) := FirstRune(s); safe(r) && AllSafe(s[w..], safe))
  }

  lemma FirstSafe(s: Text, safe: Text -> bool)
    requires s != [] && Table(safe) && safe(FirstRune(s).0)
    ensures FirstRune(s).0 + s[FirstRune(s).1..] == s
  {
  }

  lemma {:induction false} SafeIsKept(s: Text, safe: Text -> bool)
    requires Table(safe) && AllSafe(s, safe)
    ensures Escaped(s, safe) == s
  {
    if s != [] {
      FirstSafe(s, safe);
      SafeIsKept(s[FirstRune(s).1..], safe);
    }
  }

  /** A rune that is escaped makes the string longer. */
  lemma {:induction false} UnsafeLengthens(s: Text, safe: Text -> bool)
    requires !AllSafe(s, safe)
    ensures |Escaped(s, safe)| > |s|
  {
    var (r, w) := FirstRune(s);
    if safe(r) {
      UnsafeLengthens(s[w..], safe);
    } else {
      EscapedNotShorter(s[w..], safe);
      EscapedBytesLength(r);
    }
  }

  /** A string is its own escape exactly when it has nothing but lower-case letters and digits. */
  lemma KeptExactly(s: Text, safe: Text -> bool)
    requires Table(safe)
    ensures Escaped(s, safe) == s <==> AllSafe(s, safe)
  {
    if AllSafe(s, safe) {
      SafeIsKept(s, safe);
    } else {
      UnsafeLengthens(s, safe);
    }
  }

  /** Is the byte one of a-z, 0-9? */
  predicate PlainByte(b: Byte) {
    97 <= b <= 122 || 48 <= b <= 57
  }

  /** A name of such letters and digits is labelled "escaped-" and itself. */
  lemma PlainNameLabel(s: Text, safe: Text -> bool)
    requires Table(safe) && AsciiTable(safe) && forall b :: b in s ==> PlainByte(b)
    ensures PrimehubLabel(s, safe) == [101, 115, 99, 97, 112, 101, 100, 45] + s
  {
    PlainIsSafe(s, safe);
    SafeIsKept(s, safe);
  }

  lemma {:induction false} PlainIsSafe(s: Text, safe: Text -> bool)
    requires AsciiTable(safe) && forall b :: b in s ==> PlainByte(b)
    ensures AllSafe(s, safe)
  {
    if s != [] {
      assert s[0] in s;
      assert s[..1] == [s[0]];
      PlainIsSafe(s[1..], safe);
    }
  }

  /** The value of a hexadecimal digit, in either case. */
  predicate IsNibble(b: Byte, v: int) {
    || (48 <= b <= 57 && v == b - 48)
    || (97 <= b <= 102 && v == b - 97 + 10)
    || (65 <= b <= 70 && v == b - 65 + 10)
  }

  /** What a dash at the front stands for. */
  lemma DecodeDash(rest: Text)
    ensures |rest| < 2 ==> Decode([DASH] + rest) == OutOfRange
    ensures |rest| >= 2 && !((exists v :: IsNibble(rest[0], v)) && (exists v :: IsNibble(rest[1], v)))
            ==> Decode([DASH] + rest) == NotHex
    ensures forall hi, lo :: |rest| >= 2 && IsNibble(rest[0], hi) && IsNibble(rest[1], lo) ==>
              Decode([DASH] + rest) == Prepend([hi * 16 + lo], Decode(rest[2..]))
  {
    var tail := [DASH] + rest;
    if |rest| >= 2 {
      assert tail[3..] == rest[2..] && tail[1] == rest[0] && tail[2] == rest[1];
      NibbleExactly(rest[0]);
      NibbleExactly(rest[1]);
    }
  }

  /**
   * Unescaping up to the first dash: what has no dash is itself; a dash takes the two bytes
   * after it, which is a slice past the end if there are not two; if they are not hexadecimal
   * the whole comes to nothing, and if they are they stand for one byte.
   */
  lemma UnescapedExactly(front: Text, rest: Text)
    requires DASH !in front
    ensures Unescaped(front) == Returned(front)
    ensures |rest| < 2 ==> Unescaped(front + ([DASH] + rest)) == Panicked
    ensures |rest| >= 2 && !((exists v :: IsNibble(rest[0], v)) && (exists v :: IsNibble(rest[1], v)))
            ==> Unescaped(front + ([DASH] + rest)) == Returned([])
    ensures forall hi, lo :: |rest| >= 2 && IsNibble(rest[0], hi) && IsNibble(rest[1], lo) ==>
              Decode(front + ([DASH] + rest)) == Prepend(front + [hi * 16 + lo], Decode(rest[2..]))
  {
    DecodeNoDash(front);
    DecodePlain(front, [DASH] + rest);
    DecodeDash(rest);
    forall hi, lo | |rest| >= 2 && IsNibble(rest[0], hi) && IsNibble(rest[1], lo)
      ensures Decode(front + ([DASH] + rest)) == Prepend(front + [hi * 16 + lo], Decode(rest[2..]))
    {
      PrependTwice(front, [hi * 16 + lo], Decode(rest[2..]));
    }
  }

  /** A label is unescaped from its ninth byte on, and a shorter one is a slice past the end. */
  lemma UnlabelledExactly(prefix: Text, s: Text)
    requires |prefix| <= 8 && (|prefix| < 8 ==> s == [])
    ensures UnescapedPrimehubLabel(prefix + s) == if |prefix| < 8 then Panicked else Unescaped(s)
  {
    assert |prefix| == 8 ==> (prefix + s)[8..] == s;
  }

  lemma DecodeNoDash(front: Text)
    requires DASH !in front
    ensures Decode(front) == Bytes(front)
  {
    DecodePlain(front, []);
    assert front + [] == front;
  }

  lemma NibbleExactly(b: Byte)
    ensures HexValue(b).Some? <==> exists v :: IsNibble(b, v)
    ensures forall v :: IsNibble(b, v) ==> HexValue(b) == Some(v) && 0 <= v < 16
  {
    if HexValue(b).Some? {
      assert IsNibble(b, HexValue(b).value);
    }
  }

  /** Labelling always lengthens, so no name is its own label. */
  lemma LabelIsNotName(s: Text, safe: Text -> bool)
    ensures |PrimehubLabel(s, safe)| >= |s| + 8
    ensures PrimehubLabel(s, safe) != s
  {
    EscapedNotShorter(s, safe);
  }
}
