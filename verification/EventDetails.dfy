/** Cutting oversized event details to the longest preview whose JSON envelope fits. */
module EventDetails {
  import opened Common
  import opened Utf8
  import Decimal

  const DETAIL_MAX_BYTES := 4 * 1024

  function Ascii(s: string): (r: seq<byte>)
    ensures |r| == |s|
  {
    seq(|s|, i requires 0 <= i < |s| => if s[i] < 128 as char then s[i] as int else 0)
  }

  // ---------------------------------------------------------------- JSON strings

  function Hex(d: nat): byte
    requires d < 16
  {
    if d < 10 then 0x30 + d else 0x61 + d - 10
  }

  function UnicodeEscape(code: nat): (r: seq<byte>)
    requires code < 0x10000
    ensures |r| == 6
  {
    [0x5C, 0x75, Hex(code / 4096), Hex(code / 256 % 16), Hex(code / 16 % 16), Hex(code % 16)]
  }

  /** How the encoder writes a single-byte character. */
  function EscapeByte(b: byte): (r: seq<byte>)
    ensures |r| >= 1
  {
    if b == 0x22 || b == 0x5C then [0x5C, b]
    else if b == 0x08 then [0x5C, 0x62]
    else if b == 0x0C then [0x5C, 0x66]
    else if b == 0x0A then [0x5C, 0x6E]
    else if b == 0x0D then [0x5C, 0x72]
    else if b == 0x09 then [0x5C, 0x74]
    else if b < 0x20 || b == 0x3C || b == 0x3E || b == 0x26 then UnicodeEscape(b)
    else [b]
  }

  /** How the encoder writes one character; the line and paragraph separators are escaped, other wide ones are not. */
  function EscapeRune(rune: seq<byte>): (r: seq<byte>)
    ensures |r| >= |rune|
  {
    if |rune| == 1 then EscapeByte(rune[0])
    else if rune == [0xE2, 0x80, 0xA8] then UnicodeEscape(0x2028)
    else if rune == [0xE2, 0x80, 0xA9] then UnicodeEscape(0x2029)
    else rune
  }

  /** The body of the JSON string for `s`; a malformed byte is written as the replacement character. */
  function Escape(s: seq<byte>): (r: seq<byte>)
    ensures |r| >= |s|
    decreases |s|
  {
    if s == [] then []
    else
      var n := RuneLen(s);
      if n == 0 then UnicodeEscape(0xFFFD) + Escape(s[1..]) else EscapeRune(s[..n]) + Escape(s[n..])
  }

  /** Escaping goes character by character, so a longer preview never has a shorter encoding. */
  lemma {:induction false} EscapeGrows(s: seq<byte>, k: nat)
    requires k <= |s| && Valid(s[..k])
    ensures |Escape(s[..k])| + |s| - k <= |Escape(s)|
    decreases |s|
  {
    hide RuneLen, EscapeRune;
    if k > 0 {
      RuneLenOfPrefix(s, k);
      var n := RuneLen(s);
      PrefixStep(s, k);
      assert s[..k][..n] == s[..n] && s[..k][n..] == s[n..][..k - n];
      EscapeGrows(s[n..], k - n);
    }
  }

  // ---------------------------------------------------------------- reading JSON strings

  /** What a reader has read and what it has left. */
  datatype Read = Read(text: seq<byte>, rest: seq<byte>)

  function Prepend(p: seq<byte>, r: Option<Read>): Option<Read> {
    if r.None? then None else Some(Read(p + r.value.text, r.value.rest))
  }

  function HexValue(b: byte): (v: Option<nat>)
    ensures v.Some? ==> v.value < 16
  {
    if 0x30 <= b <= 0x39 then Some(b - 0x30)
    else if 0x61 <= b <= 0x66 then Some(b - 0x61 + 10)
    else if 0x41 <= b <= 0x46 then Some(b - 0x41 + 10)
    else None
  }

  /** The number of the four hexadecimal digits at the front. */
  function Code(s: seq<byte>): (v: Option<nat>)
    ensures v.Some? ==> v.value < 0x10000 && |s| >= 4
  {
    if |s| < 4 || HexValue(s[0]).None? || HexValue(s[1]).None? || HexValue(s[2]).None? || HexValue(s[3]).None? then None
    else Some(4096 * HexValue(s[0]).value + 256 * HexValue(s[1]).value + 16 * HexValue(s[2]).value + HexValue(s[3]).value)
  }

  /** The character of a two-character escape. */
  function Unescaped(b: byte): Option<byte> {
    if b == 0x22 || b == 0x5C || b == 0x2F then Some(b)
    else if b == 0x62 then Some(0x08)
    else if b == 0x66 then Some(0x0C)
    else if b == 0x6E then Some(0x0A)
    else if b == 0x72 then Some(0x0D)
    else if b == 0x74 then Some(0x09)
    else None
  }

  /** Reads the rest of a JSON string up to its closing quote (section 7 of RFC 8259). */
  function ReadString(s: seq<byte>): Option<Read>
    decreases |s|
  {
    if s == [] || s[0] < 0x20 then None
    else if s[0] == 0x22 then Some(Read([], s[1..]))
    else if s[0] != 0x5C then Prepend([s[0]], ReadString(s[1..]))
    else if |s| < 2 then None
    else if s[1] != 0x75 then
      (var c := Unescaped(s[1]); if c.None? then None else Prepend([c.value], ReadString(s[2..])))
    else
      var code := Code(s[2..]);
      if code.None? || 0xDC00 <= code.value < 0xE000 then None
      else if !(0xD800 <= code.value < 0xDC00) then Prepend(Encode(code.value), ReadString(s[6..]))
      else if |s| < 12 || s[6] != 0x5C || s[7] != 0x75 then None
      else
        var low := Code(s[8..]);
        if low.None? || !(0xDC00 <= low.value < 0xE000) then None
        else Prepend(Encode(0x10000 + (code.value - 0xD800) * 1024 + (low.value - 0xDC00)), ReadString(s[12..]))
  }

  lemma HexReads(d: nat)
    requires d < 16
    ensures HexValue(Hex(d)) == Some(d)
  {
  }

  lemma HexDigits(code: nat)
    requires code < 0x10000
    ensures code / 4096 < 16 && 4096 * (code / 4096) + 256 * (code / 256 % 16) + 16 * (code / 16 % 16) + code % 16 == code
  {
    var a := code / 16;
    var b := a / 16;
    assert code / 256 == b && code / 4096 == b / 16;
  }

  lemma CodeReads(code: nat, t: seq<byte>)
    requires code < 0x10000
    ensures Code(UnicodeEscape(code)[2..] + t) == Some(code)
  {
    hide Hex, HexValue;
    HexDigits(code);
    HexReads(code / 4096);
    HexReads(code / 256 % 16);
    HexReads(code / 16 % 16);
    HexReads(code % 16);
    var s := UnicodeEscape(code)[2..] + t;
    assert s[0] == Hex(code / 4096) && s[1] == Hex(code / 256 % 16) && s[2] == Hex(code / 16 % 16) && s[3] == Hex(code % 16);
  }

  lemma UnicodeReads(code: nat, t: seq<byte>)
    requires code < 0xD800
    ensures ReadString(UnicodeEscape(code) + t) == Prepend(Encode(code), ReadString(t))
  {
    hide Code, Encode, Hex;
    var s := UnicodeEscape(code) + t;
    CodeReads(code, t);
    assert s[2..] == UnicodeEscape(code)[2..] + t && s[6..] == t;
  }

  lemma EscapedByteReads(b: byte, t: seq<byte>)
    requires b < 0x80
    ensures ReadString(EscapeByte(b) + t) == Prepend([b], ReadString(t))
  {
    hide Code, UnicodeEscape;
    var e := EscapeByte(b);
    if |e| == 1 {
      assert (e + t)[1..] == t;
    } else if |e| == 2 {
      assert (e + t)[2..] == t;
    } else {
      UnicodeReads(b, t);
    }
  }

  lemma {:induction false} WideReads(p: seq<byte>, t: seq<byte>)
    requires forall i :: 0 <= i < |p| ==> p[i] >= 0x80
    ensures p != [] ==> ReadString(p + t) == Prepend(p, ReadString(t))
  {
    hide Code, Encode, Unescaped;
    if p != [] {
      assert (p + t)[1..] == p[1..] + t;
      if |p| == 1 {
        assert p[1..] + t == t && [p[0]] == p;
      } else {
        WideReads(p[1..], t);
        assert [p[0]] + p[1..] == p;
        if ReadString(t).Some? {
          assert [p[0]] + (p[1..] + ReadString(t).value.text) == p + ReadString(t).value.text;
        }
      }
    }
  }

  lemma WideRune(s: seq<byte>)
    requires RuneLen(s) > 1
    ensures forall i :: 0 <= i < RuneLen(s) ==> s[i] >= 0x80
  {
  }

  lemma NarrowRune(s: seq<byte>)
    requires RuneLen(s) == 1
    ensures s[0] < 0x80
  {
  }

  lemma SeparatorCodes()
    ensures Encode(0x2028) == [0xE2, 0x80, 0xA8] && Encode(0x2029) == [0xE2, 0x80, 0xA9]
  {
  }

  lemma EscapedRuneReads(s: seq<byte>, t: seq<byte>)
    requires RuneLen(s) > 0
    ensures ReadString(EscapeRune(s[..RuneLen(s)]) + t) == Prepend(s[..RuneLen(s)], ReadString(t))
  {
    hide RuneLen, ReadString, EscapeByte, UnicodeEscape, Encode;
    var rune := s[..RuneLen(s)];
    if |rune| == 1 {
      NarrowRune(s);
      EscapedByteReads(s[0], t);
      assert rune == [s[0]];
    } else {
      WideRune(s);
      WideReads(rune, t);
      SeparatorCodes();
      UnicodeReads(0x2028, t);
      UnicodeReads(0x2029, t);
    }
  }

  /** Reading what the encoder wrote gives back the text and stops at the closing quote. */
  lemma {:induction false} EscapedStringReads(s: seq<byte>, rest: seq<byte>)
    requires Valid(s)
    ensures ReadString(Escape(s) + [0x22] + rest) == Some(Read(s, rest))
    decreases |s|
  {
    hide RuneLen, EscapeRune;
    if s == [] {
      var t := Escape(s) + [0x22] + rest;
      assert t == [0x22] + rest && t[1..] == rest;
    } else {
      hide ReadString;
      var n := RuneLen(s);
      var t := Escape(s[n..]) + [0x22] + rest;
      EscapedStringReads(s[n..], rest);
      EscapedRuneReads(s, t);
      assert Escape(s) + [0x22] + rest == EscapeRune(s[..n]) + t;
      assert s[..n] + s[n..] == s;
    }
  }

  // ---------------------------------------------------------------- the envelope

  /** The truncation envelope around a preview. */
  function Envelope(size: nat, preview: seq<byte>): seq<byte> {
    Ascii(OPEN) + Ascii("true") + Ascii(SIZE) + Ascii(Decimal.Print(size)) + Ascii(PREVIEW) + Escape(preview) + Ascii("\"}")
  }

  const OPEN := "{\"truncated\":"
  const SIZE := ",\"original_size_bytes\":"
  const PREVIEW := ",\"preview\":\""

  predicate Fits(size: nat, preview: seq<byte>) { |Envelope(size, preview)| <= DETAIL_MAX_BYTES }

  const OVERHEAD := 54

  lemma EnvelopeLength(size: nat, preview: seq<byte>)
    ensures |Envelope(size, preview)| == OVERHEAD + |Decimal.Print(size)| + |Escape(preview)|
  {
    assert |OPEN| == 13 && |SIZE| == 23 && |PREVIEW| == 12;
  }

  /** What the envelope says. */
  datatype Details = Details(truncated: bool, size: nat, preview: seq<byte>)

  function After(prefix: seq<byte>, t: seq<byte>): Option<seq<byte>> {
    if prefix <= t then Some(t[|prefix|..]) else None
  }

  function DigitCount(t: seq<byte>): (n: nat)
    ensures n <= |t| && forall i :: 0 <= i < n ==> 0x30 <= t[i] <= 0x39
  {
    if t != [] && 0x30 <= t[0] <= 0x39 then 1 + DigitCount(t[1..]) else 0
  }

  function Number(t: seq<byte>): nat
    requires forall i :: 0 <= i < |t| ==> 0x30 <= t[i] <= 0x39
  {
    if t == [] then 0 else Number(t[..|t| - 1]) * 10 + (t[|t| - 1] - 0x30)
  }

  /** Reads an envelope member by member. */
  function ReadDetails(t: seq<byte>): Option<Details> {
    var flag := After(Ascii(OPEN), t);
    if flag.None? then None
    else
      var yes, no := After(Ascii("true"), flag.value), After(Ascii("false"), flag.value);
      if yes.Some? then ReadSize(true, yes.value) else if no.Some? then ReadSize(false, no.value) else None
  }

  function ReadSize(truncated: bool, t: seq<byte>): Option<Details> {
    var digits := After(Ascii(SIZE), t);
    if digits.None? || DigitCount(digits.value) == 0 then None
    else
      var n := DigitCount(digits.value);
      ReadPreview(truncated, Number(digits.value[..n]), digits.value[n..])
  }

  function ReadPreview(truncated: bool, size: nat, t: seq<byte>): Option<Details> {
    var body := After(Ascii(PREVIEW), t);
    if body.None? then None
    else
      var r := ReadString(body.value);
      if r.Some? && r.value.rest == Ascii("}") then Some(Details(truncated, size, r.value.text)) else None
  }

  lemma AfterConcat(p: seq<byte>, q: seq<byte>)
    ensures After(p, p + q) == Some(q)
  {
  }

  lemma AsciiDigits(s: string)
    requires forall i :: 0 <= i < |s| ==> Decimal.IsDigit(s[i])
    ensures forall i :: 0 <= i < |s| ==> 0x30 <= Ascii(s)[i] <= 0x39 && Ascii(s)[i] - 0x30 == Decimal.DigitValue(s[i])
  {
  }

  lemma {:induction false} DigitCountIs(d: seq<byte>, t: seq<byte>)
    requires forall i :: 0 <= i < |d| ==> 0x30 <= d[i] <= 0x39
    requires t == [] || !(0x30 <= t[0] <= 0x39)
    ensures DigitCount(d + t) == |d|
  {
    if d == [] {
      assert d + t == t;
    } else {
      assert (d + t)[1..] == d[1..] + t;
      DigitCountIs(d[1..], t);
    }
  }

  lemma {:induction false} NumberReads(s: string)
    requires forall i :: 0 <= i < |s| ==> Decimal.IsDigit(s[i])
    ensures (forall i :: 0 <= i < |s| ==> 0x30 <= Ascii(s)[i] <= 0x39) && Number(Ascii(s)) == Decimal.Parse(s)
  {
    AsciiDigits(s);
    if s != [] {
      NumberReads(s[..|s| - 1]);
      assert Ascii(s)[..|s| - 1] == Ascii(s[..|s| - 1]);
    }
  }

  lemma PreviewReads(truncated: bool, size: nat, preview: seq<byte>)
    requires Valid(preview)
    ensures ReadPreview(truncated, size, Ascii(PREVIEW) + (Escape(preview) + Ascii("\"}"))) == Some(Details(truncated, size, preview))
  {
    hide Escape, ReadString;
    var body := Escape(preview) + Ascii("\"}");
    AfterConcat(Ascii(PREVIEW), body);
    EscapedStringReads(preview, Ascii("}"));
    assert Ascii("\"}") == [0x22] + Ascii("}");
    assert body == Escape(preview) + [0x22] + Ascii("}");
  }

  lemma SizeReads(truncated: bool, size: nat, t: seq<byte>)
    requires t != [] && !(0x30 <= t[0] <= 0x39)
    ensures ReadSize(truncated, Ascii(SIZE) + (Ascii(Decimal.Print(size)) + t)) == ReadPreview(truncated, size, t)
  {
    hide ReadPreview, Ascii;
    var digits := Ascii(Decimal.Print(size));
    NumberReads(Decimal.Print(size));
    Decimal.ParsePrint(size);
    DigitCountIs(digits, t);
    AfterConcat(Ascii(SIZE), digits + t);
    assert (digits + t)[..|digits|] == digits && (digits + t)[|digits|..] == t;
  }

  /** Reading the envelope back gives the mark, the size and the preview. */
  lemma EnvelopeReads(size: nat, preview: seq<byte>)
    requires Valid(preview)
    ensures ReadDetails(Envelope(size, preview)) == Some(Details(true, size, preview))
  {
    hide ReadSize, ReadPreview, Ascii, Escape, Valid;
    var tail := Ascii(PREVIEW) + (Escape(preview) + Ascii("\"}"));
    var middle := Ascii(SIZE) + (Ascii(Decimal.Print(size)) + tail);
    CommaFirst(Escape(preview) + Ascii("\"}"));
    PreviewReads(true, size, preview);
    SizeReads(true, size, tail);
    AfterConcat(Ascii(OPEN), Ascii("true") + middle);
    AfterConcat(Ascii("true"), middle);
    assert Envelope(size, preview) == Ascii(OPEN) + (Ascii("true") + middle);
  }

  lemma CommaFirst(t: seq<byte>)
    ensures (Ascii(PREVIEW) + t)[0] == 0x2C
  {
  }

  /** The encoder's output never gets shorter as the limit on the preview grows. */
  lemma FitsIsMonotone(size: nat, text: seq<byte>, a: int, b: int)
    requires a <= b && Fits(size, Longest(text, b))
    ensures Fits(size, Longest(text, a))
  {
    hide Envelope, Longest;
    var p, q := Longest(text, a), Longest(text, b);
    LongestIsLongest(text, a);
    LongestIsLongest(text, b);
    assert p == text[..|p|] && q == text[..|q|];
    assert p == q[..|p|];
    EscapeGrows(q, |p|);
    EnvelopeLength(size, p);
    EnvelopeLength(size, q);
  }

  /** A preview of more than the cap never fits. */
  lemma TooLongNeverFits(size: nat, preview: seq<byte>)
    requires |preview| > DETAIL_MAX_BYTES
    ensures !Fits(size, preview)
  {
    hide Envelope;
    EnvelopeLength(size, preview);
  }

  /** The preview is a boundary prefix of the text, its envelope fits, and no longer boundary prefix's does. */
  ghost predicate Best(size: nat, text: seq<byte>, preview: seq<byte>) {
    && preview <= text && Valid(preview) && Fits(size, preview)
    && forall k :: |preview| < k <= |text| && Valid(text[..k]) ==> !Fits(size, text[..k])
  }

  lemma SearchEnds(size: nat, text: seq<byte>, limit: int, hi: int)
    requires 0 <= hi <= limit && (limit == |text| <= DETAIL_MAX_BYTES || limit == DETAIL_MAX_BYTES <= |text|)
    requires Fits(size, Longest(text, hi)) && (hi < limit ==> !Fits(size, Longest(text, hi + 1)))
    ensures Best(size, text, Longest(text, hi))
  {
    hide Fits, Longest;
    var p := Longest(text, hi);
    LongestIsLongest(text, hi);
    forall k | |p| < k <= |text| && Valid(text[..k])
      ensures !Fits(size, text[..k])
    {
      if k > limit {
        TooLongNeverFits(size, text[..k]);
      } else {
        LongestIsLongest(text, k);
        var q := Longest(text, k);
        assert q == text[..|q|] && |q| == k;
        if Fits(size, text[..k]) {
          FitsIsMonotone(size, text, hi + 1, k);
        }
      }
    }
  }

  /** With an empty preview the envelope of any size a machine integer can hold fits. */
  lemma EmptyFits(size: nat)
    requires size < 0x8000_0000_0000_0000
    ensures Fits(size, [])
  {
    hide Envelope;
    EnvelopeLength(size, []);
    assert Decimal.Pow10(6) == 1_000_000;
    assert Decimal.Pow10(12) == 1_000_000_000_000;
    assert Decimal.Pow10(19) == 10_000_000_000_000_000_000;
    Decimal.PrintLength(size, 19);
  }

  /** The envelope stays within the cap, and its preview is the longest boundary-aligned prefix for which it does. */
  method MarshalTruncatedRunEventDetails(original: seq<byte>) returns (best: seq<byte>, ghost preview: seq<byte>)
    requires Valid(original) && |original| < 0x8000_0000_0000_0000
    ensures |best| <= DETAIL_MAX_BYTES && best == Envelope(|original|, preview)
    ensures Best(|original|, original, preview)
    ensures ReadDetails(best) == Some(Details(true, |original|, preview))
  {
    hide Envelope, Longest, Valid, ReadDetails;
    var size := |original|;
    var previewLimit := size;
    if previewLimit > DETAIL_MAX_BYTES {
      previewLimit := DETAIL_MAX_BYTES;
    }
    best := Envelope(size, []);
    EmptyFits(size);
    LongestOfNothing(original, 0);
    preview := [];
    var lo, hi := 0, previewLimit;
    while lo <= hi
      invariant 0 <= lo <= hi + 1 <= previewLimit + 1
      invariant preview == Longest(original, if lo == 0 then 0 else lo - 1)
      invariant best == Envelope(size, preview) && Fits(size, preview)
      invariant hi < previewLimit ==> !Fits(size, Longest(original, hi + 1))
      decreases hi - lo
    {
      var mid := lo + (hi - lo) / 2;
      var prefix := Utf8SafePrefix(original, mid);
      var candidate := Envelope(size, prefix);
      if |candidate| <= DETAIL_MAX_BYTES {
        best, preview := candidate, prefix;
        lo := mid + 1;
      } else {
        hi := mid - 1;
      }
    }
    assert lo > 0;
    SearchEnds(size, original, previewLimit, hi);
    EnvelopeReads(size, preview);
  }
}
