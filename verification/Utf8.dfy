/** UTF-8 text (section 4 of RFC 3629) and the three ways the program cuts it without splitting a character. */
module Utf8 {
  import opened Common

  predicate IsTail(b: byte) { 0x80 <= b <= 0xBF }

  /** A byte that does not continue a character. */
  predicate RuneStart(b: byte) { !IsTail(b) }

  /** How many bytes the character at the front of `s` takes, or 0 if there is no well-formed one. */
  function RuneLen(s: seq<byte>): (n: nat)
    ensures n <= 4 && n <= |s|
  {
    if |s| >= 1 && s[0] <= 0x7F then 1
    else if |s| >= 2 && 0xC2 <= s[0] <= 0xDF && IsTail(s[1]) then 2
    else if |s| >= 3 && IsTail(s[1]) && IsTail(s[2])
            && ((s[0] == 0xE0 && s[1] >= 0xA0) || 0xE1 <= s[0] <= 0xEC || (s[0] == 0xED && s[1] <= 0x9F) || 0xEE <= s[0] <= 0xEF) then 3
    else if |s| >= 4 && IsTail(s[1]) && IsTail(s[2]) && IsTail(s[3])
            && ((s[0] == 0xF0 && s[1] >= 0x90) || 0xF1 <= s[0] <= 0xF3 || (s[0] == 0xF4 && s[1] <= 0x8F)) then 4
    else 0
  }

  predicate Valid(s: seq<byte>)
    decreases |s|
  {
    s == [] || (RuneLen(s) > 0 && Valid(s[RuneLen(s)..]))
  }

  // ---------------------------------------------------------------- characters and their encoding

  /** The UTF-8 form of a code point. */
  function Encode(code: nat): (r: seq<byte>)
    requires code < 0x110000
    ensures 1 <= |r| <= 4
  {
    if code < 0x80 then [code]
    else if code < 0x800 then [0xC0 + code / 64, 0x80 + code % 64]
    else if code < 0x10000 then [0xE0 + code / 4096, 0x80 + code / 64 % 64, 0x80 + code % 64]
    else [0xF0 + code / 262144, 0x80 + code / 4096 % 64, 0x80 + code / 64 % 64, 0x80 + code % 64]
  }

  /** A code point that is a character: surrogates are not. */
  predicate IsScalar(code: int) { 0 <= code < 0xD800 || 0xE000 <= code < 0x110000 }

  /** The code point that `n` bytes at the front of `s` spell. */
  function CodeOf(s: seq<byte>, n: nat): int
    requires 1 <= n <= 4 && n <= |s|
  {
    if n == 1 then s[0]
    else if n == 2 then Bits(s, 0, 0xC0) * 64 + Bits(s, 1, 0x80)
    else if n == 3 then Bits(s, 0, 0xE0) * 4096 + Bits(s, 1, 0x80) * 64 + Bits(s, 2, 0x80)
    else Bits(s, 0, 0xF0) * 262144 + Bits(s, 1, 0x80) * 4096 + Bits(s, 2, 0x80) * 64 + Bits(s, 3, 0x80)
  }

  /** What a byte carries besides its mark. */
  function Bits(s: seq<byte>, i: nat, mark: int): int
    requires i < |s|
  {
    (s[i] as int) - mark
  }

  lemma SplitBy64(a: int, d: int)
    requires 0 <= a && 0 <= d < 64
    ensures (a * 64 + d) / 64 == a && (a * 64 + d) % 64 == d
  {
  }

  lemma ThreeBytes(x: nat, y: nat, z: nat)
    requires x < 16 && y < 64 && z < 64 && x * 4096 + y * 64 + z >= 0x800
    ensures Encode(x * 4096 + y * 64 + z) == [0xE0 + x, 0x80 + y, 0x80 + z]
  {
    var a := x * 64 + y;
    var c := a * 64 + z;
    SplitBy64(x, y);
    SplitBy64(a, z);
    assert c / 4096 == a / 64;
  }

  lemma FourBytes(x: nat, y: nat, z: nat, w: nat)
    requires x < 5 && y < 64 && z < 64 && w < 64 && 0x10000 <= x * 262144 + y * 4096 + z * 64 + w < 0x110000
    ensures Encode(x * 262144 + y * 4096 + z * 64 + w) == [0xF0 + x, 0x80 + y, 0x80 + z, 0x80 + w]
  {
    var a := x * 64 + y;
    var b := a * 64 + z;
    var c := b * 64 + w;
    SplitBy64(x, y);
    SplitBy64(a, z);
    SplitBy64(b, w);
    assert c / 4096 == b / 64 && c / 262144 == a / 64;
  }

  /** Every well-formed sequence is the encoding of a character. */
  lemma RuneIsEncoded(s: seq<byte>)
    requires RuneLen(s) > 0
    ensures var n := RuneLen(s); IsScalar(CodeOf(s, n)) && Encode(CodeOf(s, n)) == s[..n]
  {
    var n := RuneLen(s);
    if n == 1 {
      assert s[..1] == [s[0]];
    } else if n == 2 {
      SplitBy64(Bits(s, 0, 0xC0), Bits(s, 1, 0x80));
      assert s[..2] == [s[0], s[1]];
    } else if n == 3 {
      ThreeBytes(Bits(s, 0, 0xE0), Bits(s, 1, 0x80), Bits(s, 2, 0x80));
      assert s[..3] == [s[0], s[1], s[2]];
    } else {
      FourBytes(Bits(s, 0, 0xF0), Bits(s, 1, 0x80), Bits(s, 2, 0x80), Bits(s, 3, 0x80));
      assert s[..4] == [s[0], s[1], s[2], s[3]];
    }
  }

  /** The encoding of a character is well formed, whatever follows. */
  lemma EncodedIsRune(code: nat, rest: seq<byte>)
    requires IsScalar(code)
    ensures RuneLen(Encode(code) + rest) == |Encode(code)|
  {
    var s := Encode(code) + rest;
    assert forall i :: 0 <= i < |Encode(code)| ==> s[i] == Encode(code)[i];
    if 0x800 <= code < 0x10000 {
      assert code / 4096 == 0 ==> code / 64 % 64 >= 32;
      assert code / 4096 == 13 ==> code / 64 % 64 < 32;
    } else if code >= 0x10000 {
      assert code / 262144 == 0 ==> code / 4096 % 64 >= 16;
      assert code / 262144 == 4 ==> code / 4096 % 64 < 16;
    }
  }

  function EncodeAll(codes: seq<nat>): seq<byte>
    requires forall i :: 0 <= i < |codes| ==> IsScalar(codes[i])
  {
    if codes == [] then []
    else
      assert IsScalar(codes[0]);
      Encode(codes[0]) + EncodeAll(codes[1..])
  }

  /** Valid text is exactly the encoding of a sequence of characters. */
  lemma {:induction false} EncodedIsValid(codes: seq<nat>)
    requires forall i :: 0 <= i < |codes| ==> IsScalar(codes[i])
    ensures Valid(EncodeAll(codes))
  {
    hide RuneLen, Encode;
    if codes != [] {
      EncodedIsValid(codes[1..]);
      EncodedIsRune(codes[0], EncodeAll(codes[1..]));
      var s := EncodeAll(codes);
      assert s[|Encode(codes[0])|..] == EncodeAll(codes[1..]);
    }
  }

  lemma {:induction false} ValidIsEncoded(s: seq<byte>) returns (codes: seq<nat>)
    requires Valid(s)
    ensures (forall i :: 0 <= i < |codes| ==> IsScalar(codes[i])) && EncodeAll(codes) == s
    decreases |s|
  {
    hide RuneLen, Encode, CodeOf;
    codes := [];
    if s != [] {
      var n := RuneLen(s);
      var rest := ValidIsEncoded(s[n..]);
      RuneIsEncoded(s);
      codes := [CodeOf(s, n)] + rest;
      assert codes[1..] == rest && s[..n] + s[n..] == s;
    }
  }

  // ---------------------------------------------------------------- character boundaries

  /** The first character of a text is that of every prefix long enough, and shorter prefixes have none. */
  lemma RuneLenOfPrefix(s: seq<byte>, k: nat)
    requires k <= |s|
    ensures RuneLen(s[..k]) > 0 ==> RuneLen(s[..k]) == RuneLen(s)
    ensures 0 < RuneLen(s) <= k ==> RuneLen(s[..k]) == RuneLen(s)
  {
  }

  lemma PrefixStep(s: seq<byte>, k: nat)
    requires 0 < RuneLen(s) <= k <= |s|
    ensures Valid(s[..k]) == Valid(s[RuneLen(s)..][..k - RuneLen(s)])
  {
    RuneLenOfPrefix(s, k);
    assert s[..k][RuneLen(s)..] == s[RuneLen(s)..][..k - RuneLen(s)];
  }

  /** In a valid text the boundaries are exactly the positions whose byte starts a character. */
  lemma {:induction false} BoundaryIff(s: seq<byte>, k: nat)
    requires Valid(s) && k < |s|
    ensures Valid(s[..k]) <==> RuneStart(s[k])
    decreases |s|
  {
    var n := RuneLen(s);
    if n <= k {
      PrefixStep(s, k);
      BoundaryIff(s[n..], k - n);
    } else if k > 0 {
      RuneLenOfPrefix(s, k);
    }
  }

  // ---------------------------------------------------------------- the longest prefix that fits

  /** Character after character, as long as they fit. */
  function Longest(s: seq<byte>, max: int): (p: seq<byte>)
    ensures p <= s
    decreases |s|
  {
    var n := RuneLen(s);
    if n == 0 || n > max then [] else s[..n] + Longest(s[n..], max - n)
  }

  /** It is valid and fits, and every longer valid prefix exceeds the limit. */
  lemma {:induction false} LongestIsLongest(s: seq<byte>, max: int)
    ensures Valid(Longest(s, max)) && (|Longest(s, max)| <= max || Longest(s, max) == [])
    ensures forall k :: 0 <= k <= |s| && Valid(s[..k]) && k <= max ==> k <= |Longest(s, max)|
    decreases |s|
  {
    hide RuneLen;
    var n := RuneLen(s);
    if 0 < n <= max {
      var rest := Longest(s[n..], max - n);
      LongestIsLongest(s[n..], max - n);
      assert Longest(s, max)[..n] == s[..n] && Longest(s, max)[n..] == rest;
      assert Longest(s, max) == s[..|Longest(s, max)|];
      RuneLenOfPrefix(s, |Longest(s, max)|);
      forall k | 0 <= k <= |s| && Valid(s[..k]) && k <= max
        ensures k <= |Longest(s, max)|
      {
        if k > 0 {
          RuneLenOfPrefix(s, k);
          PrefixStep(s, k);
        }
      }
    } else {
      forall k | 0 < k <= |s| && Valid(s[..k])
        ensures k > max
      {
        RuneLenOfPrefix(s, k);
      }
    }
  }

  /** A boundary within the limit with no boundary above it is where the longest prefix ends. */
  lemma CutIsLongest(s: seq<byte>, max: int, cut: nat)
    requires cut <= |s| && Valid(s[..cut]) && (cut <= max || cut == 0)
    requires forall k :: cut < k <= |s| && k <= max ==> !Valid(s[..k])
    ensures s[..cut] == Longest(s, max)
  {
    LongestIsLongest(s, max);
    var p := Longest(s, max);
    assert p == s[..|p|];
  }

  /** A valid text that fits is not cut. */
  lemma LongestOfShort(s: seq<byte>, max: int)
    requires Valid(s) && |s| <= max
    ensures Longest(s, max) == s
  {
    assert s[..|s|] == s;
    CutIsLongest(s, max, |s|);
  }

  lemma LongestOfNothing(s: seq<byte>, max: int)
    requires max <= 0
    ensures Longest(s, max) == []
  {
  }

  // ---------------------------------------------------------------- repairing

  const REPLACEMENT: seq<byte> := [0xEF, 0xBF, 0xBD]

  /** Every run of malformed bytes becomes one replacement character. */
  function ToValid(s: seq<byte>, inRun: bool): seq<byte>
    decreases |s|
  {
    if s == [] then []
    else
      var n := RuneLen(s);
      if n > 0 then s[..n] + ToValid(s[n..], false)
      else (if inRun then [] else REPLACEMENT) + ToValid(s[1..], true)
  }

  lemma ValidConcat(rune: seq<byte>, rest: seq<byte>)
    requires rune != [] && RuneLen(rune) == |rune| && Valid(rest)
    ensures Valid(rune + rest)
  {
    RuneLenOfPrefix(rune + rest, |rune|);
    assert (rune + rest)[..|rune|] == rune && (rune + rest)[|rune|..] == rest;
  }

  /** Repairing always yields valid text. */
  lemma {:induction false} RepairedIsValid(s: seq<byte>, inRun: bool)
    ensures Valid(ToValid(s, inRun))
    decreases |s|
  {
    if s != [] {
      var n := RuneLen(s);
      if n > 0 {
        RepairedIsValid(s[n..], false);
        RuneLenOfPrefix(s, n);
        ValidConcat(s[..n], ToValid(s[n..], false));
      } else {
        RepairedIsValid(s[1..], true);
        if inRun {
          assert ToValid(s, inRun) == ToValid(s[1..], true);
        } else {
          ValidConcat(REPLACEMENT, ToValid(s[1..], true));
        }
      }
    }
  }

  /** Valid text is left as it is. */
  lemma {:induction false} ValidIsUnrepaired(s: seq<byte>, inRun: bool)
    requires Valid(s)
    ensures ToValid(s, inRun) == s
    decreases |s|
  {
    if s != [] {
      ValidIsUnrepaired(s[RuneLen(s)..], false);
    }
  }

  /** A well-formed beginning is kept byte for byte. */
  lemma {:induction false} RepairKeeps(a: seq<byte>, s: seq<byte>, inRun: bool)
    requires Valid(a) && a != []
    ensures ToValid(a + s, inRun) == a + ToValid(s, false)
    decreases |a|
  {
    hide RuneLen;
    var n := RuneLen(a);
    assert (a + s)[..|a|] == a;
    RuneLenOfPrefix(a + s, |a|);
    assert (a + s)[..n] == a[..n] && (a + s)[n..] == a[n..] + s;
    if a[n..] == [] {
      assert a[n..] + s == s && a[..n] == a;
    } else {
      RepairKeeps(a[n..], s, false);
      assert a[..n] + a[n..] == a;
    }
  }

  /** A run of bytes at none of which a character starts becomes exactly one replacement character. */
  lemma {:induction false} RepairMarks(s: seq<byte>, k: nat, inRun: bool)
    requires k <= |s| && (k > 0 || inRun) && (forall i :: 0 <= i < k ==> RuneLen(s[i..]) == 0)
    requires k == |s| || RuneLen(s[k..]) > 0
    ensures ToValid(s, inRun) == (if inRun then [] else REPLACEMENT) + ToValid(s[k..], false)
    decreases k
  {
    hide RuneLen;
    if k == 0 {
      assert s[0..] == s;
    } else {
      assert forall i :: 0 <= i < |s| ==> s[1..][i..] == s[i + 1..];
      assert s[0..] == s;
      RepairMarks(s[1..], k - 1, true);
      assert s[1..][k - 1..] == s[k..];
    }
  }

  // ---------------------------------------------------------------- the three truncators

  /** Repairs the text, then walks back to the start of a character. */
  method SafeUTF8Cap(s: seq<byte>, maxBytes: int) returns (r: seq<byte>)
    ensures r == Longest(ToValid(s, false), maxBytes)
    ensures Valid(s) ==> r == Longest(s, maxBytes)
  {
    hide RuneLen, ToValid, Longest;
    if maxBytes <= 0 {
      LongestOfNothing(s, maxBytes);
      LongestOfNothing(ToValid(s, false), maxBytes);
      return [];
    }
    var t := ToValid(s, false);
    RepairedIsValid(s, false);
    if Valid(s) {
      ValidIsUnrepaired(s, false);
    }
    if |t| <= maxBytes {
      LongestOfShort(t, maxBytes);
      return t;
    }
    var cut := maxBytes;
    while cut > 0 && !RuneStart(t[cut])
      invariant 0 <= cut <= maxBytes
      invariant forall k :: cut < k <= maxBytes ==> !RuneStart(t[k])
    {
      cut := cut - 1;
    }
    forall k | cut <= k <= maxBytes
      ensures Valid(t[..k]) <==> RuneStart(t[k])
    {
      BoundaryIff(t, k);
    }
    CutIsLongest(t, maxBytes, cut);
    return t[..cut];
  }

  /** Walks back until what is left is valid. A text that fits is returned unseen. */
  method FirstUTF8Bytes(s: seq<byte>, maxBytes: int) returns (r: seq<byte>)
    ensures Valid(s) || |s| > maxBytes ==> r == Longest(s, maxBytes)
    ensures |s| <= maxBytes ==> r == s
  {
    if maxBytes <= 0 || s == [] {
      return [];
    }
    if |s| <= maxBytes {
      if Valid(s) {
        LongestOfShort(s, maxBytes);
      }
      return s;
    }
    var cut := maxBytes;
    while cut > 0 && !Valid(s[..cut])
      invariant 0 <= cut <= maxBytes
      invariant forall k :: cut < k <= maxBytes ==> !Valid(s[..k])
    {
      cut := cut - 1;
    }
    CutIsLongest(s, maxBytes, cut);
    return s[..cut];
  }

  /** Walks forward from character to character and remembers the last start within the limit. */
  method Utf8SafePrefix(s: seq<byte>, maxBytes: int) returns (r: seq<byte>)
    ensures r <= s && (|r| <= maxBytes || r == [])
    ensures Valid(s) ==> r == Longest(s, maxBytes)
  {
    hide RuneLen;
    if maxBytes <= 0 {
      return [];
    }
    if |s| <= maxBytes {
      if Valid(s) {
        LongestOfShort(s, maxBytes);
      }
      return s;
    }
    var end, i := 0, 0;
    while i < |s|
      invariant 0 <= end <= i <= |s| && end <= maxBytes
      invariant Valid(s) ==> Valid(s[..i]) && Valid(s[..end]) && Valid(s[i..])
      invariant Valid(s) ==> forall k :: end < k < i ==> !Valid(s[..k])
      invariant i == 0 || end < i
      decreases |s| - i
    {
      if i > maxBytes {
        break;
      }
      end := i;
      var n := RuneLen(s[i..]);
      if Valid(s) {
        NextBoundary(s, i);
      }
      i := i + if n == 0 then 1 else n;
    }
    if Valid(s) {
      CutIsLongest(s, maxBytes, end);
    }
    return s[..end];
  }

  lemma RuneShape(s: seq<byte>)
    requires RuneLen(s) > 0
    ensures RuneStart(s[0]) && forall k :: 0 < k < RuneLen(s) ==> IsTail(s[k])
  {
  }

  /** From one boundary of a valid text to the next. */
  lemma {:induction false} NextBoundary(s: seq<byte>, i: nat)
    requires Valid(s) && i < |s| && Valid(s[..i]) && Valid(s[i..])
    ensures var n := RuneLen(s[i..]);
            && n > 0 && Valid(s[..i + n]) && Valid(s[i + n..])
            && forall k :: i < k < i + n ==> !Valid(s[..k])
    decreases |s|
  {
    hide RuneLen;
    var n := RuneLen(s[i..]);
    RuneShape(s[i..]);
    assert s[i..][n..] == s[i + n..];
    forall k | i < k < i + n
      ensures !Valid(s[..k])
    {
      BoundaryIff(s, k);
      assert s[k] == s[i..][k - i];
    }
    if i + n < |s| {
      BoundaryIff(s, i + n);
      RuneShape(s[i + n..]);
      assert RuneStart(s[i + n..][0]);
    } else {
      assert s[..i + n] == s;
    }
  }
}
