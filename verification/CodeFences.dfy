/** Blanking code in a comment before it is searched for mentions. */
module CodeFences {
  import opened Common

  const TICK: byte := 0x60
  const SPACE: byte := 0x20

  function Fence(): (r: seq<byte>)
    ensures |r| == 3
  {
    [TICK, TICK, TICK]
  }

  // ---------------------------------------------------------------- the structure of a comment

  /** Plain bytes, closed fenced blocks and closed inline spans, up to the end or to one that is never closed. */
  datatype Text =
    | End
    | Plain(b: byte, rest: Text)
    | Fenced(body: seq<byte>, rest: Text)
    | Inline(body: seq<byte>, rest: Text)
    | OpenFence(body: seq<byte>)
    | OpenTick(body: seq<byte>)

  function Render(t: Text): seq<byte> {
    match t
    case End => []
    case Plain(b, rest) => [b] + Render(rest)
    case Fenced(body, rest) => Fence() + body + Fence() + Render(rest)
    case Inline(body, rest) => [TICK] + body + [TICK] + Render(rest)
    case OpenFence(body) => Fence() + body
    case OpenTick(body) => [TICK] + body
  }

  predicate HasFence(s: seq<byte>) { |s| >= 3 && s[0] == s[1] == s[2] == TICK }

  /** Where the first fence in `s` begins. */
  function IndexFence(s: seq<byte>): (r: Option<nat>)
    ensures r.Some? ==> r.value + 3 <= |s| && s[r.value] == s[r.value + 1] == s[r.value + 2] == TICK
  {
    if HasFence(s) then Some(0)
    else if s == [] then None
    else
      var r := IndexFence(s[1..]);
      if r.Some? then Some(r.value + 1) else None
  }

  /** Where the first backtick in `s` is. */
  function IndexTick(s: seq<byte>): (r: Option<nat>)
    ensures r.Some? ==> r.value < |s| && s[r.value] == TICK
  {
    if s == [] then None
    else if s[0] == TICK then Some(0)
    else
      var r := IndexTick(s[1..]);
      if r.Some? then Some(r.value + 1) else None
  }

  /** Left to right: a fence opens a block, any other backtick an inline span. */
  function Parse(s: seq<byte>): Text
    decreases |s|
  {
    if s == [] then End
    else if HasFence(s) then
      var end := IndexFence(s[3..]);
      if end.None? then OpenFence(s[3..]) else Fenced(s[3..][..end.value], Parse(s[3..][end.value + 3..]))
    else if s[0] == TICK then
      var end := IndexTick(s[1..]);
      if end.None? then OpenTick(s[1..]) else Inline(s[1..][..end.value], Parse(s[1..][end.value + 1..]))
    else Plain(s[0], Parse(s[1..]))
  }

  lemma {:induction false} RenderParse(s: seq<byte>)
    ensures Render(Parse(s)) == s
    decreases |s|
  {
    hide IndexFence, IndexTick;
    if s == [] {
    } else if HasFence(s) {
      FenceFirst(s);
      var end := IndexFence(s[3..]);
      if end.Some? {
        RenderParse(s[3..][end.value + 3..]);
      }
    } else if s[0] == TICK {
      TickFirst(s);
      var end := IndexTick(s[1..]);
      if end.Some? {
        RenderParse(s[1..][end.value + 1..]);
      }
    } else {
      RenderParse(s[1..]);
    }
  }

  lemma FenceFirst(s: seq<byte>)
    requires HasFence(s)
    ensures var end := IndexFence(s[3..]);
            s == if end.None? then Fence() + s[3..] else Fence() + s[3..][..end.value] + Fence() + s[3..][end.value + 3..]
  {
    hide IndexFence;
    var end, t := IndexFence(s[3..]), s[3..];
    if end.Some? {
      assert t == t[..end.value] + Fence() + t[end.value + 3..];
    }
    assert s == Fence() + t;
  }

  lemma TickFirst(s: seq<byte>)
    requires s != [] && s[0] == TICK
    ensures var end := IndexTick(s[1..]);
            s == if end.None? then [TICK] + s[1..] else [TICK] + s[1..][..end.value] + [TICK] + s[1..][end.value + 1..]
  {
    hide IndexTick;
  }

  // ---------------------------------------------------------------- blanking

  function Spaces(n: nat): (r: seq<byte>)
    ensures |r| == n
  {
    seq(n, _ => SPACE)
  }

  /** An unclosed inline span keeps its text; every other body is blanked. */
  function Blank(t: Text): Text {
    match t
    case End => End
    case Plain(b, rest) => Plain(b, Blank(rest))
    case Fenced(body, rest) => Fenced(Spaces(|body|), Blank(rest))
    case Inline(body, rest) => Inline(Spaces(|body|), Blank(rest))
    case OpenFence(body) => OpenFence(Spaces(|body|))
    case OpenTick(body) => OpenTick(body)
  }

  /** What code fence stripping means: the same structure with blank bodies. */
  function Stripped(s: seq<byte>): seq<byte> { Render(Blank(Parse(s))) }

  /** One round of the scan: what it appends and how far it goes; `closed` is false if the comment ends inside a piece. */
  method ScanPiece(s: seq<byte>) returns (piece: seq<byte>, skip: nat, closed: bool)
    requires s != []
    ensures closed ==> 0 < skip <= |s| && Stripped(s) == piece + Stripped(s[skip..])
    ensures !closed ==> Stripped(s) == piece
  {
    hide IndexFence, IndexTick, Stripped, Spaces;
    StrippedStep(s);
    if HasFence(s) {
      var end := IndexFence(s[3..]);
      if end.None? {
        return Fence() + Spaces(|s| - 3), |s|, false;
      }
      Onward(s, 3, end.value + 3);
      return Fence() + Spaces(end.value) + Fence(), 3 + end.value + 3, true;
    }
    if s[0] == TICK {
      var end := IndexTick(s[1..]);
      if end.None? {
        return [TICK] + s[1..], |s|, false;
      }
      Onward(s, 1, end.value + 1);
      return [TICK] + Spaces(end.value) + [TICK], 1 + end.value + 1, true;
    }
    return [s[0]], 1, true;
  }

  /** Advances over the comment and appends to the output, fence by fence and span by span. */
  method StripCodeFences(content: seq<byte>) returns (out: seq<byte>)
    ensures out == Stripped(content)
  {
    hide Stripped;
    out := [];
    var i := 0;
    assert content[0..] == content;
    while i < |content|
      invariant 0 <= i <= |content|
      invariant out + Stripped(content[i..]) == Stripped(content)
    {
      var piece, skip, closed := ScanPiece(content[i..]);
      if !closed {
        return out + piece;
      }
      Onward(content, i, skip);
      out := out + piece;
      i := i + skip;
    }
    StrippedEnd(content[i..]);
  }

  lemma Onward(s: seq<byte>, i: nat, k: nat)
    requires i + k <= |s|
    ensures s[i..][k..] == s[i + k..]
  {
  }

  lemma StrippedEnd(s: seq<byte>)
    requires s == []
    ensures Stripped(s) == []
  {
  }

  /** One step of the scan. */
  lemma StrippedStep(s: seq<byte>)
    requires s != []
    ensures HasFence(s) ==> (var end := IndexFence(s[3..]);
                             Stripped(s) == if end.None? then Fence() + Spaces(|s| - 3)
                                            else (Fence() + Spaces(end.value) + Fence()) + Stripped(s[3..][end.value + 3..]))
    ensures !HasFence(s) && s[0] == TICK ==> (var end := IndexTick(s[1..]);
                                              Stripped(s) == if end.None? then [TICK] + s[1..]
                                                             else ([TICK] + Spaces(end.value) + [TICK]) + Stripped(s[1..][end.value + 1..]))
    ensures s[0] != TICK ==> Stripped(s) == [s[0]] + Stripped(s[1..])
  {
    hide IndexFence, IndexTick;
  }

  // ---------------------------------------------------------------- what blanking keeps and hides

  /** Position `i` lies in a body that is blanked. */
  predicate Hidden(t: Text, i: int) {
    match t
    case End => false
    case Plain(_, rest) => Hidden(rest, i - 1)
    case Fenced(body, rest) => 3 <= i < 3 + |body| || Hidden(rest, i - 6 - |body|)
    case Inline(body, rest) => 1 <= i < 1 + |body| || Hidden(rest, i - 2 - |body|)
    case OpenFence(body) => 3 <= i < 3 + |body|
    case OpenTick(_) => false
  }

  lemma {:induction false} BlankAt(t: Text)
    ensures BlanksHidden(t)
  {
    match t
    case End =>
    case Plain(_, rest) => BlankAt(rest);
    case Fenced(body, rest) =>
      BlankAt(rest);
      BlankFenced(body, rest);
    case Inline(body, rest) =>
      BlankAt(rest);
      BlankInline(body, rest);
    case OpenFence(_) =>
    case OpenTick(_) =>
  }

  /** Blanking changes exactly the hidden positions of `t`. */
  ghost predicate BlanksHidden(t: Text) {
    && |Render(Blank(t))| == |Render(t)|
    && (forall i :: 0 <= i < |Render(t)| ==> Render(Blank(t))[i] == if Hidden(t, i) then SPACE else Render(t)[i])
    && (forall i :: Hidden(t, i) ==> 0 <= i < |Render(t)|)
  }

  lemma FencedShape(body: seq<byte>, rest: Text)
    ensures var t := Fenced(body, rest);
            && Render(t) == Fence() + body + Fence() + Render(rest)
            && Render(Blank(t)) == Fence() + Spaces(|body|) + Fence() + Render(Blank(rest))
            && forall i :: Hidden(t, i) <==> 3 <= i < 3 + |body| || Hidden(rest, i - 6 - |body|)
  {
  }

  lemma InlineShape(body: seq<byte>, rest: Text)
    ensures var t := Inline(body, rest);
            && Render(t) == [TICK] + body + [TICK] + Render(rest)
            && Render(Blank(t)) == [TICK] + Spaces(|body|) + [TICK] + Render(Blank(rest))
            && forall i :: Hidden(t, i) <==> 1 <= i < 1 + |body| || Hidden(rest, i - 2 - |body|)
  {
  }

  lemma BlankFenced(body: seq<byte>, rest: Text)
    requires BlanksHidden(rest)
    ensures BlanksHidden(Fenced(body, rest))
  {
    hide Render, Blank, Hidden, Spaces;
    FencedShape(body, rest);
    BodyAt(Fence(), body, Fence(), Render(rest), Render(Blank(rest)));
  }

  lemma BlankInline(body: seq<byte>, rest: Text)
    requires BlanksHidden(rest)
    ensures BlanksHidden(Inline(body, rest))
  {
    hide Render, Blank, Hidden, Spaces;
    InlineShape(body, rest);
    BodyAt([TICK], body, [TICK], Render(rest), Render(Blank(rest)));
  }

  /** Blanking the body between two marks, position by position. */
  lemma BodyAt(open: seq<byte>, body: seq<byte>, close: seq<byte>, rest: seq<byte>, rest': seq<byte>)
    requires |rest'| == |rest|
    ensures var s, s', n := open + body + close + rest, open + Spaces(|body|) + close + rest', |open| + |body| + |close|;
            && |s'| == |s| == n + |rest|
            && (forall i :: 0 <= i < n ==> s'[i] == if |open| <= i < |open| + |body| then SPACE else s[i])
            && (forall i :: n <= i < |s| ==> s'[i] == rest'[i - n] && s[i] == rest[i - n])
  {
  }

  /** The length is kept; exactly the bodies of fenced blocks and closed spans become spaces, and every other byte stays. */
  lemma StrippingBlanksBodies(s: seq<byte>)
    ensures |Stripped(s)| == |s|
    ensures forall i :: 0 <= i < |s| ==> Stripped(s)[i] == if Hidden(Parse(s), i) then SPACE else s[i]
  {
    hide Parse, Blank, Render;
    RenderParse(s);
    BlankAt(Parse(s));
  }

  // ---------------------------------------------------------------- stripping twice

  predicate StartsWithTick(t: Text) { !t.End? && !t.Plain? }

  /** The structures a parse yields: every body ends where it says. */
  predicate Canonical(t: Text) {
    match t
    case End => true
    case Plain(b, rest) => b != TICK && Canonical(rest)
    case Fenced(body, rest) => IndexFence(body + Fence()) == Some(|body|) && Canonical(rest)
    case Inline(body, rest) => IndexTick(body).None? && (body == [] ==> !StartsWithTick(rest)) && Canonical(rest)
    case OpenFence(body) => IndexFence(body).None?
    case OpenTick(body) => IndexTick(body).None?
  }

  lemma {:induction false} IndexFenceLocal(a: seq<byte>, b: seq<byte>, k: nat)
    requires k + 3 <= |a|
    ensures IndexFence(a + b) == Some(k) <==> IndexFence(a) == Some(k)
  {
    assert HasFence(a + b) == HasFence(a);
    if k > 0 && !HasFence(a) {
      assert (a + b)[1..] == a[1..] + b;
      IndexFenceLocal(a[1..], b, k - 1);
    }
  }

  lemma {:induction false} IndexTickLocal(a: seq<byte>, b: seq<byte>)
    ensures IndexTick(a + [TICK] + b) == Some(|a|) <==> IndexTick(a).None?
  {
    if a == [] {
      assert a + [TICK] + b == [TICK] + b;
    } else {
      assert (a + [TICK] + b)[1..] == a[1..] + [TICK] + b;
      IndexTickLocal(a[1..], b);
    }
  }

  lemma {:induction false} ParseIsCanonical(s: seq<byte>)
    ensures Canonical(Parse(s))
    decreases |s|
  {
    hide IndexFence, IndexTick;
    if s == [] {
    } else if HasFence(s) {
      var end, t := IndexFence(s[3..]), s[3..];
      if end.Some? {
        var body, rest := t[..end.value], t[end.value + 3..];
        assert t == body + Fence() + rest;
        IndexFenceLocal(body + Fence(), rest, end.value);
        ParseIsCanonical(rest);
      }
    } else if s[0] == TICK {
      var end, t := IndexTick(s[1..]), s[1..];
      if end.Some? {
        var body, rest := t[..end.value], t[end.value + 1..];
        assert t == body + [TICK] + rest;
        IndexTickLocal(body, rest);
        ParseIsCanonical(rest);
      }
    } else {
      ParseIsCanonical(s[1..]);
    }
  }

  lemma RenderStart(t: Text)
    requires Canonical(t)
    ensures StartsWithTick(t) <==> Render(t) != [] && Render(t)[0] == TICK
  {
    hide IndexFence, IndexTick;
  }

  /** Only one structure renders to a given comment. */
  lemma {:induction false} ParseRender(t: Text)
    requires Canonical(t)
    ensures Parse(Render(t)) == t
  {
    match t
    case End =>
    case Plain(b, rest) =>
      ParseRender(rest);
      assert Render(t)[1..] == Render(rest);
    case Fenced(body, rest) =>
      ParseRender(rest);
      ParseFenced(body, Render(rest));
    case Inline(body, rest) =>
      ParseRender(rest);
      RenderStart(rest);
      ParseInline(body, Render(rest));
    case OpenFence(body) => assert Render(t)[3..] == body;
    case OpenTick(body) =>
      assert Render(t)[1..] == body;
  }

  lemma ParseFenced(body: seq<byte>, rest: seq<byte>)
    requires IndexFence(body + Fence()) == Some(|body|)
    ensures Parse(Fence() + body + Fence() + rest) == Fenced(body, Parse(rest))
  {
    hide IndexFence, IndexTick;
    var s := Fence() + body + Fence() + rest;
    assert s[3..] == body + Fence() + rest;
    IndexFenceLocal(body + Fence(), rest, |body|);
    assert s[3..][..|body|] == body && s[3..][|body| + 3..] == rest;
  }

  lemma ParseInline(body: seq<byte>, rest: seq<byte>)
    requires IndexTick(body).None? && (body == [] ==> rest == [] || rest[0] != TICK)
    ensures Parse([TICK] + body + [TICK] + rest) == Inline(body, Parse(rest))
  {
    var s := [TICK] + body + [TICK] + rest;
    assert s[1..] == body + [TICK] + rest;
    IndexTickLocal(body, rest);
    assert s[1..][..|body|] == body && s[1..][|body| + 1..] == rest;
  }

  lemma {:induction false} SpacesHaveNoTicks(n: nat)
    ensures IndexTick(Spaces(n)).None? && IndexFence(Spaces(n)).None? && IndexFence(Spaces(n) + Fence()) == Some(n)
  {
    if n > 0 {
      assert Spaces(n)[1..] == Spaces(n - 1);
      assert (Spaces(n) + Fence())[1..] == Spaces(n - 1) + Fence();
      SpacesHaveNoTicks(n - 1);
    } else {
      assert Spaces(0) + Fence() == Fence();
    }
  }

  lemma {:induction false} BlankIsCanonical(t: Text)
    requires Canonical(t)
    ensures Canonical(Blank(t)) && Blank(Blank(t)) == Blank(t)
  {
    hide IndexFence, IndexTick;
    match t
    case End =>
    case Plain(_, rest) => BlankIsCanonical(rest);
    case Fenced(body, rest) =>
      BlankIsCanonical(rest);
      SpacesHaveNoTicks(|body|);
    case Inline(body, rest) =>
      BlankIsCanonical(rest);
      SpacesHaveNoTicks(|body|);
    case OpenFence(body) => SpacesHaveNoTicks(|body|);
    case OpenTick(_) =>
  }

  /** Stripping a stripped comment changes nothing, whatever backticks it has. */
  lemma StrippingIsIdempotent(s: seq<byte>)
    ensures Stripped(Stripped(s)) == Stripped(s)
  {
    ParseIsCanonical(s);
    BlankIsCanonical(Parse(s));
    ParseRender(Blank(Parse(s)));
  }

  // ---------------------------------------------------------------- stripping, piece by piece

  ghost predicate TickFree(s: seq<byte>) { forall i :: 0 <= i < |s| ==> s[i] != TICK }

  ghost predicate ThreeTicks(s: seq<byte>, i: int) {
    0 <= i && i + 2 < |s| && s[i] == TICK && s[i + 1] == TICK && s[i + 2] == TICK
  }

  /** No three backticks in a row. */
  ghost predicate FenceFree(s: seq<byte>) { forall i :: !ThreeTicks(s, i) }

  lemma FenceFreeTail(s: seq<byte>)
    requires FenceFree(s) && s != []
    ensures FenceFree(s[1..]) && !HasFence(s)
  {
    assert HasFence(s) ==> ThreeTicks(s, 0);
    forall i
      ensures !ThreeTicks(s[1..], i)
    {
      assert ThreeTicks(s[1..], i) ==> ThreeTicks(s, i + 1);
    }
  }

  lemma {:induction false} TickFreeIff(s: seq<byte>)
    ensures TickFree(s) <==> IndexTick(s).None?
  {
    if s != [] {
      TickFreeIff(s[1..]);
      assert TickFree(s) <==> s[0] != TICK && TickFree(s[1..]);
    }
  }

  lemma {:induction false} FenceFreeHasNone(s: seq<byte>)
    requires FenceFree(s)
    ensures IndexFence(s).None?
  {
    if s != [] {
      FenceFreeTail(s);
      FenceFreeHasNone(s[1..]);
    }
  }

  /** The first fence is where a body without one, and without a backtick at its end, is closed. */
  lemma {:induction false} FenceCloses(body: seq<byte>)
    requires FenceFree(body) && (body == [] || body[|body| - 1] != TICK)
    ensures IndexFence(body + Fence()) == Some(|body|)
  {
    var s := body + Fence();
    if body != [] {
      assert s[1..] == body[1..] + Fence();
      FenceFreeTail(body);
      FenceCloses(body[1..]);
    }
  }

  /** Text before the first backtick stays. */
  lemma {:induction false} PlainIsKept(a: seq<byte>, s: seq<byte>)
    requires TickFree(a)
    ensures Stripped(a + s) == a + Stripped(s)
  {
    hide Parse, Blank, Render, Stripped;
    if a == [] {
      assert a + s == s;
    } else {
      assert (a + s)[1..] == a[1..] + s && [a[0]] + a[1..] == a;
      StrippedStep(a + s);
      PlainIsKept(a[1..], s);
    }
  }

  /** A closed fenced block keeps its fences and loses its body, whatever follows. */
  lemma FencedBlockIsBlanked(body: seq<byte>, b: seq<byte>)
    requires FenceFree(body) && (body == [] || body[|body| - 1] != TICK)
    ensures Stripped(Fence() + body + Fence() + b) == Fence() + Spaces(|body|) + Fence() + Stripped(b)
  {
    FenceCloses(body);
    ParseFenced(body, b);
  }

  /** A fence that is never closed blanks everything after it. */
  lemma OpenFenceIsBlanked(rest: seq<byte>)
    requires FenceFree(rest)
    ensures Stripped(Fence() + rest) == Fence() + Spaces(|rest|)
  {
    FenceFreeHasNone(rest);
    assert (Fence() + rest)[3..] == rest;
  }

  /** A closed inline span keeps its backticks and loses its body. */
  lemma InlineSpanIsBlanked(body: seq<byte>, b: seq<byte>)
    requires TickFree(body) && (body == [] ==> b == [] || b[0] != TICK)
    ensures Stripped([TICK] + body + [TICK] + b) == [TICK] + Spaces(|body|) + [TICK] + Stripped(b)
  {
    TickFreeIff(body);
    ParseInline(body, b);
  }

  /** A backtick that is never closed hides nothing. */
  lemma OpenTickIsKept(rest: seq<byte>)
    requires TickFree(rest)
    ensures Stripped([TICK] + rest) == [TICK] + rest
  {
    TickFreeIff(rest);
    assert ([TICK] + rest)[1..] == rest;
  }
}
