/** Server-Sent Events (section 9.2.6 of the WHATWG HTML Living Standard): the server's frames and the client's incremental parser. */
module Sse {
  import opened Common

  datatype Event = Event(name: string, data: string)

  /** What draining a buffer yields: the events dispatched and the text carried over. */
  datatype Drained = Drained(events: seq<Event>, rest: string)

  predicate Free(s: string, c: char) { forall i :: 0 <= i < |s| ==> s[i] != c }

  // ---------------------------------------------------------------- lines

  /** Splitting at line feeds; there is always at least one line. */
  function Lines(s: string): (ls: seq<string>)
    ensures |ls| > 0
  {
    if s == [] then [""]
    else if s[0] == '\n' then [""] + Lines(s[1..])
    else
      var ls := Lines(s[1..]);
      [[s[0]] + ls[0]] + ls[1..]
  }

  function Join(ls: seq<string>): string
    requires |ls| > 0
  {
    if |ls| == 1 then ls[0] else ls[0] + "\n" + Join(ls[1..])
  }

  lemma {:induction false} JoinLines(s: string)
    ensures Join(Lines(s)) == s
  {
    if s != [] {
      JoinLines(s[1..]);
      var ls := Lines(s[1..]);
      if s[0] == '\n' {
        assert ([""] + ls)[1..] == ls;
      } else if |ls| > 1 {
        assert ([[s[0]] + ls[0]] + ls[1..])[1..] == ls[1..];
      }
    }
  }

  lemma {:induction false} LinesHaveNoFeed(s: string)
    ensures forall i :: 0 <= i < |Lines(s)| ==> Free(Lines(s)[i], '\n')
  {
    if s != [] {
      LinesHaveNoFeed(s[1..]);
    }
  }

  /** The first line of a text that goes on after it. */
  lemma {:induction false} FirstLine(l: string, rest: string)
    requires Free(l, '\n')
    ensures Lines(l) == [l] && Lines(l + "\n" + rest) == [l] + Lines(rest)
  {
    if l == "" {
      assert (l + "\n" + rest)[1..] == rest;
    } else {
      FirstLine(l[1..], rest);
      assert (l + "\n" + rest)[1..] == l[1..] + "\n" + rest;
      assert [l[0]] + l[1..] == l;
    }
  }

  ghost predicate AllFree(ls: seq<string>) { forall i :: 0 <= i < |ls| ==> Free(ls[i], '\n') }

  lemma {:induction false} LinesJoin(ls: seq<string>)
    requires |ls| > 0 && AllFree(ls)
    ensures Lines(Join(ls)) == ls
  {
    if |ls| == 1 {
      FirstLine(ls[0], "");
    } else {
      LinesJoin(ls[1..]);
      FirstLine(ls[0], Join(ls[1..]));
    }
  }

  // ---------------------------------------------------------------- one block

  predicate IsSpace(c: char) {
    c in {' ', '\t', '\n', '\r', 0x0B as char, 0x0C as char, 0xA0 as char, 0x1680 as char, 0x2028 as char, 0x2029 as char,
          0x202F as char, 0x205F as char, 0x3000 as char, 0xFEFF as char} || 0x2000 as char <= c <= 0x200A as char
  }

  function TrimStart(s: string): string {
    if s != [] && IsSpace(s[0]) then TrimStart(s[1..]) else s
  }

  function Chomp(line: string): string {
    if line != [] && line[|line| - 1] == '\r' then line[..|line| - 1] else line
  }

  predicate Skipped(line: string) { line == [] || line[0] == ':' }

  predicate NamesEvent(line: string) { !Skipped(line) && "event:" <= line }

  predicate HoldsData(line: string) { !Skipped(line) && "data:" <= line }

  function DataValue(line: string): string
    requires HoldsData(line)
  {
    var value := line[5..];
    if value != [] && value[0] == ' ' then value[1..] else value
  }

  /** The event name after the given lines. */
  function NameAfter(name: string, ls: seq<string>): string
    decreases |ls|
  {
    if ls == [] then name
    else
      var line := Chomp(ls[0]);
      NameAfter(if NamesEvent(line) then TrimStart(line[6..]) else name, ls[1..])
  }

  function DataOf(ls: seq<string>): seq<string> {
    if ls == [] then []
    else
      var line := Chomp(ls[0]);
      (if HoldsData(line) then [DataValue(line)] else []) + DataOf(ls[1..])
  }

  /** A block without data lines dispatches nothing. */
  function Dispatched(block: string): seq<Event> {
    var ls := Lines(block);
    if DataOf(ls) == [] then [] else [Event(NameAfter("message", ls), Join(DataOf(ls)))]
  }

  method DispatchSSEBlock(block: string) returns (events: seq<Event>)
    ensures events == Dispatched(block)
  {
    hide TrimStart, IsSpace, Chomp, Lines, NameAfter, DataOf, Join, DataValue;
    var eventName, dataLines := "message", [];
    var ls := Lines(block);
    assert ls[0..] == ls;
    for i := 0 to |ls|
      invariant NameAfter(eventName, ls[i..]) == NameAfter("message", ls)
      invariant dataLines + DataOf(ls[i..]) == DataOf(ls)
    {
      var line := Chomp(ls[i]);
      LineStep(eventName, ls, i);
      if Skipped(line) {
        continue;
      }
      if "event:" <= line {
        NotBoth(line);
        eventName := TrimStart(line[6..]);
        continue;
      }
      if "data:" <= line {
        dataLines := dataLines + [DataValue(line)];
      }
    }
    NoLines(eventName, ls);
    assert dataLines + [] == dataLines;
    if |dataLines| > 0 {
      return [Event(eventName, Join(dataLines))];
    }
    return [];
  }

  lemma LineStep(name: string, ls: seq<string>, i: nat)
    requires i < |ls|
    ensures var line := Chomp(ls[i]);
            && NameAfter(name, ls[i..]) == NameAfter(if NamesEvent(line) then TrimStart(line[6..]) else name, ls[i + 1..])
            && DataOf(ls[i..]) == (if HoldsData(line) then [DataValue(line)] else []) + DataOf(ls[i + 1..])
  {
    hide TrimStart, Chomp;
    assert ls[i..][0] == ls[i] && ls[i..][1..] == ls[i + 1..];
  }

  lemma NoLines(name: string, ls: seq<string>)
    ensures NameAfter(name, ls[|ls|..]) == name && DataOf(ls[|ls|..]) == []
  {
  }

  lemma NotBoth(line: string)
    requires "event:" <= line
    ensures !HoldsData(line)
  {
    assert line[0] == "event:"[0] == 'e';
    assert "data:"[0] == 'd';
  }

  // ---------------------------------------------------------------- draining

  /** First pass: a carriage return before a line feed goes away. */
  function DropReturns(s: string): string {
    if s == [] then []
    else if s[0] == '\r' && |s| > 1 && s[1] == '\n' then DropReturns(s[1..])
    else [s[0]] + DropReturns(s[1..])
  }

  /** Second pass: every other carriage return becomes a line feed. */
  function ReturnsToFeeds(s: string): (r: string)
    ensures |r| == |s|
    ensures forall i :: 0 <= i < |s| ==> r[i] == if s[i] == '\r' then '\n' else s[i]
  {
    seq(|s|, i requires 0 <= i < |s| => if s[i] == '\r' then '\n' else s[i])
  }

  function Normalized(buffer: string): (r: string)
    ensures Free(r, '\r')
  {
    ReturnsToFeeds(DropReturns(buffer))
  }

  /** Where the first empty line of a normalized text begins. */
  function IndexBlank(s: string): (r: Option<nat>)
    ensures r.Some? ==> r.value + 2 <= |s|
  {
    if |s| < 2 then None
    else if s[0] == '\n' && s[1] == '\n' then Some(0)
    else
      var r := IndexBlank(s[1..]);
      if r.Some? then Some(r.value + 1) else None
  }

  /** Dispatching every complete block of a normalized text. */
  function Blocks(s: string): Drained
    decreases |s|
  {
    var i := IndexBlank(s);
    if i.None? then Drained([], s)
    else
      var d := Blocks(s[i.value + 2..]);
      Drained(Dispatched(s[..i.value]) + d.events, d.rest)
  }

  function Drain(buffer: string): Drained { Blocks(Normalized(buffer)) }

  method DrainSSEBuffer(buffer: string) returns (d: Drained)
    ensures d == Drain(buffer)
  {
    hide Dispatched, IndexBlank;
    var text := Normalized(buffer);
    var cursor, events := 0, [];
    assert text[0..] == text;
    while true
      invariant 0 <= cursor <= |text|
      invariant Blocks(text) == Drained(events + Blocks(text[cursor..]).events, Blocks(text[cursor..]).rest)
      decreases |text| - cursor
    {
      var i := IndexBlank(text[cursor..]);
      if i.None? {
        return Drained(events, text[cursor..]);
      }
      var block := text[cursor..][..i.value];
      var more := DispatchSSEBlock(block);
      events := events + more;
      assert text[cursor..][i.value + 2..] == text[cursor + i.value + 2..];
      cursor := cursor + i.value + 2;
    }
  }

  function Flushed(buffer: string): seq<Event> {
    var d := Drain(buffer);
    d.events + if TrimStart(d.rest) != [] then Dispatched(d.rest) else []
  }

  /** The end of the stream: what is left is a block of its own, unless it is blank. */
  method FlushSSEBuffer(buffer: string) returns (events: seq<Event>)
    ensures events == Flushed(buffer)
  {
    var d := DrainSSEBuffer(buffer);
    events := d.events;
    if TrimStart(d.rest) != [] {
      var last := DispatchSSEBlock(d.rest);
      events := events + last;
    }
  }

  // ---------------------------------------------------------------- splitting the transport

  /** The cut goes through a CR LF pair. */
  predicate CutsPair(a: string, b: string) {
    a != [] && a[|a| - 1] == '\r' && b != [] && b[0] == '\n'
  }

  lemma {:induction false} DropReturnsConcat(a: string, b: string)
    ensures !CutsPair(a, b) ==> DropReturns(a + b) == DropReturns(a) + DropReturns(b)
    ensures CutsPair(a, b) ==> |DropReturns(a + b)| < |DropReturns(a)| + |DropReturns(b)|
  {
    if a == [] {
      assert a + b == b;
    } else {
      assert (a + b)[1..] == a[1..] + b;
      DropReturnsConcat(a[1..], b);
      if |a| == 1 {
        assert a[1..] + b == b;
      }
    }
  }

  /** Normalizing the pieces is normalizing the whole exactly when the cut does not go through a CR LF pair. */
  lemma NormalizedConcat(a: string, b: string)
    ensures Normalized(a + b) == Normalized(a) + Normalized(b) <==> !CutsPair(a, b)
  {
    DropReturnsConcat(a, b);
    if !CutsPair(a, b) {
      assert Normalized(a + b) == Normalized(a) + Normalized(b);
    }
  }

  lemma {:induction false} NormalizedIsFixed(s: string)
    requires Free(s, '\r')
    ensures Normalized(s) == s
  {
    DropNothing(s);
  }

  lemma {:induction false} DropNothing(s: string)
    requires Free(s, '\r')
    ensures DropReturns(s) == s
  {
    if s != [] {
      DropNothing(s[1..]);
    }
  }

  lemma {:induction false} IndexBlankLocal(a: string, b: string)
    requires IndexBlank(a).Some?
    ensures IndexBlank(a + b) == IndexBlank(a)
  {
    assert (a + b)[1..] == a[1..] + b;
    if !(a[0] == '\n' && a[1] == '\n') {
      IndexBlankLocal(a[1..], b);
    }
  }

  /** The carried remainder is all the parser needs to know about what came before. */
  lemma {:induction false} BlocksConcat(a: string, b: string)
    ensures var d := Blocks(a);
            var e := Blocks(d.rest + b);
            Blocks(a + b) == Drained(d.events + e.events, e.rest)
    decreases |a|
  {
    hide Dispatched, IndexBlank;
    var i := IndexBlank(a);
    if i.Some? {
      IndexBlankLocal(a, b);
      assert (a + b)[..i.value] == a[..i.value] && (a + b)[i.value + 2..] == a[i.value + 2..] + b;
      BlocksConcat(a[i.value + 2..], b);
    }
  }

  lemma {:induction false} RestIsNormal(s: string)
    requires Free(s, '\r')
    ensures Free(Blocks(s).rest, '\r')
    decreases |s|
  {
    hide Dispatched, IndexBlank;
    var i := IndexBlank(s);
    if i.Some? {
      RestIsNormal(s[i.value + 2..]);
    }
  }

  function Concat(chunks: seq<string>): string {
    if chunks == [] then [] else Concat(chunks[..|chunks| - 1]) + chunks[|chunks| - 1]
  }

  /** The reading loop: each chunk is appended to the remainder and drained. */
  function Fed(chunks: seq<string>): Drained {
    if chunks == [] then Drained([], "")
    else
      var before := Fed(chunks[..|chunks| - 1]);
      var d := Drain(before.rest + chunks[|chunks| - 1]);
      Drained(before.events + d.events, d.rest)
  }

  /** No chunk boundary goes through a CR LF pair. */
  ghost predicate CleanCuts(chunks: seq<string>) {
    forall i :: 0 < i < |chunks| ==> !CutsPair(Concat(chunks[..i]), chunks[i])
  }

  /** Parsing chunk by chunk with the carried remainder is parsing the whole stream, however it was split. */
  lemma {:induction false} SplitIndependence(chunks: seq<string>)
    requires CleanCuts(chunks)
    ensures Fed(chunks) == Drain(Concat(chunks)) && Free(Fed(chunks).rest, '\r')
  {
    hide Blocks, Normalized, CutsPair;
    if chunks == [] {
      NothingDrains();
    } else {
      var most, last := chunks[..|chunks| - 1], chunks[|chunks| - 1];
      assert forall i :: 0 <= i <= |most| ==> most[..i] == chunks[..i];
      SplitIndependence(most);
      var rest, text := Fed(most).rest, Concat(most);
      NormalizedConcat(rest, last);
      NormalizedConcat(text, last);
      NormalizedIsFixed(rest);
      BlocksConcat(Normalized(text), Normalized(last));
      RestIsNormal(Normalized(text + last));
      if most == [] {
        NothingCuts(text, last);
      } else {
        assert !CutsPair(Concat(chunks[..|most|]), chunks[|most|]);
      }
      FreeNeverCuts(rest, last);
    }
  }

  lemma NothingDrains()
    ensures Drain("") == Drained([], "")
  {
  }

  lemma NothingCuts(a: string, b: string)
    requires a == []
    ensures !CutsPair(a, b)
  {
  }

  lemma FreeNeverCuts(a: string, b: string)
    requires Free(a, '\r')
    ensures !CutsPair(a, b)
  {
  }

  /** A text of one line has no empty line, and one empty line ends it. */
  lemma {:induction false} OneLine(l: string, rest: string)
    requires Free(l, '\n')
    ensures IndexBlank(l + "\n").None? && IndexBlank(l + "\n\n" + rest) == Some(|l|)
  {
    if l == "" {
      assert l + "\n\n" + rest == "\n\n" + rest;
      assert |l + "\n"| == 1;
    } else {
      assert (l + "\n")[1..] == l[1..] + "\n" && (l + "\n\n" + rest)[1..] == l[1..] + "\n\n" + rest;
      OneLine(l[1..], rest);
    }
  }

  lemma ReturnPairs(l: string)
    requires Free(l, '\r')
    ensures Normalized(l + "\r\n") == l + "\n" && Normalized(l + "\r") == l + "\n"
  {
    DropReturnsConcat(l, "\r\n");
    DropReturnsConcat(l, "\r");
    DropNothing(l);
    assert DropReturns("\r\n") == "\n" by {
      assert "\r\n"[1..] == "\n";
      DropNothing("\n");
    }
    assert DropReturns("\r") == "\r" by {
      assert "\r"[1..] == "";
    }
  }

  /** Through a CR LF pair it is false: any line of a CR LF stream, cut there, is dispatched before its block is complete. */
  lemma CutPairDispatchesEarly(l: string)
    requires Free(l, '\r') && Free(l, '\n')
    ensures Concat([l + "\r", "\n"]) == l + "\r\n"
    ensures Drain(l + "\r\n") == Drained([], l + "\n")
    ensures Fed([l + "\r", "\n"]) == Drained(Dispatched(l), "")
  {
    hide Normalized, Dispatched, IndexBlank;
    FedTwo(l + "\r", "\n");
    ReturnPairs(l);
    OneLine(l, "");
    assert l + "\r" + "\n" == l + "\r\n";
    NormalizedIsFixed(l + "\n" + "\n");
    var t := l + "\n\n" + "";
    assert l + "\n" + "\n" == t;
    assert t[..|l|] == l && t[|l| + 2..] == "";
    NothingLeft();
  }

  lemma FedTwo(a: string, b: string)
    ensures Concat([a, b]) == a + b
    ensures var d := Drain(a);
            var e := Drain(d.rest + b);
            Fed([a, b]) == Drained(d.events + e.events, e.rest)
  {
    hide Drain;
    assert [a, b][..1] == [a] && [a][..0] == [];
    assert Concat([a]) == Concat([]) + a == a;
    assert "" + a == a;
    assert Fed([a]) == Drained([] + Drain(a).events, Drain(a).rest);
  }

  // ---------------------------------------------------------------- when every continuation is safe

  predicate EndsWithReturn(s: string) { s != [] && s[|s| - 1] == '\r' }

  /** The remainder has no empty line, and if there is one it ends as the text does. */
  lemma {:induction false} RestIsOpen(s: string)
    ensures var rest := Blocks(s).rest;
            IndexBlank(rest).None? && |rest| <= |s| && (rest != [] ==> rest[|rest| - 1] == s[|s| - 1])
    decreases |s|
  {
    hide Dispatched, IndexBlank;
    var i := IndexBlank(s);
    if i.Some? {
      RestIsOpen(s[i.value + 2..]);
    }
  }

  /** What the reading loop carries over is normalized and has no empty line. */
  lemma FedIsOpen(chunks: seq<string>)
    ensures Free(Fed(chunks).rest, '\r') && IndexBlank(Fed(chunks).rest).None?
  {
    hide Blocks, Normalized, IndexBlank;
    if chunks == [] {
      NoBlankInNothing();
    } else {
      var text := Normalized(Fed(chunks[..|chunks| - 1]).rest + chunks[|chunks| - 1]);
      RestIsNormal(text);
      RestIsOpen(text);
    }
  }

  lemma NoBlankInNothing()
    ensures IndexBlank("").None?
  {
  }

  lemma FedOneMore(chunks: seq<string>, b: string)
    ensures var d, e := Fed(chunks), Drain(Fed(chunks).rest + b);
            Fed(chunks + [b]) == Drained(d.events + e.events, e.rest)
    ensures Concat(chunks + [b]) == Concat(chunks) + b
  {
    hide Drain;
    assert (chunks + [b])[..|chunks|] == chunks;
  }

  /** An empty chunk changes nothing. */
  lemma EmptyChunk(chunks: seq<string>)
    ensures Fed(chunks + [""]) == Fed(chunks)
  {
    hide Normalized, IndexBlank;
    FedOneMore(chunks, "");
    FedIsOpen(chunks);
    var rest := Fed(chunks).rest;
    assert rest + "" == rest;
    NormalizedIsFixed(rest);
  }

  /** A line feed after a carriage return that ends the text belongs to it. */
  lemma FeedAfterReturn(s: string)
    requires EndsWithReturn(s)
    ensures Normalized(s + "\n") == Normalized(s) && Normalized(s) != [] && Normalized(s)[|Normalized(s)| - 1] == '\n'
  {
    var t := s[..|s| - 1];
    assert s == t + "\r" && s + "\n" == t + "\r\n";
    DropReturnsConcat(t, "\r\n");
    DropReturnsConcat(t, "\r");
    assert DropReturns("\r\n") == "\n" by {
      assert "\r\n"[1..] == "\n";
      DropNothing("\n");
    }
    assert DropReturns("\r") == "\r" by {
      assert "\r"[1..] == "";
    }
  }

  lemma {:induction false} BlankAtEnd(r: string)
    requires IndexBlank(r).None? && r != [] && r[|r| - 1] == '\n'
    ensures IndexBlank(r + "\n") == Some(|r| - 1)
  {
    if |r| == 1 {
      assert r + "\n" == "\n\n";
    } else {
      assert (r + "\n")[1..] == r[1..] + "\n";
      BlankAtEnd(r[1..]);
    }
  }

  /** A further line feed always changes a remainder that is empty or ends with one. */
  lemma FeedChangesRest(r: string)
    requires Free(r, '\r') && IndexBlank(r).None? && (r != [] ==> r[|r| - 1] == '\n')
    ensures Drain(r + "\n").rest != r
  {
    hide Normalized, Dispatched, IndexBlank;
    NormalizedIsFixed(r + "\n");
    if r == [] {
      OneLine("", "");
      assert r + "\n" == "" + "\n";
    } else {
      BlankAtEnd(r);
      assert (r + "\n")[|r| - 1 + 2..] == "";
      NothingLeft();
    }
  }

  /** The parser is where it would be on the whole text so far, whatever comes next. */
  ghost predicate SafeToContinue(chunks: seq<string>) {
    forall b :: Fed(chunks + [b]) == Drain(Concat(chunks) + b)
  }

  lemma SafeMeansRead(chunks: seq<string>)
    requires SafeToContinue(chunks)
    ensures Fed(chunks) == Drain(Concat(chunks))
  {
    hide Drain, Fed, Concat;
    assert Fed(chunks + [""]) == Drain(Concat(chunks) + "");
    assert Concat(chunks) + "" == Concat(chunks);
    EmptyChunk(chunks);
  }

  /** After a carriage return, a line feed is read as an empty line although it is none. */
  lemma ReturnIsUnsafe(chunks: seq<string>)
    requires Fed(chunks) == Drain(Concat(chunks)) && EndsWithReturn(Concat(chunks))
    ensures Fed(chunks + ["\n"]) != Drain(Concat(chunks) + "\n")
  {
    hide Blocks, Normalized, Fed, Concat, IndexBlank;
    var text := Concat(chunks);
    FeedAfterReturn(text);
    FedOneMore(chunks, "\n");
    FedIsOpen(chunks);
    RestIsOpen(Normalized(text));
    FeedChangesRest(Fed(chunks).rest);
  }

  /** What has been read is safe to continue exactly if it was read right and does not end with a carriage return. */
  lemma ContinuationIff(chunks: seq<string>)
    ensures SafeToContinue(chunks) <==> Fed(chunks) == Drain(Concat(chunks)) && !EndsWithReturn(Concat(chunks))
  {
    hide Drain, Fed, Concat, EndsWithReturn;
    if SafeToContinue(chunks) {
      SafeMeansRead(chunks);
      assert Fed(chunks + ["\n"]) == Drain(Concat(chunks) + "\n");
      if EndsWithReturn(Concat(chunks)) {
        ReturnIsUnsafe(chunks);
      }
    } else if Fed(chunks) == Drain(Concat(chunks)) && !EndsWithReturn(Concat(chunks)) {
      forall b
        ensures Fed(chunks + [b]) == Drain(Concat(chunks) + b)
      {
        SafeChunk(chunks, b);
      }
    }
  }

  lemma SafeChunk(chunks: seq<string>, b: string)
    requires Fed(chunks) == Drain(Concat(chunks)) && !EndsWithReturn(Concat(chunks))
    ensures Fed(chunks + [b]) == Drain(Concat(chunks) + b)
  {
    hide Blocks, Normalized, Fed;
    var rest, text := Fed(chunks).rest, Concat(chunks);
    FedOneMore(chunks, b);
    FedIsOpen(chunks);
    NormalizedConcat(rest, b);
    NormalizedConcat(text, b);
    NormalizedIsFixed(rest);
    BlocksConcat(Normalized(text), Normalized(b));
  }

  /** Cutting a stream after `a` is safe for every continuation exactly if `a` does not end with a carriage return. */
  lemma TwoPieces(a: string)
    ensures (forall b :: Fed([a, b]) == Drain(a + b)) <==> !EndsWithReturn(a)
  {
    hide Drain, Fed;
    FedOne(a);
    ContinuationIff([a]);
    assert forall b :: [a] + [b] == [a, b];
    if forall b :: Fed([a, b]) == Drain(a + b) {
      assert forall b :: Fed([a] + [b]) == Drain(Concat([a]) + b);
    } else {
      var b :| Fed([a, b]) != Drain(a + b);
      assert Fed([a] + [b]) != Drain(Concat([a]) + b);
    }
  }

  lemma FedOne(a: string)
    ensures Concat([a]) == a && Fed([a]) == Drain(a)
  {
    hide Drain;
    assert [a][..0] == [];
    assert Concat([a]) == Concat([]) + a == a;
    assert "" + a == a;
    assert Fed([a]) == Drained([] + Drain(a).events, Drain(a).rest);
  }

  /**
   The exact condition for a stream read in chunks: after each of them the parser is where it would be on the whole text,
   whatever comes next, if and only if no chunk ends the text so far with a carriage return.
   */
  lemma SplitIndependenceIff(chunks: seq<string>)
    ensures (forall i :: 0 <= i <= |chunks| ==> SafeToContinue(chunks[..i]))
            <==> forall i :: 0 <= i <= |chunks| ==> !EndsWithReturn(Concat(chunks[..i]))
  {
    hide SafeToContinue, Drain, Fed, Concat, EndsWithReturn;
    if forall i :: 0 <= i <= |chunks| ==> !EndsWithReturn(Concat(chunks[..i])) {
      forall i | 0 <= i <= |chunks|
        ensures SafeToContinue(chunks[..i])
      {
        assert forall k :: 0 <= k <= i ==> chunks[..i][..k] == chunks[..k];
        NoReturnsAreClean(chunks[..i]);
        SplitIndependence(chunks[..i]);
        ContinuationIff(chunks[..i]);
      }
    } else {
      var i :| 0 <= i <= |chunks| && EndsWithReturn(Concat(chunks[..i]));
      ContinuationIff(chunks[..i]);
    }
  }

  lemma NoReturnsAreClean(chunks: seq<string>)
    requires forall i :: 0 <= i <= |chunks| ==> !EndsWithReturn(Concat(chunks[..i]))
    ensures CleanCuts(chunks)
  {
    hide Concat;
  }

  lemma NothingLeft()
    ensures Blocks("") == Drained([], "")
  {
  }

  // ---------------------------------------------------------------- the server's frames

  function Prefixed(ls: seq<string>): (r: seq<string>)
    ensures |r| == |ls|
  {
    if ls == [] then [] else ["data: " + ls[0]] + Prefixed(ls[1..])
  }

  function DataLines(ls: seq<string>): string {
    if ls == [] then "" else "data: " + ls[0] + "\n" + DataLines(ls[1..])
  }

  /** One frame: the event name, a data line for each line of the text, and an empty line. */
  function Frame(e: Event): string {
    "event: " + e.name + "\n" + DataLines(Lines(e.data)) + "\n"
  }

  /** Writes a frame line by line. */
  method WriteFrame(e: Event) returns (out: string)
    ensures out == Frame(e)
  {
    hide Lines;
    out := "event: " + e.name + "\n";
    var ls := Lines(e.data);
    assert ls[0..] == ls;
    for i := 0 to |ls|
      invariant out + DataLines(ls[i..]) == "event: " + e.name + "\n" + DataLines(ls)
    {
      assert ls[i..][0] == ls[i] && ls[i..][1..] == ls[i + 1..];
      out := out + ("data: " + ls[i] + "\n");
    }
    assert ls[|ls|..] == [];
    out := out + "\n";
  }

  function TrimFeeds(s: string): string {
    if s != [] && s[|s| - 1] == '\n' then TrimFeeds(s[..|s| - 1]) else s
  }

  /** The frame of a piece of a run's log: trailing line feeds are dropped. */
  function LogEvent(text: string): Event { Event("chunk", TrimFeeds(text)) }

  /** Event names the server uses: they fit on a line and do not begin with white space. */
  predicate GoodName(name: string) {
    name != [] && !IsSpace(name[0]) && Free(name, '\n') && Free(name, '\r')
  }

  /** The frame without its last two line feeds. */
  function FrameBlock(e: Event): string { Join(["event: " + e.name] + Prefixed(Lines(e.data))) }

  lemma {:induction false} DataLinesJoin(ls: seq<string>)
    requires |ls| > 0
    ensures DataLines(ls) == Join(Prefixed(ls)) + "\n"
  {
    if |ls| > 1 {
      DataLinesJoin(ls[1..]);
      assert Prefixed(ls)[1..] == Prefixed(ls[1..]);
    } else {
      assert ls[1..] == [];
      assert Prefixed(ls) == ["data: " + ls[0]];
    }
  }

  lemma FrameIsBlock(e: Event)
    ensures Frame(e) == FrameBlock(e) + "\n\n"
  {
    hide Lines;
    var ls := Lines(e.data);
    DataLinesJoin(ls);
    assert (["event: " + e.name] + Prefixed(ls))[1..] == Prefixed(ls);
    assert FrameBlock(e) == "event: " + e.name + "\n" + Join(Prefixed(ls));
  }

  ghost predicate Solid(ls: seq<string>) { forall i :: 0 <= i < |ls| ==> ls[i] != "" && Free(ls[i], '\n') }

  /** Where every line has text, the first empty line is the one after them. */
  lemma {:induction false} SolidBlock(ls: seq<string>, rest: string)
    requires |ls| > 0 && Solid(ls)
    ensures Join(ls) != "" && Join(ls)[0] != '\n' && IndexBlank(Join(ls) + "\n\n" + rest) == Some(|Join(ls)|)
  {
    if |ls| == 1 {
      OneLine(ls[0], rest);
    } else {
      SolidBlock(ls[1..], rest);
      var t := Join(ls[1..]) + "\n\n" + rest;
      SkipLine(ls[0], t);
      assert Join(ls) + "\n\n" + rest == ls[0] + "\n" + t;
    }
  }

  lemma {:induction false} SkipLine(l: string, t: string)
    requires Free(l, '\n') && t != "" && t[0] != '\n' && IndexBlank(t).Some?
    ensures IndexBlank(l + "\n" + t) == Some(|l| + 1 + IndexBlank(t).value)
  {
    var s := l + "\n" + t;
    if l == "" {
      assert s[1..] == t;
    } else {
      assert s[1..] == l[1..] + "\n" + t;
      SkipLine(l[1..], t);
    }
  }

  lemma {:induction false} PrefixedSolid(ls: seq<string>)
    requires AllFree(ls)
    ensures Solid(Prefixed(ls))
  {
    if ls != [] {
      PrefixedSolid(ls[1..]);
      assert Free("data: " + ls[0], '\n');
    }
  }

  /** A data line gives back its text, as long as it has no carriage return. */
  lemma DataLineReads(l: string)
    requires Free(l, '\r')
    ensures Chomp("data: " + l) == "data: " + l && HoldsData("data: " + l) && DataValue("data: " + l) == l
    ensures !NamesEvent("data: " + l)
  {
    var line := "data: " + l;
    assert line[..5] == "data:" && line[5..] == " " + l && line[0] == 'd';
    assert Free(line, '\r');
    assert "event:"[0] == 'e';
  }

  lemma EventLineReads(name: string)
    requires GoodName(name)
    ensures var line := "event: " + name;
            Chomp(line) == line && NamesEvent(line) && TrimStart(line[6..]) == name && !HoldsData(line)
  {
    var line := "event: " + name;
    assert line[..6] == "event:" && line[6..] == " " + name && line[0] == 'e';
    assert Free(line, '\r');
    assert (" " + name)[1..] == name;
    assert IsSpace(' ');
    NotBoth(line);
  }

  lemma {:induction false} PrefixedRead(name: string, ls: seq<string>)
    requires forall i :: 0 <= i < |ls| ==> Free(ls[i], '\r')
    ensures DataOf(Prefixed(ls)) == ls && NameAfter(name, Prefixed(ls)) == name
  {
    hide Chomp, HoldsData, NamesEvent, DataValue, TrimStart;
    if ls != [] {
      DataLineReads(ls[0]);
      PrefixedRead(name, ls[1..]);
      assert Prefixed(ls)[1..] == Prefixed(ls[1..]);
    }
  }

  ghost predicate Sendable(e: Event) { GoodName(e.name) && Free(e.data, '\r') }

  lemma {:induction false} LinesFree(s: string)
    requires Free(s, '\r')
    ensures forall i :: 0 <= i < |Lines(s)| ==> Free(Lines(s)[i], '\r')
  {
    if s != [] {
      LinesFree(s[1..]);
    }
  }

  /** The parser reads back the name and the text of a frame. */
  lemma BlockReads(e: Event)
    requires Sendable(e)
    ensures Dispatched(FrameBlock(e)) == [e]
  {
    hide Lines, Prefixed, TrimStart, Chomp, HoldsData, NamesEvent, GoodName;
    var ls := Lines(e.data);
    LinesFree(e.data);
    LinesHaveNoFeed(e.data);
    JoinLines(e.data);
    PrefixedSolid(ls);
    EventLineReads(e.name);
    PrefixedRead(e.name, ls);
    NameIsLine(e.name);
    var all := ["event: " + e.name] + Prefixed(ls);
    LinesJoin(all);
    assert all[0] == "event: " + e.name && all[1..] == Prefixed(ls);
    assert DataOf(all) == DataOf(Prefixed(ls));
    assert NameAfter("message", all) == NameAfter(e.name, Prefixed(ls));
  }

  lemma NameIsLine(name: string)
    requires GoodName(name)
    ensures "event: " + name != "" && Free("event: " + name, '\n') && Free("event: " + name, '\r')
  {
  }

  /** A frame at the front of a normalized text is the first event. */
  lemma FrameFirst(e: Event, rest: string)
    requires Sendable(e)
    ensures Blocks(Frame(e) + rest) == Drained([e] + Blocks(rest).events, Blocks(rest).rest)
  {
    hide Lines, Prefixed, Dispatched, IndexBlank, GoodName;
    BlockReads(e);
    FrameIsBlock(e);
    LinesHaveNoFeed(e.data);
    PrefixedSolid(Lines(e.data));
    NameIsLine(e.name);
    SolidBlock(["event: " + e.name] + Prefixed(Lines(e.data)), rest);
    var s, b := Frame(e) + rest, FrameBlock(e);
    assert s == b + "\n\n" + rest;
    assert s[..|b|] == b && s[|b| + 2..] == rest;
  }

  function Stream(es: seq<Event>): string {
    if es == [] then "" else Frame(es[0]) + Stream(es[1..])
  }

  lemma {:induction false} DataLinesFree(ls: seq<string>)
    requires forall i :: 0 <= i < |ls| ==> Free(ls[i], '\r')
    ensures Free(DataLines(ls), '\r')
  {
    if ls != [] {
      DataLinesFree(ls[1..]);
    }
  }

  lemma FrameFree(e: Event)
    requires Sendable(e)
    ensures Free(Frame(e), '\r')
  {
    hide Lines, DataLines, GoodName;
    LinesFree(e.data);
    DataLinesFree(Lines(e.data));
    NameIsLine(e.name);
    assert Free("event: " + e.name + "\n" + DataLines(Lines(e.data)), '\r');
  }

  lemma {:induction false} StreamReads(es: seq<Event>)
    requires forall i :: 0 <= i < |es| ==> Sendable(es[i])
    ensures Free(Stream(es), '\r') && Blocks(Stream(es)) == Drained(es, "")
  {
    hide Frame, Sendable, Blocks;
    if es == [] {
      NothingLeft();
    } else {
      StreamReads(es[1..]);
      FrameFree(es[0]);
      FrameFirst(es[0], Stream(es[1..]));
      assert [es[0]] + es[1..] == es;
    }
  }

  lemma {:induction false} FreePiecesAreClean(chunks: seq<string>)
    requires Free(Concat(chunks), '\r')
    ensures CleanCuts(chunks)
  {
    if chunks != [] {
      var most := chunks[..|chunks| - 1];
      assert forall i :: 0 <= i < |Concat(most)| ==> Concat(most)[i] == Concat(chunks)[i];
      FreePiecesAreClean(most);
      forall i | 0 < i < |chunks|
        ensures !CutsPair(Concat(chunks[..i]), chunks[i])
      {
        if i < |most| {
          assert most[..i] == chunks[..i];
        }
      }
    }
  }

  /** Whatever the transport does with the frames, the client sees exactly the events the server framed, and nothing is left. */
  lemma StreamRoundTrip(es: seq<Event>, chunks: seq<string>)
    requires forall i :: 0 <= i < |es| ==> Sendable(es[i])
    requires Concat(chunks) == Stream(es)
    ensures Fed(chunks) == Drained(es, "") && Flushed(Fed(chunks).rest) == []
  {
    hide Stream, Concat, Sendable, Fed;
    StreamReads(es);
    FreePiecesAreClean(chunks);
    SplitIndependence(chunks);
    NormalizedIsFixed(Stream(es));
    NothingDrains();
  }

  // ---------------------------------------------------------------- and it is exact

  lemma {:induction false} DataFree(ls: seq<string>)
    requires forall i :: 0 <= i < |ls| ==> Free(ls[i], '\r')
    ensures forall i :: 0 <= i < |DataOf(ls)| ==> Free(DataOf(ls)[i], '\r')
  {
    if ls != [] {
      DataFree(ls[1..]);
    }
  }

  lemma {:induction false} JoinFree(ls: seq<string>)
    requires |ls| > 0 && forall i :: 0 <= i < |ls| ==> Free(ls[i], '\r')
    ensures Free(Join(ls), '\r')
  {
    if |ls| > 1 {
      JoinFree(ls[1..]);
    }
  }

  /** No event the parser dispatches has a carriage return in its text. */
  lemma {:induction false} EventsAreFree(s: string)
    requires Free(s, '\r')
    ensures forall i :: 0 <= i < |Blocks(s).events| ==> Free(Blocks(s).events[i].data, '\r')
    decreases |s|
  {
    hide IndexBlank, DataOf, Join, Lines, NameAfter;
    var i := IndexBlank(s);
    if i.Some? {
      EventsAreFree(s[i.value + 2..]);
      var ls := Lines(s[..i.value]);
      LinesFree(s[..i.value]);
      DataFree(ls);
      if DataOf(ls) != [] {
        JoinFree(DataOf(ls));
      }
    }
  }

  /** A frame is read back exactly when its text has no carriage return. */
  lemma FrameRoundTrip(e: Event)
    requires GoodName(e.name)
    ensures Drain(Frame(e)) == Drained([e], "") <==> Free(e.data, '\r')
  {
    hide Blocks, Normalized, Frame, GoodName;
    if Free(e.data, '\r') {
      FrameFree(e);
      NormalizedIsFixed(Frame(e));
      FrameFirst(e, "");
      NothingLeft();
      assert Frame(e) + "" == Frame(e);
    } else {
      EventsAreFree(Normalized(Frame(e)));
      var events := Drain(Frame(e)).events;
      assert |events| > 0 ==> Free(events[0].data, '\r');
    }
  }

  lemma {:induction false} TrimFeedsKeepsReturns(s: string)
    ensures Free(TrimFeeds(s), '\r') <==> Free(s, '\r')
    ensures TrimFeeds(s) <= s && (TrimFeeds(s) != [] ==> TrimFeeds(s)[|TrimFeeds(s)| - 1] != '\n')
    ensures forall i :: |TrimFeeds(s)| <= i < |s| ==> s[i] == '\n'
  {
    if s != [] && s[|s| - 1] == '\n' {
      TrimFeedsKeepsReturns(s[..|s| - 1]);
      assert Free(s, '\r') <==> Free(s[..|s| - 1], '\r');
    }
  }

  /** A piece of a run's log arrives as its text without trailing line feeds, exactly when it has no carriage return. */
  lemma LogRoundTrip(text: string)
    ensures Drain(Frame(LogEvent(text))) == Drained([LogEvent(text)], "") <==> Free(text, '\r')
    ensures var data := LogEvent(text).data;
            && data <= text && (data != [] ==> data[|data| - 1] != '\n')
            && forall i :: |data| <= i < |text| ==> text[i] == '\n'
  {
    hide Drain, Frame, TrimFeeds;
    TrimFeedsKeepsReturns(text);
    FrameRoundTrip(LogEvent(text));
  }

  // ---------------------------------------------------------------- lines the server does not send

  /** Comment lines are ignored. */
  lemma CommentsAreIgnored(c: string, block: string)
    requires Free(c, '\n')
    ensures Dispatched(":" + c + "\n" + block) == Dispatched(block)
  {
    hide Lines, TrimStart;
    var line := ":" + c;
    FirstLine(line, block);
    var ls := [line] + Lines(block);
    assert ls[0] == line && ls[1..] == Lines(block);
    assert Chomp(line) == [] || Chomp(line)[0] == ':';
    assert NameAfter("message", ls) == NameAfter("message", Lines(block));
    assert DataOf(ls) == [] + DataOf(Lines(block)) == DataOf(Lines(block));
    assert Lines(line + "\n" + block) == ls;
  }

  /** A data line alone is a `message`; one space after the colon does not belong to the text. */
  lemma LoneDataLine(l: string)
    requires Free(l, '\n') && Free(l, '\r')
    ensures Dispatched("data:" + l) == [Event("message", if l != [] && l[0] == ' ' then l[1..] else l)]
  {
    hide Lines, TrimStart;
    var line := "data:" + l;
    assert Free(line, '\n') && Free(line, '\r');
    FirstLine(line, "");
    assert line[..5] == "data:" && line[5..] == l && line[0] == 'd';
    assert "event:"[0] == 'e';
    assert Chomp(line) == line && HoldsData(line) && !NamesEvent(line);
    var none: seq<string> := [line][1..];
    assert none == [];
    assert DataOf([line]) == [DataValue(line)] + DataOf(none) == [DataValue(line)];
    assert NameAfter("message", [line]) == NameAfter("message", none) == "message";
    assert Lines(line) == [line];
  }

  /** Of several event lines the last one names the event, and one without data lines is not dispatched. */
  lemma LastNameWins(a: string, e: Event)
    requires Free(a, '\n') && Sendable(e)
    ensures Dispatched("event:" + a + "\n" + FrameBlock(e)) == [e]
    ensures Dispatched("event:" + a) == []
  {
    hide TrimStart, GoodName, FrameBlock, Prefixed, Lines, Chomp, NamesEvent, HoldsData, Join;
    var line := "event:" + a;
    assert Free(line, '\n');
    FirstLine(line, FrameBlock(e));
    FirstLine(line, "");
    BlockReads(e);
    var rest := Lines(FrameBlock(e));
    var ls := [line] + rest;
    var none: seq<string> := [line][1..];
    assert ls[0] == line && ls[1..] == rest && none == [];
    EventLineHoldsNoData(a);
    assert DataOf(ls) == [] + DataOf(rest) == DataOf(rest);
    assert DataOf([line]) == [] + DataOf(none) == [];
    FrameNames(e);
    forall name
      ensures NameAfter(name, rest) == NameAfter("message", rest)
    {
      NameIgnoresStart(name, "message", rest);
    }
    assert NameAfter("message", ls) == NameAfter("message", rest);
    assert Lines(line + "\n" + FrameBlock(e)) == ls;
  }

  lemma EventLineHoldsNoData(a: string)
    ensures !HoldsData(Chomp("event:" + a))
  {
    var line := "event:" + a;
    assert line[0] == 'e' && "data:"[0] == 'd';
    assert Chomp(line) != [] ==> Chomp(line)[0] == 'e';
  }

  ghost predicate HasName(ls: seq<string>) { exists k :: 0 <= k < |ls| && NamesEvent(Chomp(ls[k])) }

  /** Where a line names the event, what came before does not matter. */
  lemma {:induction false} NameIgnoresStart(a: string, b: string, ls: seq<string>)
    ensures HasName(ls) ==> NameAfter(a, ls) == NameAfter(b, ls)
  {
    hide TrimStart, Chomp, NamesEvent;
    if HasName(ls) {
      var k :| 0 <= k < |ls| && NamesEvent(Chomp(ls[k]));
      if !NamesEvent(Chomp(ls[0])) {
        assert ls[1..][k - 1] == ls[k];
        NameIgnoresStart(a, b, ls[1..]);
      }
    }
  }

  lemma FrameNames(e: Event)
    requires Sendable(e)
    ensures HasName(Lines(FrameBlock(e)))
  {
    hide Lines, Prefixed, TrimStart, GoodName, Chomp, NamesEvent;
    var ls := Lines(e.data);
    LinesHaveNoFeed(e.data);
    PrefixedSolid(ls);
    EventLineReads(e.name);
    NameIsLine(e.name);
    var all := ["event: " + e.name] + Prefixed(ls);
    LinesJoin(all);
    assert all[0] == "event: " + e.name;
  }

  /** A stream that ends before the empty line of its last frame still delivers it, and blank remainders deliver nothing. */
  lemma FlushDelivers(e: Event, blank: string)
    requires Sendable(e) && TrimStart(blank) == [] && Free(blank, '\n') && Free(blank, '\r')
    ensures Flushed(FrameBlock(e)) == [e] && Flushed(blank) == []
  {
    hide Normalized, Dispatched, IndexBlank, TrimStart, Lines, Prefixed, GoodName;
    BlockIsOpen(e);
    NormalizedIsFixed(FrameBlock(e));
    BlockReads(e);
    NormalizedIsFixed(blank);
    NoFeedNoBlank(blank);
  }

  lemma {:induction false} NoFeedNoBlank(s: string)
    requires Free(s, '\n')
    ensures IndexBlank(s).None?
  {
    if |s| >= 2 {
      NoFeedNoBlank(s[1..]);
    }
  }

  lemma BlockIsOpen(e: Event)
    requires Sendable(e)
    ensures Free(FrameBlock(e), '\r') && IndexBlank(FrameBlock(e)).None? && TrimStart(FrameBlock(e)) != []
  {
    hide Lines, Prefixed, IndexBlank, GoodName, Join;
    FrameFree(e);
    FrameIsBlock(e);
    assert forall i :: 0 <= i < |FrameBlock(e)| ==> FrameBlock(e)[i] == Frame(e)[i];
    LinesHaveNoFeed(e.data);
    PrefixedSolid(Lines(e.data));
    NameIsLine(e.name);
    var all := ["event: " + e.name] + Prefixed(Lines(e.data));
    SolidBlock(all, "");
    var tail := "\n\n" + "";
    assert FrameBlock(e) + tail == FrameBlock(e) + "\n\n" + "";
    if IndexBlank(FrameBlock(e)).Some? {
      IndexBlankLocal(FrameBlock(e), tail);
    }
    BlockStarts(e);
  }

  lemma BlockStarts(e: Event)
    ensures FrameBlock(e) != [] && FrameBlock(e)[0] == 'e'
  {
    hide Lines, Prefixed;
    var all := ["event: " + e.name] + Prefixed(Lines(e.data));
    assert all[0] == "event: " + e.name && ("event: " + e.name)[0] == 'e';
  }
}
