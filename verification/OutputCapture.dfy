/** Capturing what an agent process prints: a capped copy of stdout and the tail of stderr. */
module OutputCapture {
  import opened Common

  function Min(a: int, b: int): int { if a < b then a else b }

  /** The last `n` elements, or all of them. */
  function LastN<T>(s: seq<T>, n: nat): (r: seq<T>)
    ensures |r| == Min(n, |s|)
  {
    if |s| <= n then s else s[|s| - n..]
  }

  /** Keeping a tail and then appending loses nothing that a later tail would keep. */
  lemma TailOfTail<T>(s: seq<T>, p: seq<T>, n: nat)
    ensures LastN(LastN(s, n) + p, n) == LastN(s + p, n)
  {
  }

  // ---------------------------------------------------------------- the stderr ring

  /** What a ring of slots holds, oldest first, when the next write goes to `start`. */
  function Ring(slots: seq<byte>, start: nat, filled: bool): seq<byte> {
    if start >= |slots| then [] else if !filled then slots[..start] else slots[start..] + slots[..start]
  }

  class RingBuffer {
    var buf: array<byte>
    var start: nat
    var filled: bool
    /** Everything ever written. */
    ghost var written: seq<byte>

    ghost predicate Valid()
      reads this, buf
    {
      && (if buf.Length == 0 then start == 0 && !filled else start < buf.Length)
      && Contents() == LastN(written, buf.Length)
    }

    ghost function Contents(): seq<byte>
      reads this, buf
    {
      Ring(buf[..], start, filled)
    }

    constructor (size: int)
      ensures Valid() && written == [] && fresh(buf) && buf.Length == if size < 0 then 0 else size
    {
      var n: nat := if size < 0 then 0 else size;
      buf := new byte[n](_ => 0);
      start, filled, written := 0, false, [];
    }

    method Put(b: byte)
      requires Valid() && buf.Length > 0
      modifies this`start, this`filled, this`written, buf
      ensures Valid() && written == old(written) + [b]
    {
      hide LastN, Ring;
      buf[start] := b;
      start := (start + 1) % buf.Length;
      if start == 0 {
        filled := true;
      }
      written := written + [b];
      assert buf[..] == old(buf[..])[old(start) := b];
      RingStep(old(buf[..]), old(start), old(filled), b);
      TailOfTail(old(written), [b], buf.Length);
    }

    /** After any number of writes the buffer holds the last `buf.Length` bytes of all of them together. */
    method Write(p: seq<byte>) returns (n: nat)
      requires Valid()
      modifies this`start, this`filled, this`written, buf
      ensures Valid() && written == old(written) + p && n == |p|
    {
      hide Ring, LastN;
      if buf.Length == 0 {
        NoRing(buf[..], written);
        NoRing(buf[..], written + p);
        written := written + p;
        return |p|;
      }
      for i := 0 to |p|
        invariant Valid() && written == old(written) + p[..i]
      {
        Put(p[i]);
        assert p[..i + 1] == p[..i] + [p[i]];
      }
      assert p[..|p|] == p;
      return |p|;
    }

    method Bytes() returns (out: seq<byte>)
      requires Valid()
      ensures out == LastN(written, buf.Length)
    {
      if buf.Length == 0 {
        return [];
      }
      if !filled {
        return buf[..start];
      }
      return buf[start..] + buf[..start];
    }
  }

  lemma NoRing(slots: seq<byte>, text: seq<byte>)
    requires |slots| == 0
    ensures Ring(slots, 0, false) == [] == LastN(text, 0)
  {
  }

  lemma DropOldest(s: seq<byte>, b: byte, n: nat)
    requires |s| == n > 0
    ensures LastN(s + [b], n) == s[1..] + [b]
  {
  }

  lemma NotYetFull(s: seq<byte>, b: byte, n: nat)
    requires |s| < n
    ensures LastN(s + [b], n) == s + [b]
  {
  }

  lemma RingAdvances(slots: seq<byte>, start: nat, filled: bool, b: byte)
    requires start + 1 < |slots|
    ensures Ring(slots[start := b], start + 1, filled) == LastN(Ring(slots, start, filled) + [b], |slots|)
  {
    hide LastN;
    SlotsSplit(slots, start, b);
    var ring := Ring(slots, start, filled);
    if filled {
      DropOldest(ring, b, |slots|);
      assert ring[1..] == slots[start + 1..] + slots[..start];
    } else {
      NotYetFull(ring, b, |slots|);
    }
  }

  lemma RingWraps(slots: seq<byte>, start: nat, filled: bool, b: byte)
    requires start + 1 == |slots|
    ensures Ring(slots[start := b], 0, true) == LastN(Ring(slots, start, filled) + [b], |slots|)
  {
    hide LastN;
    SlotsSplit(slots, start, b);
    var ring := Ring(slots, start, filled);
    if filled {
      DropOldest(ring, b, |slots|);
      assert ring[1..] == slots[..start];
    } else {
      NotYetFull(ring, b, |slots|);
    }
  }

  /** Overwriting the oldest slot appends to the ring's contents and drops what no longer fits. */
  lemma RingStep(slots: seq<byte>, start: nat, filled: bool, b: byte)
    requires start < |slots|
    ensures var next := (start + 1) % |slots|;
            Ring(slots[start := b], next, filled || next == 0) == LastN(Ring(slots, start, filled) + [b], |slots|)
  {
    hide LastN, Ring;
    if start + 1 == |slots| {
      RingWraps(slots, start, filled, b);
    } else {
      RingAdvances(slots, start, filled, b);
    }
  }

  lemma SlotsSplit(slots: seq<byte>, start: nat, b: byte)
    requires start < |slots|
    ensures slots[start := b][..start + 1] == slots[..start] + [b]
    ensures slots[start := b][start + 1..] == slots[start + 1..]
    ensures start + 1 == |slots| ==> slots[start := b] == slots[..start] + [b]
  {
  }

  // ---------------------------------------------------------------- the capped copy of stdout

  datatype Fault = WriteFailed | ShortWrite | ReadFailed

  /**
   A writer that takes `room` more bytes, if there is a limit. The write that exceeds it stores what fits and, unless it is
   `quiet`, reports an error.
   */
  class Sink {
    var data: seq<byte>
    var room: Option<nat>
    const quiet: bool

    constructor (room: Option<nat>, quiet: bool)
      ensures data == [] && this.room == room && this.quiet == quiet
    {
      data, this.room, this.quiet := [], room, quiet;
    }

    method Write(p: seq<byte>) returns (n: nat, failed: bool)
      modifies this
      ensures n == Room(old(room), |p|)
      ensures data == old(data) + p[..n]
      ensures room == if old(room).Some? then Some(old(room).value - n) else None
      ensures failed == (n < |p| && !quiet)
    {
      n := if room.Some? && room.value < |p| then room.value else |p|;
      data := data + p[..n];
      if room.Some? {
        room := Some(room.value - n);
      }
      failed := n < |p| && !quiet;
    }
  }

  /** A reader that hands out the remaining chunks and then ends; `early` ends arrive together with the last chunk. */
  class Reader {
    var chunks: seq<seq<byte>>
    const fails: bool
    const early: bool

    constructor (chunks: seq<seq<byte>>, fails: bool, early: bool)
      ensures this.chunks == chunks && this.fails == fails && this.early == early
    {
      this.chunks, this.fails, this.early := chunks, fails, early;
    }

    method Read() returns (chunk: seq<byte>, ended: bool)
      modifies this
      ensures old(chunks) == [] ==> chunk == [] && ended && chunks == []
      ensures old(chunks) != [] ==> chunk == old(chunks)[0] && chunks == old(chunks)[1..]
      ensures ended ==> chunks == []
    {
      if chunks == [] {
        return [], true;
      }
      chunk, chunks := chunks[0], chunks[1..];
      ended := early && chunks == [];
    }
  }

  function Flatten(chunks: seq<seq<byte>>): seq<byte> {
    if chunks == [] then [] else chunks[0] + Flatten(chunks[1..])
  }

  function Cap(capBytes: int): nat { if capBytes < 0 then 0 else capBytes }

  /** The bytes of `text` that fall under the cap. */
  function Kept(text: seq<byte>, cap: nat): (r: seq<byte>)
    ensures |r| == Min(cap, |text|)
  {
    text[..Min(cap, |text|)]
  }

  /** What a capped copy of `text` should put out. */
  function Capped(text: seq<byte>, cap: nat, marker: seq<byte>): seq<byte> {
    Kept(text, cap) + if |text| > cap then marker else []
  }

  function Room(room: Option<nat>, wanted: nat): (r: nat)
    ensures r <= wanted
  {
    if room.Some? then Min(room.value, wanted) else wanted
  }

  /** Reading on extends what is kept by a prefix of the new chunk. */
  lemma KeptMore(text: seq<byte>, chunk: seq<byte>, cap: nat)
    ensures Kept(text + chunk, cap) == Kept(text, cap) + if |text| < cap then chunk[..Min(|chunk|, cap - |text|)] else []
  {
  }

  lemma CappedMore(text: seq<byte>, chunk: seq<byte>, cap: nat, marker: seq<byte>)
    ensures |text| > cap ==> Capped(text + chunk, cap, marker) == Capped(text, cap, marker)
    ensures |text| <= cap ==> Capped(text, cap, marker) == text
    ensures |text| <= cap && |chunk| <= cap - |text| ==> Capped(text + chunk, cap, marker) == text + chunk
    ensures |text| <= cap && |chunk| > cap - |text| ==> Capped(text + chunk, cap, marker) == text + chunk[..cap - |text|] + marker
  {
  }

  /** What is kept of a text begins with what is kept of its beginning. */
  lemma KeptPrefix(text: seq<byte>, rest: seq<byte>, cap: nat, marker: seq<byte>, r: nat)
    requires r <= |Kept(text, cap)|
    ensures Capped(text + rest, cap, marker)[..r] == Kept(text, cap)[..r]
    ensures |Kept(text, cap)| <= |Kept(text + rest, cap)|
  {
  }

  /** The sink runs out of room in the kept bytes, or, if it says so, in the marker. */
  predicate Stalls(room: Option<nat>, quiet: bool, text: seq<byte>, cap: nat, marker: seq<byte>) {
    room.Some? && (room.value < |Kept(text, cap)| || (room.value < |Capped(text, cap, marker)| && !quiet))
  }

  /** The sink took as much of `out` as it had room for. */
  ghost predicate Took(data: seq<byte>, room: Option<nat>, data0: seq<byte>, room0: Option<nat>, out: seq<byte>) {
    && data == data0 + out[..Room(room0, |out|)]
    && room == if room0.Some? then Some(room0.value - Room(room0, |out|)) else None
  }

  /** Taking a second piece after a first that fitted. */
  lemma TookMore(data: seq<byte>, room: Option<nat>, data0: seq<byte>, room0: Option<nat>, out: seq<byte>, more: seq<byte>)
    requires Took(data, room, data0, room0, out) && (room0.Some? ==> |out| <= room0.value)
    ensures var n := Room(room, |more|);
            Took(data + more[..n], if room.Some? then Some(room.value - n) else None, data0, room0, out + more)
            && n == Room(room0, |out + more|) - |out|
  {
    var n := Room(room, |more|);
    assert (out + more)[..|out| + n] == out + more[..n];
  }

  /** How the copy stands after the text `done`: what was counted, noted and put out. */
  ghost predicate Standing(done: seq<byte>, cap: nat, marker: seq<byte>, written: nat, truncated: bool, marked: bool) {
    written == |Kept(done, cap)| && truncated == (|done| > cap) && marked == (truncated && marker != [])
  }

  /** A sink that ran full before the marker took nothing of it. */
  lemma TookFull(data: seq<byte>, room: Option<nat>, data0: seq<byte>, room0: Option<nat>, out: seq<byte>, more: seq<byte>)
    requires Took(data, room, data0, room0, out) && room0.Some? && room0.value <= |out|
    ensures Took(data, room, data0, room0, out + more)
  {
    assert (out + more)[..room0.value] == out[..room0.value];
  }

  /** The bytes of a chunk that fall under the cap go to the sink. */
  method WriteKept(dst: Sink, chunk: seq<byte>, cap: nat, written0: nat, ghost done: seq<byte>, ghost data0: seq<byte>, ghost room0: Option<nat>)
    returns (written: nat, truncated: bool, fault: Option<Fault>)
    requires chunk != [] && |done| < cap && written0 == |done| && (room0.Some? ==> |done| <= room0.value)
    requires Took(dst.data, dst.room, data0, room0, done)
    modifies dst
    ensures written == Room(room0, |Kept(done + chunk, cap)|)
    ensures Took(dst.data, dst.room, data0, room0, Kept(done + chunk, cap))
    ensures fault.Some? <==> room0.Some? && room0.value < |Kept(done + chunk, cap)|
    ensures fault.Some? ==> fault.value == if dst.quiet then ShortWrite else WriteFailed
    ensures fault.None? ==> truncated == (|done + chunk| > cap)
    ensures fault.Some? ==> !truncated
  {
    hide Took, Kept;
    written, truncated, fault := written0, false, None;
    var remaining := cap - written;
    var toWrite := if |chunk| > remaining then remaining else |chunk|;
    KeptMore(done, chunk, cap);
    KeptAll(done, cap);
    TookMore(dst.data, dst.room, data0, room0, done, chunk[..toWrite]);
    var n, failed := dst.Write(chunk[..toWrite]);
    written := written + n;
    if failed {
      return written, truncated, Some(WriteFailed);
    }
    if n != toWrite {
      return written, truncated, Some(ShortWrite);
    }
    if |chunk| > remaining {
      truncated := true;
    }
  }

  lemma KeptAll(text: seq<byte>, cap: nat)
    ensures |text| <= cap ==> Kept(text, cap) == text
  {
  }

  lemma CappedIs(text: seq<byte>, cap: nat, marker: seq<byte>)
    ensures |text| <= cap || marker == [] ==> Capped(text, cap, marker) == Kept(text, cap)
  {
  }

  /** One chunk of the read loop. */
  method CopyChunk(dst: Sink, chunk: seq<byte>, cap: nat, marker: seq<byte>, written0: nat, truncated0: bool, marked0: bool,
                   ghost done: seq<byte>, ghost data0: seq<byte>, ghost room0: Option<nat>)
    returns (written: nat, truncated: bool, marked: bool, fault: Option<Fault>)
    requires chunk != [] && Standing(done, cap, marker, written0, truncated0, marked0)
    requires !Stalls(room0, dst.quiet, done, cap, marker) && Took(dst.data, dst.room, data0, room0, Capped(done, cap, marker))
    modifies dst
    ensures fault.None? ==> !Stalls(room0, dst.quiet, done + chunk, cap, marker)
    ensures fault.None? ==> Standing(done + chunk, cap, marker, written, truncated, marked)
    ensures fault.Some? ==> Stalls(room0, dst.quiet, done + chunk, cap, marker)
    ensures fault.Some? ==> fault.value == if room0.value < |Kept(done + chunk, cap)| && dst.quiet then ShortWrite else WriteFailed
    ensures fault.Some? ==> truncated == (room0.value >= |Kept(done + chunk, cap)|)
    ensures written == Room(room0, |Kept(done + chunk, cap)|)
    ensures Took(dst.data, dst.room, data0, room0, Capped(done + chunk, cap, marker))
  {
    hide Took, Kept;
    ghost var text := done + chunk;
    written, truncated, marked, fault := written0, truncated0, marked0, None;
    KeptMore(done, chunk, cap);
    KeptAll(done, cap);
    CappedIs(done, cap, marker);
    CappedIs(text, cap, marker);
    if written < cap {
      written, truncated, fault := WriteKept(dst, chunk, cap, written0, done, data0, room0);
      if fault.Some? {
        TookFull(dst.data, dst.room, data0, room0, Kept(text, cap), if |text| > cap then marker else []);
        return;
      }
    } else {
      assert Kept(text, cap) == Kept(done, cap);
      truncated := true;
    }
    if truncated && !marked && |marker| > 0 {
      TookMore(dst.data, dst.room, data0, room0, Kept(text, cap), marker);
      var _, failed := dst.Write(marker);
      if failed {
        return written, truncated, marked, Some(WriteFailed);
      }
      marked := true;
    }
  }

  // ---------------------------------------------------------------- how much is read

  /** How many of the chunks are read after `done` has been: all up to the one on which the sink stalls. */
  function ReadCount(chunks: seq<seq<byte>>, done: seq<byte>, room: Option<nat>, quiet: bool, cap: nat, marker: seq<byte>): (k: nat)
    ensures k <= |chunks|
  {
    if chunks == [] then 0
    else if Stalls(room, quiet, done + chunks[0], cap, marker) then 1
    else 1 + ReadCount(chunks[1..], done + chunks[0], room, quiet, cap, marker)
  }

  /** Once the sink has stalled it stays stalled, so it has not stalled before it does. */
  lemma StallsLater(text: seq<byte>, rest: seq<byte>, room: Option<nat>, quiet: bool, cap: nat, marker: seq<byte>)
    requires Stalls(room, quiet, text, cap, marker)
    ensures Stalls(room, quiet, text + rest, cap, marker)
  {
    KeptMore(text, rest, cap);
  }

  /** The chunks read end with the least one on which the sink stalls, or are all of them. */
  lemma {:induction false} ReadCountIsLeast(chunks: seq<seq<byte>>, done: seq<byte>, room: Option<nat>, quiet: bool, cap: nat, marker: seq<byte>, j: nat)
    requires !Stalls(room, quiet, done, cap, marker) && j <= |chunks|
    ensures var k := ReadCount(chunks, done, room, quiet, cap, marker);
            && (j < k ==> !Stalls(room, quiet, done + Flatten(chunks[..j]), cap, marker))
            && (k < |chunks| || Stalls(room, quiet, done + Flatten(chunks), cap, marker)
                ==> Stalls(room, quiet, done + Flatten(chunks[..k]), cap, marker))
  {
    hide Stalls;
    assert done + [] == done;
    if chunks != [] {
      var k, next := ReadCount(chunks, done, room, quiet, cap, marker), done + chunks[0];
      assert forall i :: 0 < i <= |chunks| ==> chunks[..i][0] == chunks[0] && chunks[..i][1..] == chunks[1..][..i - 1];
      assert forall i :: 0 < i <= |chunks| ==> done + Flatten(chunks[..i]) == next + Flatten(chunks[1..][..i - 1]);
      assert done + Flatten(chunks) == next + Flatten(chunks[1..]);
      if Stalls(room, quiet, next, cap, marker) {
        assert chunks[..1][1..] == [];
        assert done + Flatten(chunks[..1]) == next;
      } else {
        ReadCountIsLeast(chunks[1..], next, room, quiet, cap, marker, if j == 0 then 0 else j - 1);
      }
    }
  }

  /** The source is drained exactly if the sink does not stall before the last chunk. */
  lemma DrainedIff(chunks: seq<seq<byte>>, room: Option<nat>, quiet: bool, cap: nat, marker: seq<byte>)
    ensures chunks[ReadCount(chunks, [], room, quiet, cap, marker)..] == []
            <==> ReachesLast(chunks, room, quiet, cap, marker)
  {
    var k := ReadCount(chunks, [], room, quiet, cap, marker);
    if chunks != [] {
      var n := |chunks| - 1;
      ReadCountIsLeast(chunks, [], room, quiet, cap, marker, n);
      assert [] + Flatten(chunks[..n]) == Flatten(chunks[..n]) && [] + Flatten(chunks[..k]) == Flatten(chunks[..k]);
      if k <= n {
        FlattenPrefix(chunks[..n], k);
        assert chunks[..n][..k] == chunks[..k];
        StallsLater(Flatten(chunks[..k]), Flatten(chunks[..n][k..]), room, quiet, cap, marker);
      }
    }
  }

  lemma {:induction false} FlattenPrefix(chunks: seq<seq<byte>>, k: nat)
    requires k <= |chunks|
    ensures Flatten(chunks) == Flatten(chunks[..k]) + Flatten(chunks[k..])
  {
    if k > 0 {
      FlattenPrefix(chunks[1..], k - 1);
      assert chunks[..k][0] == chunks[0] && chunks[..k][1..] == chunks[1..][..k - 1];
    }
  }

  /** The sink does not stall before the last chunk. */
  predicate ReachesLast(chunks: seq<seq<byte>>, room: Option<nat>, quiet: bool, cap: nat, marker: seq<byte>) {
    chunks == [] || !Stalls(room, quiet, Flatten(chunks[..|chunks| - 1]), cap, marker)
  }

  /** A full sink and three chunks: the first is read, the other two stay in the source. */
  lemma FullSinkLeavesTheRest(a: byte, b: byte, c: byte, marker: seq<byte>)
    ensures [[a], [b], [c]][ReadCount([[a], [b], [c]], [], Some(0), false, 6, marker)..] == [[b], [c]]
  {
    var chunks := [[a], [b], [c]];
    assert [] + chunks[0] == [a];
    assert Stalls(Some(0), false, [a], 6, marker);
    assert ReadCount(chunks, [], Some(0), false, 6, marker) == 1;
  }

  /**
   The result of a capped copy of `text`: the sink has its capped form as far as there is room, and the counts and the error
   say whether and where it stalled.
   */
  ghost predicate Copied(text: seq<byte>, cap: nat, marker: seq<byte>, room: Option<nat>, quiet: bool, before: seq<byte>, after: seq<byte>,
                         fails: bool, written: nat, truncated: bool, fault: Option<Fault>)
  {
    && after == before + Capped(text, cap, marker)[..Room(room, |Capped(text, cap, marker)|)]
    && written == Room(room, |Kept(text, cap)|)
    && if Stalls(room, quiet, text, cap, marker) then
         && truncated == (room.value >= |Kept(text, cap)|)
         && fault == Some(if room.value < |Kept(text, cap)| && quiet then ShortWrite else WriteFailed)
       else
         truncated == (|text| > cap) && fault == if fails then Some(ReadFailed) else None
  }

  /**
   Whatever the chunking, the copy puts out the first `cap` bytes of the source and then, if there was more, the marker once,
   as far as the sink has room, and reports exactly what happened. It reads up to the chunk on which the sink stalls, so the
   source is drained exactly if the sink does not stall before the last chunk.
   */
  method CopyWithCapAndDrain(dst: Sink, src: Reader, capBytes: int, marker: seq<byte>)
    returns (written: nat, truncated: bool, fault: Option<Fault>)
    modifies dst, src
    ensures Copied(old(Flatten(src.chunks)), Cap(capBytes), marker, old(dst.room), dst.quiet, old(dst.data), dst.data, src.fails,
                   written, truncated, fault)
    ensures src.chunks == old(src.chunks)[ReadCount(old(src.chunks), [], old(dst.room), dst.quiet, Cap(capBytes), marker)..]
    ensures src.chunks == [] <==> ReachesLast(old(src.chunks), old(dst.room), dst.quiet, Cap(capBytes), marker)
  {
    hide Kept, Capped, Stalls, Standing, Took, Flatten, Reading, ReadCount, Copied, ReachesLast;
    var cap := Cap(capBytes);
    DrainedIff(src.chunks, dst.room, dst.quiet, cap, marker);
    written, truncated, fault := 0, false, None;
    var marked := false;
    ghost var chunks0, i: nat, done, data0, room0 := src.chunks, 0, [], dst.data, dst.room;
    BeforeCopy(dst.data, dst.room, dst.quiet, cap, marker);
    ReadingStarts(src.chunks, dst.room, dst.quiet, cap, marker);
    while true
      invariant Reading(chunks0, i, src.chunks, done, room0, dst.quiet, cap, marker)
      invariant Standing(done, cap, marker, written, truncated, marked)
      invariant !Stalls(room0, dst.quiet, done, cap, marker)
      invariant Took(dst.data, dst.room, data0, room0, Capped(done, cap, marker))
      decreases |src.chunks|
    {
      ghost var rest := src.chunks;
      var chunk, ended := src.Read();
      if |chunk| > 0 {
        written, truncated, marked, fault := CopyChunk(dst, chunk, cap, marker, written, truncated, marked, done, data0, room0);
        ReadingStep(chunks0, i, rest, done, room0, dst.quiet, cap, marker);
        if fault.Some? {
          StallIsFinal(done + chunk, Flatten(src.chunks), cap, marker, room0, dst.quiet, dst.data, dst.room, data0,
                       src.fails, written, truncated, fault);
          return;
        }
        i, done := i + 1, done + chunk;
      } else if rest != [] {
        assert done + chunk == done;
        ReadingStep(chunks0, i, rest, done, room0, dst.quiet, cap, marker);
        i := i + 1;
      }
      if ended {
        ReadingEnds(chunks0, i, done, room0, dst.quiet, cap, marker);
        fault := if src.fails then Some(ReadFailed) else None;
        CopyEnds(done, cap, marker, room0, dst.quiet, dst.data, dst.room, data0, src.fails, written, truncated, marked);
        return;
      }
    }
  }

  /** After `i` chunks, whose text is `done`: what is left and how much of it will be read. */
  ghost predicate Reading(chunks: seq<seq<byte>>, i: nat, rest: seq<seq<byte>>, done: seq<byte>, room: Option<nat>, quiet: bool, cap: nat, marker: seq<byte>) {
    && i <= |chunks| && rest == chunks[i..]
    && Flatten(chunks) == done + Flatten(rest)
    && ReadCount(chunks, [], room, quiet, cap, marker) == i + ReadCount(rest, done, room, quiet, cap, marker)
  }

  lemma ReadingStarts(chunks: seq<seq<byte>>, room: Option<nat>, quiet: bool, cap: nat, marker: seq<byte>)
    ensures Reading(chunks, 0, chunks, [], room, quiet, cap, marker)
  {
  }

  lemma ReadingStep(chunks: seq<seq<byte>>, i: nat, rest: seq<seq<byte>>, done: seq<byte>, room: Option<nat>, quiet: bool, cap: nat, marker: seq<byte>)
    requires rest != [] && Reading(chunks, i, rest, done, room, quiet, cap, marker)
    ensures Flatten(chunks) == (done + rest[0]) + Flatten(rest[1..])
    ensures Stalls(room, quiet, done + rest[0], cap, marker) ==> rest[1..] == chunks[ReadCount(chunks, [], room, quiet, cap, marker)..]
    ensures !Stalls(room, quiet, done + rest[0], cap, marker) ==> Reading(chunks, i + 1, rest[1..], done + rest[0], room, quiet, cap, marker)
  {
    hide Stalls;
  }

  lemma ReadingEnds(chunks: seq<seq<byte>>, i: nat, done: seq<byte>, room: Option<nat>, quiet: bool, cap: nat, marker: seq<byte>)
    requires Reading(chunks, i, [], done, room, quiet, cap, marker)
    ensures Flatten(chunks) == done && chunks[ReadCount(chunks, [], room, quiet, cap, marker)..] == []
  {
  }

  lemma CopyEnds(text: seq<byte>, cap: nat, marker: seq<byte>, room0: Option<nat>, quiet: bool,
                 data: seq<byte>, room: Option<nat>, data0: seq<byte>, fails: bool, written: nat, truncated: bool, marked: bool)
    requires !Stalls(room0, quiet, text, cap, marker) && Took(data, room, data0, room0, Capped(text, cap, marker))
    requires Standing(text, cap, marker, written, truncated, marked)
    ensures Copied(text, cap, marker, room0, quiet, data0, data, fails, written, truncated, if fails then Some(ReadFailed) else None)
  {
  }

  lemma BeforeCopy(data: seq<byte>, room: Option<nat>, quiet: bool, cap: nat, marker: seq<byte>)
    ensures Standing([], cap, marker, 0, false, false) && !Stalls(room, quiet, [], cap, marker)
    ensures Took(data, room, data, room, Capped([], cap, marker))
  {
  }

  /** Where the sink stalled, the rest of the source makes no difference. */
  lemma StallIsFinal(text: seq<byte>, rest: seq<byte>, cap: nat, marker: seq<byte>, room0: Option<nat>, quiet: bool,
                     data: seq<byte>, room: Option<nat>, data0: seq<byte>, fails: bool, written: nat, truncated: bool, fault: Option<Fault>)
    requires Stalls(room0, quiet, text, cap, marker) && Took(data, room, data0, room0, Capped(text, cap, marker))
    requires written == Room(room0, |Kept(text, cap)|) && truncated == (room0.value >= |Kept(text, cap)|)
    requires fault == Some(if room0.value < |Kept(text, cap)| && quiet then ShortWrite else WriteFailed)
    ensures Copied(text + rest, cap, marker, room0, quiet, data0, data, fails, written, truncated, fault)
  {
    if room0.value < |Kept(text, cap)| {
      KeptPrefix(text, rest, cap, marker, room0.value);
      KeptPrefix(text, [], cap, marker, room0.value);
      assert text + [] == text;
    } else {
      CappedMore(text, rest, cap, marker);
    }
  }
}
