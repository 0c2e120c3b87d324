/** Issue identifiers: the printer, its inverse, and the two allocators together with a history restore. */
module Identifiers {
  import opened Common
  import Decimal

  // ---------------------------------------------------------------- machine integers

  const TWO64: int := 0x1_0000_0000_0000_0000
  const LIMIT: int := 0x8000_0000_0000_0000

  /** A 64-bit signed integer that has wrapped around. */
  function Wrap64(x: int): (w: int)
    ensures -LIMIT <= w < LIMIT
    ensures -LIMIT <= x < LIMIT ==> w == x
    ensures (w - x) % TWO64 == 0
  {
    var m := x % TWO64;
    if m >= LIMIT then m - TWO64 else m
  }

  lemma WrapStep(x: int, d: int)
    ensures Wrap64(Wrap64(x) * 10 + d) == Wrap64(x * 10 + d)
  {
    var q := x / TWO64;
    assert x == q * TWO64 + x % TWO64;
    assert Wrap64(x) == x % TWO64 || Wrap64(x) == x % TWO64 - TWO64;
    WrapShift(Wrap64(x) * 10 + d, 10 * q);
    WrapShift(Wrap64(x) * 10 + d, 10 * (q + 1));
  }

  lemma WrapShift(x: int, k: int)
    ensures Wrap64(x + k * TWO64) == Wrap64(x)
  {
  }

  // ---------------------------------------------------------------- printing and reading

  function PrintInt(n: int): string { if n < 0 then "-" + Decimal.Print(-n) else Decimal.Print(n) }

  /** `PREFIX-n`. */
  function Name(prefix: string, n: int): string { prefix + "-" + PrintInt(n) }

  function LastDash(s: string): (r: Option<nat>)
    ensures r.Some? ==> r.value < |s| && s[r.value] == '-'
  {
    if s == [] then None else if s[|s| - 1] == '-' then Some(|s| - 1) else LastDash(s[..|s| - 1])
  }

  predicate AllDigits(s: string) { forall i :: 0 <= i < |s| ==> Decimal.IsDigit(s[i]) }

  /** The number after the last dash, or 0 if there is none. */
  function Suffix(identifier: string): (n: int)
    ensures -LIMIT <= n < LIMIT
  {
    var dash := LastDash(identifier);
    if dash.None? then 0
    else
      var tail := identifier[dash.value + 1..];
      if AllDigits(tail) then Wrap64(Decimal.Parse(tail)) else 0
  }

  /** Accumulates the digits after the last dash in a machine integer. */
  method IdentifierSuffix(identifier: string) returns (n: int)
    ensures n == Suffix(identifier)
  {
    hide Wrap64;
    var dash := LastDash(identifier);
    if dash.None? || dash.value == |identifier| - 1 {
      WrapZero();
      return 0;
    }
    var tail := identifier[dash.value + 1..];
    n := 0;
    WrapZero();
    for i := 0 to |tail|
      invariant AllDigits(tail[..i]) && n == Wrap64(Decimal.Parse(tail[..i]))
    {
      assert tail[..i + 1][..i] == tail[..i];
      if !Decimal.IsDigit(tail[i]) {
        return 0;
      }
      WrapStep(Decimal.Parse(tail[..i]), Decimal.DigitValue(tail[i]));
      n := Wrap64(n * 10 + Decimal.DigitValue(tail[i]));
    }
    assert tail[..|tail|] == tail;
  }

  lemma WrapZero()
    ensures Wrap64(0) == 0
  {
  }

  lemma {:induction false} LastDashOf(s: string, digits: string)
    requires AllDigits(digits)
    ensures LastDash(s + "-" + digits) == Some(|s|)
  {
    var t := s + "-" + digits;
    if digits != [] {
      assert t[|t| - 1] == digits[|digits| - 1];
      assert t[..|t| - 1] == s + "-" + digits[..|digits| - 1];
      LastDashOf(s, digits[..|digits| - 1]);
    }
  }

  /** Reading inverts printing, for every prefix and every number a machine integer holds. */
  lemma SuffixInvertsName(prefix: string, n: nat)
    requires n < LIMIT
    ensures Suffix(Name(prefix, n)) == n
  {
    hide Wrap64;
    var digits := Decimal.Print(n);
    LastDashOf(prefix, digits);
    Decimal.ParsePrint(n);
    assert Name(prefix, n)[|prefix| + 1..] == digits;
  }

  // ---------------------------------------------------------------- allocation

  /** A workspace's counter and the identifiers of its issues. */
  datatype Ledger = Ledger(next: int, taken: set<string>)

  /** Creation by a user or by an autopilot rule; a taken identifier rolls the transaction back. */
  function Allocate(l: Ledger, prefix: string): Result<Ledger> {
    var id := Name(prefix, l.next);
    if id in l.taken then Err(Conflict) else Ok(Ledger(l.next + 1, l.taken + {id}))
  }

  /** An exported issue; `accepted` is whether the table's checks on status and creator let the row in. */
  datatype Row = Row(identifier: string, accepted: bool)

  function Named(rows: seq<Row>): (ids: set<string>) { set r | r in rows :: r.identifier }

  predicate Insertable(taken: set<string>, rows: seq<Row>, j: nat)
    requires j < |rows|
  {
    rows[j].accepted && rows[j].identifier !in taken && rows[j].identifier !in Named(rows[..j])
  }

  /** How many rows a restore inserts before the first that the table refuses, as a duplicate or by its checks. */
  function Inserted(taken: set<string>, rows: seq<Row>, from: nat): (k: nat)
    requires from <= |rows|
    ensures from <= k <= |rows|
    decreases |rows| - from
  {
    if from < |rows| && Insertable(taken, rows, from) then Inserted(taken, rows, from + 1) else from
  }

  function MaxSuffix(rows: seq<Row>): (m: int)
    ensures 0 <= m < LIMIT
  {
    if rows == [] then 0
    else
      var m, n := MaxSuffix(rows[..|rows| - 1]), Suffix(rows[|rows| - 1].identifier);
      if n > m then n else m
  }

  predicate Succeeds(l: Ledger, rows: seq<Row>) { Inserted(l.taken, rows, 0) == |rows| }

  /** A restore inserts row by row without a transaction, and moves the counter only after the last row. */
  function Restore(l: Ledger, rows: seq<Row>): Ledger {
    var k := Inserted(l.taken, rows, 0);
    var taken := l.taken + Named(rows[..k]);
    if k < |rows| then Ledger(l.next, taken)
    else
      var m := MaxSuffix(rows);
      Ledger(if m > 0 && l.next <= m then Wrap64(m + 1) else l.next, taken)
  }

  /** Deleting an issue frees its identifier; the counter stays. */
  function Delete(l: Ledger, id: string): Ledger { l.(taken := l.taken - {id}) }

  /** The tables as the program updates them. */
  class IssueTable {
    var next: int
    var taken: set<string>

    function View(): Ledger
      reads this
    {
      Ledger(next, taken)
    }

    constructor ()
      ensures View() == Ledger(1, {})
    {
      next, taken := 1, {};
    }

    method NewIssue(prefix: string) returns (r: Result<string>)
      modifies this
      ensures r == if Allocate(old(View()), prefix).Ok? then Ok(Name(prefix, old(next))) else Err(Conflict)
      ensures View() == if r.Ok? then Allocate(old(View()), prefix).value else old(View())
    {
      next := next + 1;
      var id := Name(prefix, next - 1);
      if id in taken {
        next := next - 1;
        return Err(Conflict);
      }
      taken := taken + {id};
      return Ok(id);
    }

    method DeleteIssue(id: string)
      modifies this`taken
      ensures View() == Delete(old(View()), id)
    {
      taken := taken - {id};
    }

    method RestoreHistory(rows: seq<Row>) returns (ok: bool)
      modifies this
      ensures ok == Succeeds(old(View()), rows)
      ensures View() == Restore(old(View()), rows)
    {
      hide Suffix, Wrap64;
      var maxSeq := 0;
      ghost var before := taken;
      for i := 0 to |rows|
        invariant next == old(next) && taken == before + Named(rows[..i])
        invariant Inserted(before, rows, 0) == Inserted(before, rows, i)
        invariant maxSeq == MaxSuffix(rows[..i])
      {
        if !rows[i].accepted || rows[i].identifier in taken {
          return false;
        }
        assert rows[..i + 1] == rows[..i] + [rows[i]] && rows[..i + 1][..i] == rows[..i];
        assert Named(rows[..i + 1]) == Named(rows[..i]) + {rows[i].identifier};
        taken := taken + {rows[i].identifier};
        var n := IdentifierSuffix(rows[i].identifier);
        if n > maxSeq {
          maxSeq := n;
        }
      }
      assert rows[..|rows|] == rows;
      if maxSeq > 0 && next <= maxSeq {
        next := Wrap64(maxSeq + 1);
      }
      return true;
    }
  }

  // ---------------------------------------------------------------- freshness

  /** Every identifier's number is behind the counter. */
  ghost predicate Behind(l: Ledger) { forall id :: id in l.taken ==> Suffix(id) < l.next }

  predicate InRange(l: Ledger) { 0 < l.next < LIMIT }

  lemma BehindMeansFresh(l: Ledger, prefix: string)
    requires Behind(l) && InRange(l)
    ensures Name(prefix, l.next) !in l.taken
  {
    hide Suffix, Name;
    SuffixInvertsName(prefix, l.next);
  }

  lemma AllocateKeepsBehind(l: Ledger, prefix: string)
    requires Behind(l) && InRange(l)
    ensures Allocate(l, prefix).Ok? && Behind(Allocate(l, prefix).value)
  {
    hide Suffix, Name;
    BehindMeansFresh(l, prefix);
    SuffixInvertsName(prefix, l.next);
  }

  lemma {:induction false} MaxSuffixBounds(rows: seq<Row>, j: nat)
    requires j < |rows|
    ensures Suffix(rows[j].identifier) <= MaxSuffix(rows)
  {
    hide Suffix;
    if j < |rows| - 1 {
      MaxSuffixBounds(rows[..|rows| - 1], j);
    }
  }

  lemma RestoreKeepsBehind(l: Ledger, rows: seq<Row>)
    requires Behind(l) && InRange(l) && Succeeds(l, rows) && InRange(Restore(l, rows))
    ensures Behind(Restore(l, rows))
  {
    hide Suffix;
    var l' := Restore(l, rows);
    assert rows[..|rows|] == rows;
    forall id | id in l'.taken
      ensures Suffix(id) < l'.next
    {
      if id in Named(rows) {
        var j :| 0 <= j < |rows| && rows[j].identifier == id;
        MaxSuffixBounds(rows, j);
      }
    }
  }

  datatype Step = Create(prefix: string) | RestoreIssues(rows: seq<Row>) | DeleteOne(id: string)

  function Apply(l: Ledger, step: Step): Ledger {
    match step
    case Create(prefix) => if Allocate(l, prefix).Ok? then Allocate(l, prefix).value else l
    case RestoreIssues(rows) => Restore(l, rows)
    case DeleteOne(id) => Delete(l, id)
  }

  ghost predicate IsRun(ls: seq<Ledger>, steps: seq<Step>) {
    && |ls| == |steps| + 1 && ls[0] == Ledger(1, {})
    && forall i :: 0 <= i < |steps| ==> ls[i + 1] == Apply(ls[i], steps[i])
  }

  /**
   Over every sequence of creations, autopilot triggers, deletions and completed restores, whatever prefix the workspace has at
   the time, no allocation meets an identifier that is already there, as long as the counter fits a machine integer.
   */
  lemma {:induction false} AllocationsAreFresh(ls: seq<Ledger>, steps: seq<Step>, i: nat)
    requires IsRun(ls, steps) && i < |ls| && forall k :: 0 <= k <= i ==> InRange(ls[k])
    requires forall k :: 0 <= k < i && steps[k].RestoreIssues? ==> Succeeds(ls[k], steps[k].rows)
    ensures Behind(ls[i])
    ensures forall prefix :: Allocate(ls[i], prefix).Ok?
  {
    hide Suffix, Behind, Succeeds, Allocate, Restore;
    if i == 0 {
      FewerAreBehind(ls[0], ls[0]);
    } else {
      AllocationsAreFresh(ls, steps, i - 1);
      assert ls[(i - 1) + 1] == Apply(ls[i - 1], steps[i - 1]) && InRange(ls[i - 1]) && InRange(ls[i]);
      match steps[i - 1] {
        case Create(prefix) => AllocateKeepsBehind(ls[i - 1], prefix);
        case RestoreIssues(rows) => RestoreKeepsBehind(ls[i - 1], rows);
        case DeleteOne(id) => FewerAreBehind(ls[i - 1], ls[i]);
      }
    }
    forall prefix
      ensures Allocate(ls[i], prefix).Ok?
    {
      AllocateKeepsBehind(ls[i], prefix);
    }
  }

  lemma FewerAreBehind(l: Ledger, l': Ledger)
    requires (l.taken == {} || Behind(l)) && l'.taken <= l.taken && l'.next == l.next
    ensures Behind(l')
  {
  }

  // ---------------------------------------------------------------- a restore that fails half-way

  /** No identifier the counter can still reach is taken. */
  ghost predicate Clear(l: Ledger, prefix: string) {
    forall n :: l.next <= n < LIMIT ==> Name(prefix, n) !in l.taken
  }

  /** The identifier is one the counter will still reach. */
  predicate Ahead(l: Ledger, prefix: string, id: string) {
    var n := Suffix(id);
    l.next <= n && id == Name(prefix, n)
  }

  lemma AheadIff(l: Ledger, prefix: string, id: string)
    requires 0 <= l.next
    ensures Ahead(l, prefix, id) <==> exists n :: l.next <= n < LIMIT && id == Name(prefix, n)
  {
    hide Suffix, Name;
    if Ahead(l, prefix, id) {
      assert l.next <= Suffix(id) < LIMIT;
    }
    forall n: int | l.next <= n < LIMIT
      ensures Suffix(Name(prefix, n)) == n
    {
      SuffixInvertsName(prefix, n);
    }
  }

  /**
   A restore that stops at a refused row does not move the counter. What it leaves is safe to number on exactly if none of
   the identifiers in front of that row is one the counter will still reach.
   */
  lemma FailedRestore(l: Ledger, prefix: string, rows: seq<Row>)
    requires Clear(l, prefix) && 0 <= l.next && !Succeeds(l, rows)
    ensures Clear(Restore(l, rows), prefix)
            <==> forall j :: 0 <= j < Inserted(l.taken, rows, 0) ==> !Ahead(l, prefix, rows[j].identifier)
  {
    hide Suffix, Name, Ahead, Inserted;
    var k := Inserted(l.taken, rows, 0);
    var l' := Restore(l, rows);
    if j :| 0 <= j < k && Ahead(l, prefix, rows[j].identifier) {
      AheadIff(l, prefix, rows[j].identifier);
      assert rows[j] in rows[..k];
    } else {
      forall n: int | l.next <= n < LIMIT
        ensures Name(prefix, n) !in l'.taken
      {
        if Name(prefix, n) in Named(rows[..k]) {
          var j :| 0 <= j < k && rows[j].identifier == Name(prefix, n);
          AheadIff(l, prefix, rows[j].identifier);
        }
      }
    }
  }

  // ---------------------------------------------------------------- a blocked counter

  /** The counter stands at `n`, and the identifier it would hand out is taken. */
  predicate BlockedAt(l: Ledger, prefix: string, n: int) { l.next == n && Name(prefix, n) in l.taken }

  lemma BlockedMeansConflict(l: Ledger, prefix: string)
    ensures BlockedAt(l, prefix, l.next) <==> Allocate(l, prefix) == Err(Conflict)
  {
  }

  /** A step that moves the counter: a creation under another prefix that is free, or a restore that reaches at least as far. */
  predicate MovesCounter(l: Ledger, step: Step) {
    match step
    case Create(other) => Name(other, l.next) !in l.taken
    case RestoreIssues(rows) => Succeeds(l, rows) && MaxSuffix(rows) >= l.next
    case DeleteOne(_) => false
  }

  predicate Unblocks(l: Ledger, prefix: string, step: Step) {
    step == DeleteOne(Name(prefix, l.next)) || MovesCounter(l, step)
  }

  lemma BlockStep(l: Ledger, prefix: string, step: Step)
    requires BlockedAt(l, prefix, l.next) && InRange(l)
    ensures BlockedAt(Apply(l, step), prefix, l.next) <==> !Unblocks(l, prefix, step)
  {
    hide Name, Suffix, Inserted;
  }

  /**
   Over every history: a blocked counter stays where it is, and creation keeps failing, exactly as long as nobody deletes the
   identifier in its way and nothing moves the counter.
   */
  lemma {:induction false} BlockedUntilFreed(ls: seq<Ledger>, steps: seq<Step>, i: nat, j: nat, prefix: string)
    requires IsRun(ls, steps) && i <= j < |ls| && BlockedAt(ls[i], prefix, ls[i].next) && InRange(ls[i])
    ensures (forall k :: i <= k <= j ==> BlockedAt(ls[k], prefix, ls[i].next))
            <==> forall k :: i <= k < j ==> !Unblocks(ls[k], prefix, steps[k])
    decreases j
  {
    hide Name, Apply, Unblocks;
    if i < j {
      BlockedUntilFreed(ls, steps, i, j - 1, prefix);
      if forall k :: i <= k <= j - 1 ==> BlockedAt(ls[k], prefix, ls[i].next) {
        assert BlockedAt(ls[j - 1], prefix, ls[i].next);
        BlockStep(ls[j - 1], prefix, steps[j - 1]);
        assert ls[(j - 1) + 1] == Apply(ls[j - 1], steps[j - 1]);
      }
    }
  }

  /** An export that lists an identifier twice blocks a new workspace's first creation; deleting that issue frees it again. */
  lemma DuplicateExportBlocks(prefix: string)
    ensures var row := Row(Name(prefix, 1), true);
            var l := Restore(Ledger(1, {}), [row, row]);
            && l == Ledger(1, {Name(prefix, 1)}) && Allocate(l, prefix) == Err(Conflict)
            && Allocate(Delete(l, Name(prefix, 1)), prefix).Ok?
  {
    hide Name;
    var row := Row(Name(prefix, 1), true);
    var rows := [row, row];
    assert rows[..0] == [] && rows[..1] == [row];
    assert Named([]) == {} && Named([row]) == {row.identifier};
    assert Insertable({}, rows, 0) && !Insertable({}, rows, 1);
    assert Inserted({}, rows, 0) == Inserted({}, rows, 1) == 1;
  }
}
