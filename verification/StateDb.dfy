/** The usage and ledger tables, and the cache that lets a flush skip rows. */
module StateDb {
  import opened Options
  import L = Ledger
  import Q = Quota
  import QB = QuotaBilling

  datatype Snapshot = Snapshot(name: string, usage: Q.Saved)

  type Usage = map<string, Q.Saved>

  /** A ledger line as stored: its kind is text. */
  datatype Row = Row(time: int, kind: string, user: string, amount: int, package: Option<string>, note: string)

  // ---------------------------------------------------------------- usage rows

  function Upsert(rows: Usage, snaps: seq<Snapshot>): Usage {
    if |snaps| == 0 then rows
    else
      var last := snaps[|snaps| - 1];
      Upsert(rows, snaps[..|snaps| - 1])[last.name := last.usage]
  }

  predicate Unchanged(last: Usage, s: Snapshot) {
    s.name in last && last[s.name] == s.usage
  }

  function Dirty(last: Usage, snaps: seq<Snapshot>): seq<Snapshot> {
    if |snaps| == 0 then []
    else
      var s := snaps[|snaps| - 1];
      Dirty(last, snaps[..|snaps| - 1]) + if Unchanged(last, s) then [] else [s]
  }

  predicate NamesOnce(snaps: seq<Snapshot>) {
    forall i, j | 0 <= i < j < |snaps| :: snaps[i].name != snaps[j].name
  }

  /** What the cache remembers is what the table holds. */
  predicate Cached(last: Usage, rows: Usage) {
    forall name | name in last :: name in rows && rows[name] == last[name]
  }

  lemma {:induction false} UpsertAt(rows: Usage, snaps: seq<Snapshot>, name: string)
    requires NamesOnce(snaps)
    ensures forall i | 0 <= i < |snaps| :: snaps[i].name in Upsert(rows, snaps)
                                           && Upsert(rows, snaps)[snaps[i].name] == snaps[i].usage
    ensures (forall i | 0 <= i < |snaps| :: snaps[i].name != name) ==>
              (name in Upsert(rows, snaps) <==> name in rows)
              && (name in rows ==> Upsert(rows, snaps)[name] == rows[name])
  {
    var n := |snaps| - 1;
    if n >= 0 {
      UpsertAt(rows, snaps[..n], name);
      assert forall i | 0 <= i < n :: snaps[..n][i] == snaps[i];
    }
  }

  lemma UpsertNext(rows: Usage, before: seq<Snapshot>, s: Snapshot)
    ensures Upsert(rows, before + [s]) == Upsert(rows, before)[s.name := s.usage]
  {
    assert (before + [s])[..|before|] == before;
  }

  lemma SkippedRow(rows: Usage, last: Usage, before: seq<Snapshot>, s: Snapshot)
    requires NamesOnce(before + [s]) && Cached(last, rows) && Unchanged(last, s)
    ensures Upsert(rows, before)[s.name := s.usage] == Upsert(rows, before)
  {
    var all := before + [s];
    assert all[|before|] == s;
    assert forall i | 0 <= i < |before| :: all[i] == before[i];
    UpsertAt(rows, before, s.name);
  }

  /** Writing only the dirty rows leaves the table as writing them all would. */
  lemma {:induction false} SkippingIsInvisible(rows: Usage, last: Usage, snaps: seq<Snapshot>)
    requires NamesOnce(snaps) && Cached(last, rows)
    ensures Upsert(rows, Dirty(last, snaps)) == Upsert(rows, snaps)
  {
    var n := |snaps| - 1;
    if n >= 0 {
      var s, before := snaps[n], snaps[..n];
      SkippingIsInvisible(rows, last, before);
      if Unchanged(last, s) {
        assert snaps == before + [s];
        SkippedRow(rows, last, before, s);
        assert Dirty(last, snaps) == Dirty(last, before);
      } else {
        UpsertNext(rows, Dirty(last, before), s);
      }
    }
  }

  lemma {:induction false} CacheFollows(rows: Usage, last: Usage, snaps: seq<Snapshot>)
    requires Cached(last, rows)
    ensures Cached(Upsert(last, snaps), Upsert(rows, snaps))
  {
    if |snaps| > 0 { CacheFollows(rows, last, snaps[..|snaps| - 1]); }
  }

  /** Two users of one name would break the shortcut: the second row is skipped, the first is not. */
  lemma SharedNameIsWrittenBack(name: string, a: Q.Saved, b: Q.Saved)
    requires a != b
    ensures var rows, snaps := map[name := b], [Snapshot(name, a), Snapshot(name, b)];
      Upsert(rows, Dirty(rows, snaps)) != Upsert(rows, snaps)
  {
    var rows, snaps := map[name := b], [Snapshot(name, a), Snapshot(name, b)];
    var one := [Snapshot(name, a)];
    assert snaps[..1] == one && one[..0] == [];
    assert Dirty(rows, one) == one;
    assert Dirty(rows, snaps) == one;
    assert Upsert(rows, one)[name] == a;
  }

  // ---------------------------------------------------------------- ledger rows

  function KindText(k: L.EntryKind): string {
    match k
    case Migration => "migration"
    case Credited => "credit"
    case Expiry => "expiry"
    case Transferred => "transfer"
    case Allocated => "allocate"
  }

  function ParseIn(kinds: seq<L.EntryKind>, text: string): Option<L.EntryKind> {
    if |kinds| == 0 then None
    else if KindText(kinds[0]) == text then Some(kinds[0])
    else ParseIn(kinds[1..], text)
  }

  /** The first kind, in declaration order, that is written that way. */
  function ParseKind(text: string): Option<L.EntryKind> {
    ParseIn([L.Migration, L.Credited, L.Expiry, L.Transferred, L.Allocated], text)
  }

  lemma {:induction false} ParseInFinds(kinds: seq<L.EntryKind>, k: L.EntryKind)
    ensures ParseIn(kinds, KindText(k)) == if k in kinds then Some(k) else None
  {
    if |kinds| > 0 {
      KindTextsDiffer(kinds[0], k);
      ParseInFinds(kinds[1..], k);
    }
  }

  lemma KindTextsDiffer(a: L.EntryKind, b: L.EntryKind)
    ensures KindText(a) == KindText(b) <==> a == b
  {
    var x, y := KindText(a), KindText(b);
    if x == y { assert x[0] == y[0]; }
  }

  lemma KindRoundTrip(k: L.EntryKind)
    ensures ParseKind(KindText(k)) == Some(k)
  {
    ParseInFinds([L.Migration, L.Credited, L.Expiry, L.Transferred, L.Allocated], k);
  }

  function RowOf(e: L.Entry): Row {
    Row(e.time, KindText(e.kind), e.user, e.amount, e.package, e.note)
  }

  function RowsOf(es: seq<L.Entry>): (rows: seq<Row>)
    ensures |rows| == |es|
  {
    seq(|es|, i requires 0 <= i < |es| => RowOf(es[i]))
  }

  /** The line a row holds; a row of an unknown kind holds none. */
  function Parsed(r: Row): seq<L.Entry> {
    match ParseKind(r.kind)
    case Some(kind) => [L.Entry(r.time, kind, r.user, r.amount, r.package, r.note)]
    case None => []
  }

  function ParsedAll(rows: seq<Row>): seq<L.Entry> {
    if |rows| == 0 then [] else Parsed(rows[0]) + ParsedAll(rows[1..])
  }

  function Last<T>(s: seq<T>, n: nat): seq<T> {
    if |s| <= n then s else s[|s| - n..]
  }

  /** The last `n`, or all when there are no more. */
  lemma LastAre<T>(s: seq<T>, n: nat)
    ensures |Last(s, n)| == (if |s| < n then |s| else n)
    ensures s == s[..|s| - |Last(s, n)|] + Last(s, n)
  {
  }

  function Reversed(es: seq<L.Entry>): seq<L.Entry> {
    if |es| == 0 then [] else Reversed(es[1..]) + [es[0]]
  }

  lemma {:induction false} ReversedAppend(x: seq<L.Entry>, e: L.Entry)
    ensures Reversed(x + [e]) == [e] + Reversed(x)
  {
    if |x| > 0 {
      ReversedAppend(x[1..], e);
      assert (x + [e])[1..] == x[1..] + [e];
    } else {
      assert x + [e] == [e] && [e][1..] == [];
    }
  }

  lemma {:induction false} ReversedTwice(es: seq<L.Entry>)
    ensures Reversed(Reversed(es)) == es
  {
    if |es| > 0 {
      ReversedTwice(es[1..]);
      ReversedAppend(Reversed(es[1..]), es[0]);
    }
  }

  lemma ParsedFrom(rows: seq<Row>, i: nat)
    requires i < |rows|
    ensures Reversed(ParsedAll(rows[i..])) == Reversed(ParsedAll(rows[i + 1..])) + Parsed(rows[i])
  {
    assert rows[i..][1..] == rows[i + 1..];
    if Parsed(rows[i]) == [] {
      assert ParsedAll(rows[i..]) == ParsedAll(rows[i + 1..]);
    } else {
      assert ParsedAll(rows[i..])[1..] == ParsedAll(rows[i + 1..]);
    }
  }

  /** What is written reads back as it was. */
  lemma {:induction false} RowsRoundTrip(es: seq<L.Entry>)
    ensures ParsedAll(RowsOf(es)) == es
  {
    if |es| > 0 {
      RowsRoundTrip(es[1..]);
      KindRoundTrip(es[0].kind);
      assert RowsOf(es)[1..] == RowsOf(es[1..]);
    }
  }

  /** The newest rows read back as the newest lines written. */
  lemma NewestRoundTrip(es: seq<L.Entry>, n: nat)
    ensures ParsedAll(Last(RowsOf(es), n)) == Last(es, n)
  {
    assert Last(RowsOf(es), n) == RowsOf(Last(es, n));
    RowsRoundTrip(Last(es, n));
  }

  // ---------------------------------------------------------------- the database

  /** `commits` says whether SQLite carries a transaction through; if not, it leaves no trace. */
  class Database {
    var usage: Usage
    var lastFlushed: Usage
    var book: Option<L.Book>
    var rows: seq<Row>

    ghost predicate Valid()
      reads this
    {
      Cached(lastFlushed, usage)
    }

    constructor (usage: Usage, book: Option<L.Book>, rows: seq<Row>)
      ensures Valid() && this.usage == usage && this.book == book && this.rows == rows
      ensures lastFlushed == map[]
    {
      this.usage, lastFlushed, this.book, this.rows := usage, map[], book, rows;
    }

    method CollectDirty(snaps: seq<Snapshot>) returns (dirty: seq<Snapshot>)
      ensures dirty == Dirty(lastFlushed, snaps)
    {
      dirty := [];
      for i := 0 to |snaps|
        invariant dirty == Dirty(lastFlushed, snaps[..i])
      {
        assert snaps[..i + 1][..i] == snaps[..i];
        if !Unchanged(lastFlushed, snaps[i]) { dirty := dirty + [snaps[i]]; }
      }
      assert snaps[..|snaps|] == snaps;
    }

    /** The whole batch is written or none of it, and the skipped rows make no difference. */
    method Flush(snaps: seq<Snapshot>, commits: bool) returns (ok: bool)
      requires Valid() && NamesOnce(snaps)
      modifies this`usage, this`lastFlushed
      ensures Valid()
      ensures ok ==> usage == Upsert(old(usage), snaps)
      ensures !ok ==> !commits && usage == old(usage) && lastFlushed == old(lastFlushed)
    {
      SkippingIsInvisible(usage, lastFlushed, snaps);
      var dirty := CollectDirty(snaps);
      if |dirty| == 0 { return true; }
      var tx := usage;
      for i := 0 to |dirty|
        invariant tx == Upsert(usage, dirty[..i])
      {
        assert dirty[..i + 1][..i] == dirty[..i];
        tx := tx[dirty[i].name := dirty[i].usage];
      }
      assert dirty[..|dirty|] == dirty;
      if !commits { return false; }
      CacheFollows(usage, lastFlushed, dirty);
      usage := tx;
      Remember(dirty);
      return true;
    }

    method Remember(dirty: seq<Snapshot>)
      modifies this`lastFlushed
      ensures lastFlushed == Upsert(old(lastFlushed), dirty)
    {
      for i := 0 to |dirty|
        invariant lastFlushed == Upsert(old(lastFlushed), dirty[..i])
      {
        assert dirty[..i + 1][..i] == dirty[..i];
        lastFlushed := lastFlushed[dirty[i].name := dirty[i].usage];
      }
      assert dirty[..|dirty|] == dirty;
    }

    /** Book and lines go in together or not at all. */
    method SaveBook(next: L.Book, entries: seq<L.Entry>, commits: bool) returns (ok: bool)
      modifies this`book, this`rows
      ensures ok == commits
      ensures ok ==> book == Some(next) && rows == old(rows) + RowsOf(entries)
      ensures !ok ==> book == old(book) && rows == old(rows)
    {
      var tx := rows;
      for i := 0 to |entries|
        invariant tx == rows + RowsOf(entries[..i])
      {
        assert RowsOf(entries[..i + 1]) == RowsOf(entries[..i]) + [RowOf(entries[i])];
        tx := tx + [RowOf(entries[i])];
      }
      assert entries[..|entries|] == entries;
      if !commits { return false; }
      book, rows := Some(next), tx;
      return true;
    }

    /** Reads newest first, drops what it cannot read, and turns the result around. */
    method RecentEntries(limit: nat) returns (entries: seq<L.Entry>)
      ensures entries == ParsedAll(Last(rows, limit))
    {
      var newest := Last(rows, limit);
      entries := [];
      var i := |newest|;
      while i > 0
        invariant 0 <= i <= |newest|
        invariant entries == Reversed(ParsedAll(newest[i..]))
      {
        i := i - 1;
        ParsedFrom(newest, i);
        entries := entries + Parsed(newest[i]);
      }
      assert newest[0..] == newest;
      ReversedTwice(ParsedAll(newest));
      entries := Reversed(entries);
    }
  }

  // ---------------------------------------------------------------- runs of flushes

  /** A flush that may fail, or a reopening, which starts with an empty cache. */
  datatype Step = Flushing(snaps: seq<Snapshot>, commits: bool) | Reopened

  datatype Tables = Tables(usage: Usage, last: Usage)

  function Take(t: Tables, step: Step): Tables {
    match step
    case Reopened => t.(last := map[])
    case Flushing(snaps, commits) =>
      var dirty := Dirty(t.last, snaps);
      if |dirty| > 0 && !commits then t else Tables(Upsert(t.usage, dirty), Upsert(t.last, dirty))
  }

  function Steps(t: Tables, steps: seq<Step>): Tables {
    if |steps| == 0 then t else Take(Steps(t, steps[..|steps| - 1]), steps[|steps| - 1])
  }

  /** The table without any cache: every batch that goes through is written in full. */
  function Plain(rows: Usage, step: Step): Usage {
    if step.Flushing? && step.commits then Upsert(rows, step.snaps) else rows
  }

  function PlainSteps(rows: Usage, steps: seq<Step>): Usage {
    if |steps| == 0 then rows else Plain(PlainSteps(rows, steps[..|steps| - 1]), steps[|steps| - 1])
  }

  /** Over every run of flushes, failures and reopenings, the cached table is the plain one. */
  lemma {:induction false} CacheIsTransparent(rows: Usage, steps: seq<Step>)
    requires forall step | step in steps :: step.Flushing? ==> NamesOnce(step.snaps)
    ensures var t := Steps(Tables(rows, map[]), steps);
      t.usage == PlainSteps(rows, steps) && Cached(t.last, t.usage)
  {
    var n := |steps| - 1;
    if n >= 0 {
      var before, step := Steps(Tables(rows, map[]), steps[..n]), steps[n];
      CacheIsTransparent(rows, steps[..n]);
      assert step in steps;
      if step.Flushing? {
        SkippingIsInvisible(before.usage, before.last, step.snaps);
        CacheFollows(before.usage, before.last, Dirty(before.last, step.snaps));
      }
    }
  }

  /** A quota restored from its flushed row continues the live one, rolled to the hour of the restart. */
  lemma FlushedUsageSurvives(rows: Usage, snaps: seq<Snapshot>, i: nat, s: Q.State, hour: int)
    requires NamesOnce(snaps) && i < |snaps| && snaps[i].usage == s.saved && Q.Exact(s)
    ensures snaps[i].name in Upsert(rows, snaps)
         && Q.Restore(Upsert(rows, snaps)[snaps[i].name], Q.LimitOf(s), s.metering, hour) == Q.RollTo(s, hour)
  {
    UpsertAt(rows, snaps, "");
    QB.RestartIsRollover(s, hour);
  }
}
