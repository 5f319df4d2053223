/** Whole histories of a ledger: every sequence of syncs, transfers and allocations. */
module LedgerRuns {
  import opened Options
  import opened Sums
  import opened Keys
  import opened Ledger
  import opened LedgerLaws
  import opened LedgerPackages
  import opened LedgerGuarantees
  import A = Apportion

  datatype Op =
    | Sync(ps: seq<Package>, members: seq<Member>, a: Assignments, now: int)
    | Move(members: seq<Member>, from: string, to: string, amount: nat, now: int)
    | Give(members: seq<Member>, receiver: Option<string>, wanted: Option<nat>, now: int)

  /** What the provider and the config promise: each package id and each user name once. */
  predicate WellFormed(op: Op) {
    op.Sync? ==> Unique(op.ps) && Distinct(Names(op.members))
  }

  /** One operation as the engine performs it: a refused one is discarded with its copy of the book. */
  ghost function Perform(b: Book, op: Op): Outcome {
    match op
    case Sync(ps, members, a, now) => Reconcile(b, ps, members, a, now)
    case Move(members, from, to, amount, now) =>
      var r := Transfer(b, members, from, to, amount, now);
      if r.Ok? then r.outcome else Outcome(b, [])
    case Give(members, receiver, wanted, now) =>
      var r := Allocate(b, members, receiver, wanted, now);
      if r.Ok? then r.outcome else Outcome(b, [])
  }

  function ChargesBy(b: Book, op: Op): seq<Posting> {
    if op.Sync? && b.migrated then ChargesOf(b, op.ps, op.members) else []
  }

  /** A downward sweep is the one balance change that writes no ledger line. */
  ghost function UnloggedBy(b: Book, op: Op): seq<Posting> {
    if op.Sync? && b.migrated && Sweeps(op.members, op.a) then
      var sweep := Unallocated(Settle(b, op.ps, op.members, op.a, op.now).book);
      if sweep < 0 then [Posting(op.members[0].name, sweep)] else []
    else []
  }

  datatype History = History(book: Book, journal: seq<Entry>, charges: seq<Posting>, unlogged: seq<Posting>)

  ghost function Run(ops: seq<Op>): History {
    if |ops| == 0 then History(EMPTY, [], [], [])
    else
      var before, op := Run(ops[..|ops| - 1]), ops[|ops| - 1];
      var done := Perform(before.book, op);
      History(done.book, before.journal + done.entries, before.charges + ChargesBy(before.book, op),
              before.unlogged + UnloggedBy(before.book, op))
  }

  // ---------------------------------------------------------------- the audit law

  ghost predicate Audited(h: History) {
    forall user :: Get(h.book.balances, user)
                   == To(Postings(h.journal), user) + To(h.charges, user) + To(h.unlogged, user)
  }

  ghost predicate Sound(h: History) {
    && (!h.book.migrated ==> h.book == EMPTY)
    && h.book.remaining == MapSum(RecordedAmounts(h.book.packages))
    && Audited(h)
  }

  lemma SettleTo(b: Book, ps: seq<Package>, members: seq<Member>, a: Assignments, now: int, user: string)
    ensures var settled := Settle(b, ps, members, a, now);
      Get(settled.book.balances, user)
      == Get(b.balances, user) + To(Postings(settled.entries), user) + To(ChargesOf(b, ps, members), user)
  {
    var joined := Join(b, members).balances;
    var credits, expiries := CreditsOf(b, ps, members, a, now), ForfeitsOf(b, ps, members, a, now);
    JoinKeeps(b, members, user);
    PostTo(joined, Postings(credits), user);
    PostTo(Post(joined, Postings(credits)), ChargesOf(b, ps, members), user);
    PostTo(AfterCharges(b, ps, members, a, now), Postings(expiries), user);
    PostingsAppend(credits, expiries);
    ToAppend(Postings(credits), Postings(expiries), user);
  }

  lemma SweepTo(o: Outcome, name: string, now: int, user: string)
    ensures var sweep := Unallocated(o.book);
      Get(Sweep(o, name, now).book.balances, user)
      == Get(o.book.balances, user) + To(Postings(Sweep(o, name, now).entries), user) - To(Postings(o.entries), user)
         + if sweep < 0 && user == name then sweep else 0
  {
    var sweep := Unallocated(o.book);
    var line := if sweep > 0 then [Entry(now, Allocated, name, sweep, None, "")] else [];
    PostingsAppend(o.entries, line);
    ToAppend(Postings(o.entries), Postings(line), user);
    assert Postings(line) == if sweep > 0 then [Posting(name, sweep)] else [];
  }

  lemma SyncTo(b: Book, op: Op, user: string)
    requires op.Sync? && b.migrated
    ensures Get(Perform(b, op).book.balances, user)
         == Get(b.balances, user) + To(Postings(Perform(b, op).entries), user)
            + To(ChargesBy(b, op), user) + To(UnloggedBy(b, op), user)
  {
    SettleTo(b, op.ps, op.members, op.a, op.now, user);
    if Sweeps(op.members, op.a) {
      var settled := Settle(b, op.ps, op.members, op.a, op.now);
      var name, sweep := op.members[0].name, Unallocated(settled.book);
      SweepTo(settled, name, op.now, user);
      assert To([Posting(name, sweep)], user) == if user == name then sweep else 0;
    }
  }

  lemma {:induction false} SharesTo(names: seq<string>, shares: seq<nat>, now: int, user: string)
    requires |names| == |shares| && Distinct(names)
    ensures To(Postings(Shares(Migration, names, shares, None, now)), user)
         == Get(SetBalances(map[], names, shares), user)
  {
    var n := |names| - 1;
    if n >= 0 {
      SharesTo(names[..n], shares[..n], now, user);
      SetBalancesKeys(names[..n], shares[..n], names[n]);
      assert Postings(Shares(Migration, names, shares, None, now))[..n]
          == Postings(Shares(Migration, names[..n], shares[..n], None, now));
    }
  }

  lemma MoveOrGiveTo(b: Book, op: Op, user: string)
    requires !op.Sync?
    ensures Get(Perform(b, op).book.balances, user)
         == Get(b.balances, user) + To(Postings(Perform(b, op).entries), user)
  {
    JoinKeeps(b, op.members, user);
    PostTo(Join(b, op.members).balances, Postings(Perform(b, op).entries), user);
  }

  /** Every operation changes a balance by exactly its ledger lines, charges and unlogged sweep. */
  lemma PerformTo(b: Book, op: Op, user: string)
    requires WellFormed(op) && (!b.migrated ==> b == EMPTY)
    ensures Get(Perform(b, op).book.balances, user)
         == Get(b.balances, user) + To(Postings(Perform(b, op).entries), user)
            + To(ChargesBy(b, op), user) + To(UnloggedBy(b, op), user)
  {
    if !op.Sync? {
      MoveOrGiveTo(b, op, user);
    } else if b.migrated {
      SyncTo(b, op, user);
    } else {
      SharesTo(Names(op.members), OpeningShares(Remaining(op.ps), op.members), op.now, user);
    }
  }

  lemma PerformRemaining(b: Book, op: Op)
    requires WellFormed(op) && (!b.migrated ==> b == EMPTY)
    requires b.remaining == MapSum(RecordedAmounts(b.packages))
    ensures var next := Perform(b, op).book;
      next.remaining == MapSum(RecordedAmounts(next.packages)) && (!next.migrated ==> next == EMPTY)
  {
    if !op.Sync? {
      JoinKeeps(b, op.members, "");
    } else if b.migrated {
      SettledRemaining(b, op.ps, Names(op.members), op.a);
    } else {
      MigratedRemaining(op.ps);
    }
  }

  /** Every history is sound: balances are explained line by line, and `remaining` by the records. */
  lemma {:induction false} RunIsSound(ops: seq<Op>)
    requires forall op | op in ops :: WellFormed(op)
    ensures Sound(Run(ops))
  {
    var n := |ops| - 1;
    if n < 0 {
      MapSumZero(RecordedAmounts(EMPTY.packages));
    } else {
      RunIsSound(ops[..n]);
      var before, after, op := Run(ops[..n]), Run(ops), ops[n];
      assert WellFormed(op);
      PerformRemaining(before.book, op);
      forall user
        ensures Get(after.book.balances, user)
             == To(Postings(after.journal), user) + To(after.charges, user) + To(after.unlogged, user)
      {
        PerformTo(before.book, op, user);
        PostingsAppend(before.journal, Perform(before.book, op).entries);
        ToAppend(Postings(before.journal), Postings(Perform(before.book, op).entries), user);
        ToAppend(before.charges, ChargesBy(before.book, op), user);
        ToAppend(before.unlogged, UnloggedBy(before.book, op), user);
      }
    }
  }

  ghost predicate JournalExplains(book: Book, journal: seq<Entry>, charges: seq<Posting>) {
    forall user :: Get(book.balances, user) == To(Postings(journal), user) + To(charges, user)
  }

  lemma {:induction false} SharedModeIsLogged(ops: seq<Op>)
    requires forall op | op in ops :: op.Sync? ==> !op.a.exclusive
    ensures Run(ops).unlogged == []
  {
    if |ops| > 0 { SharedModeIsLogged(ops[..|ops| - 1]); }
  }

  /** Over every history outside single-user mode the journal and the charges explain every balance. */
  lemma SharedModeLogsEverything(ops: seq<Op>)
    requires forall op | op in ops :: WellFormed(op) && (op.Sync? ==> !op.a.exclusive)
    ensures JournalExplains(Run(ops).book, Run(ops).journal, Run(ops).charges)
  {
    RunIsSound(ops);
    SharedModeIsLogged(ops);
  }

  /** An operation keeps the journal sufficient exactly when it is not a downward sweep. */
  lemma OnlyDownwardSweepsAreUnlogged(b: Book, journal: seq<Entry>, charges: seq<Posting>, op: Op)
    requires WellFormed(op) && (!b.migrated ==> b == EMPTY)
    requires JournalExplains(b, journal, charges)
    ensures JournalExplains(Perform(b, op).book, journal + Perform(b, op).entries, charges + ChargesBy(b, op))
       <==> !(op.Sync? && b.migrated && Sweeps(op.members, op.a)
              && Unallocated(Settle(b, op.ps, op.members, op.a, op.now).book) < 0)
  {
    var after, unlogged := Perform(b, op), UnloggedBy(b, op);
    forall user
      ensures Get(after.book.balances, user)
           == To(Postings(journal + after.entries), user) + To(charges + ChargesBy(b, op), user)
              + To(unlogged, user)
    {
      PerformTo(b, op, user);
      PostingsAppend(journal, after.entries);
      ToAppend(Postings(journal), Postings(after.entries), user);
      ToAppend(charges, ChargesBy(b, op), user);
    }
    if unlogged != [] {
      var name := op.members[0].name;
      assert To(unlogged, name) == unlogged[0].amount < 0;
      assert Get(after.book.balances, name)
          != To(Postings(journal + after.entries), name) + To(charges + ChargesBy(b, op), name);
    }
  }

  /** One user, and a package the provider reports effective first and used up later. */
  function Bought(p: Package, solo: Member): Op {
    Sync([p], [solo], Assignments({}, map[], true), 1)
  }

  function UsedUp(p: Package, solo: Member): Op {
    Sync([p.(available := 0, status := "UsedUp")], [solo], Assignments({}, map[], true), 2)
  }

  lemma SingleMaps(name: string, share: nat, m: Member, p: Package)
    ensures SetBalances(map[], [name], [share]) == map[name := share]
    ensures SetBaselines(map[], [m]) == map[m.name := m.used]
    ensures CountedPackages(map[], [p]) == map[p.id := Record(p, Some(ByMigration))]
  {
    assert [name][..0] == [] && [share][..0] == [];
    assert SetBalances(map[], [name], [share]) == map[][name := share];
    assert [m][..0] == [];
    assert SetBaselines(map[], [m]) == map[][m.name := m.used];
    assert [p][..0] == [];
    assert CountedPackages(map[], [p]) == map[][p.id := Record(p, Some(ByMigration))];
  }

  lemma SingleRemaining(p: Package)
    ensures Remaining([p]) == EffectiveAmount(p)
  {
    var xs: seq<int> := EffectiveAmounts([p]);
    assert xs[..0] == [] && Sum(xs) == Sum(xs[..0]) + xs[0];
  }

  lemma SingleShare(remaining: nat, solo: Member)
    ensures OpeningShares(remaining, [solo]) == [remaining]
  {
    var shares := OpeningShares(remaining, [solo]);
    OpeningTotal(remaining, [solo]);
    assert shares == [shares[0]] && [shares[0]][..0] == [];
  }

  lemma BoughtBook(p: Package, solo: Member)
    requires p.Effective()
    ensures Perform(EMPTY, Bought(p, solo)).book == Holding(p, solo)
  {
    assert Names([solo]) == [solo.name];
    SingleRemaining(p);
    SingleShare(p.available, solo);
    SingleMaps(solo.name, p.available, solo, p);
  }

  lemma BoughtRun(p: Package, solo: Member)
    requires p.Effective()
    ensures var h := Run([Bought(p, solo)]); h.book == Holding(p, solo) && h.charges == [] && h.unlogged == []
  {
    assert [Bought(p, solo)][..0] == [];
    BoughtBook(p, solo);
  }

  lemma UsedUpRun(p: Package, solo: Member)
    requires p.Effective() && p.available > 0
    ensures var h := Run([Bought(p, solo), UsedUp(p, solo)]);
      h.unlogged == [Posting(solo.name, Minus(p.available))] && h.charges == []
  {
    BoughtRun(p, solo);
    UsedUpSweeps(p, solo);
    assert UnloggedBy(Holding(p, solo), UsedUp(p, solo)) == [Posting(solo.name, Minus(p.available))];
    RunOneMore([Bought(p, solo)], UsedUp(p, solo));
    assert [Bought(p, solo)] + [UsedUp(p, solo)] == [Bought(p, solo), UsedUp(p, solo)];
  }

  lemma RunOneMore(ops: seq<Op>, op: Op)
    ensures var h := Run(ops);
      && Run(ops + [op]).charges == h.charges + ChargesBy(h.book, op)
      && Run(ops + [op]).unlogged == h.unlogged + UnloggedBy(h.book, op)
  {
    assert (ops + [op])[..|ops|] == ops;
  }

  /**
   A history in which the journal falls short: the user bought a package, the provider says it is used up
   while nothing was metered, and the sweep takes the balance back without a line.
   */
  lemma DownwardSweepExample(p: Package, solo: Member)
    requires p.Effective() && p.available > 0
    ensures var h := Run([Bought(p, solo), UsedUp(p, solo)]);
      && h.unlogged == [Posting(solo.name, Minus(p.available))] && h.charges == []
      && Get(h.book.balances, solo.name) == To(Postings(h.journal), solo.name) - p.available
  {
    UsedUpRun(p, solo);
    OneUnlogged([Bought(p, solo), UsedUp(p, solo)], solo.name, Minus(p.available));
  }

  lemma OneUnlogged(ops: seq<Op>, user: string, amount: int)
    requires forall op | op in ops :: WellFormed(op)
    requires Run(ops).unlogged == [Posting(user, amount)] && Run(ops).charges == []
    ensures Get(Run(ops).book.balances, user) == To(Postings(Run(ops).journal), user) + amount
  {
    RunIsSound(ops);
    assert [Posting(user, amount)][..0] == [];
    assert To([Posting(user, amount)], user) == amount;
  }

  /** The book after the purchase, spelled out. */
  function Holding(p: Package, solo: Member): Book {
    Book(true, p.available, 1, 0, 0, map[solo.name := p.available], map[solo.name := solo.used],
         map[p.id := Record(p, Some(ByMigration))])
  }

  lemma UsedUpQuietly(p: Package, solo: Member)
    requires p.Effective()
    ensures var b, op := Holding(p, solo), UsedUp(p, solo);
      && Join(b, op.members) == b && Sum(Usage(op.members, b.baselines)) == 0 && Remaining(op.ps) == 0
      && Forfeits(Ordered(b.packages.Keys), b.packages, op.ps) == []
      && MapSum(b.balances) == p.available
  {
    var b, op := Holding(p, solo), UsedUp(p, solo);
    JoinNothing(b, op.members);
    NothingSpent(op.members, b.baselines);
    SingleRemaining(op.ps[0]);
    NothingForfeited(Ordered(b.packages.Keys), b.packages, op.ps);
    assert map[][solo.name := p.available] == b.balances;
    MapSumUpdate(map[], solo.name, p.available);
  }

  lemma UsedUpCredits(p: Package, solo: Member)
    ensures var b, op := Holding(p, solo), UsedUp(p, solo); CreditedTotal(b, op.ps, op.members, op.a) == 0
  {
    var b, op := Holding(p, solo), UsedUp(p, solo);
    var credited := CreditAmounts(Refreshed(b, op.ps), Names(op.members), op.a);
    forall id | id in credited ensures credited[id] == 0 { RefreshedAt(b, op.ps, id); }
    MapSumZero(credited);
  }

  lemma UsedUpSweeps(p: Package, solo: Member)
    requires p.Effective()
    ensures var b, op := Holding(p, solo), UsedUp(p, solo);
      Unallocated(Settle(b, op.ps, op.members, op.a, op.now).book) == Minus(p.available) && ChargesBy(b, op) == []
  {
    var b, op := Holding(p, solo), UsedUp(p, solo);
    UsedUpQuietly(p, solo);
    UsedUpCredits(p, solo);
    SettleMoves(b, op.ps, op.members, op.a, op.now);
  }

  /** In every history, the next sync charges the clamped sum of what each package lost. */
  lemma ConsumedIsClampedDrops(ops: seq<Op>, next: Op)
    requires (forall op | op in ops :: WellFormed(op)) && WellFormed(next) && next.Sync?
    requires Run(ops).book.migrated
    ensures var drop := MapSum(Drops(Run(ops).book, next.ps));
      Perform(Run(ops).book, next).book.consumed == if drop > 0 then drop else 0
  {
    RunIsSound(ops);
    ConsumptionIsDrops(Run(ops).book, next.ps);
  }

  // ---------------------------------------------------------------- credits happen once

  /** The lines that credit one package. */
  function Lines(es: seq<Entry>, id: string): seq<Entry> {
    if |es| == 0 then []
    else
      var e := es[|es| - 1];
      Lines(es[..|es| - 1], id) + if e.kind == Credited && e.package == Some(id) then [e] else []
  }

  lemma {:induction false} LinesAppend(x: seq<Entry>, y: seq<Entry>, id: string)
    ensures Lines(x + y, id) == Lines(x, id) + Lines(y, id)
  {
    if |y| == 0 {
      assert x + y == x;
    } else {
      assert (x + y)[..|x + y| - 1] == x + y[..|y| - 1];
      LinesAppend(x, y[..|y| - 1], id);
    }
  }

  lemma {:induction false} LinesNone(es: seq<Entry>, id: string)
    requires forall e | e in es :: e.kind != Credited || e.package != Some(id)
    ensures Lines(es, id) == []
  {
    if |es| > 0 { LinesNone(es[..|es| - 1], id); }
  }

  lemma {:induction false} LinesAll(es: seq<Entry>, id: string)
    requires forall e | e in es :: e.kind == Credited && e.package == Some(id)
    ensures Lines(es, id) == es
  {
    if |es| > 0 { LinesAll(es[..|es| - 1], id); }
  }

  lemma CreditEntriesTagged(id: string, r: Record, names: seq<string>, a: Assignments, now: int)
    ensures forall e | e in CreditEntries(id, r, names, a, now) :: e.kind == Credited && e.package == Some(id)
    ensures CreditEntries(id, r, names, a, now) == [] <==> CreditFor(id, r, names, a).None?
  {
  }

  lemma {:induction false} CreditLines(keys: seq<string>, packages: map<string, Record>, names: seq<string>,
                                       a: Assignments, now: int, id: string)
    requires Distinct(keys) && forall k | k in keys :: k in packages
    ensures Lines(AllCredits(keys, packages, names, a, now), id)
         == if id in keys then CreditEntries(id, packages[id], names, a, now) else []
  {
    var n := |keys| - 1;
    if n >= 0 {
      var key := keys[n];
      CreditLines(keys[..n], packages, names, a, now, id);
      var es := CreditEntries(key, packages[key], names, a, now);
      LinesAppend(AllCredits(keys[..n], packages, names, a, now), es, id);
      CreditEntriesTagged(key, packages[key], names, a, now);
      if key == id { LinesAll(es, id); } else { LinesNone(es, id); }
      assert id in keys <==> id in keys[..n] || id == key;
    }
  }

  lemma {:induction false} ExpiriesKind(names: seq<string>, shares: seq<nat>, id: string, now: int)
    requires |names| == |shares|
    ensures forall e | e in Expiries(names, shares, id, now) :: e.kind == Expiry
  {
    if |names| > 0 { ExpiriesKind(names[..|names| - 1], shares[..|names| - 1], id, now); }
  }

  lemma {:induction false} ForfeitsKind(balances: map<string, int>, fs: seq<Forfeit>, now: int)
    ensures forall e | e in ForfeitAll(balances, fs, now) :: e.kind == Expiry
  {
    var n := |fs| - 1;
    if n >= 0 {
      ForfeitsKind(balances, fs[..n], now);
      var left := Post(balances, Postings(ForfeitAll(balances, fs[..n], now)));
      var names := Holders(Ordered(left.Keys), left);
      ExpiriesKind(names, A.SplitBy(fs[n].leftover, Holdings(names, left)), fs[n].id, now);
    }
  }

  /** The record a sync decides on before crediting. */
  function RecordSeen(b: Book, ps: seq<Package>, id: string): Option<Record> {
    if id in Refreshed(b, ps) then Some(Refreshed(b, ps)[id]) else None
  }

  lemma SettleLines(b: Book, ps: seq<Package>, members: seq<Member>, a: Assignments, now: int, id: string)
    ensures var seen := RecordSeen(b, ps, id);
      Lines(Settle(b, ps, members, a, now).entries, id)
      == if seen.Some? then CreditEntries(id, seen.value, Names(members), a, now) else []
  {
    var expiries := ForfeitsOf(b, ps, members, a, now);
    CreditLines(Ordered(Refreshed(b, ps).Keys), Refreshed(b, ps), Names(members), a, now, id);
    ForfeitsKind(AfterCharges(b, ps, members, a, now), Forfeits(Ordered(b.packages.Keys), b.packages, ps), now);
    LinesNone(expiries, id);
    LinesAppend(CreditsOf(b, ps, members, a, now), expiries, id);
  }

  lemma SweepLines(o: Outcome, name: string, now: int, id: string)
    ensures Lines(Sweep(o, name, now).entries, id) == Lines(o.entries, id)
  {
    var sweep := Unallocated(o.book);
    var line := if sweep > 0 then [Entry(now, Allocated, name, sweep, None, "")] else [];
    LinesNone(line, id);
    LinesAppend(o.entries, line, id);
  }

  lemma SyncLines(b: Book, op: Op, id: string)
    requires op.Sync? && b.migrated
    ensures Lines(Perform(b, op).entries, id)
         == Lines(Settle(b, op.ps, op.members, op.a, op.now).entries, id)
    ensures Perform(b, op).book.packages == CreditPackages(Refreshed(b, op.ps), Names(op.members), op.a)
  {
    if Sweeps(op.members, op.a) {
      SweepLines(Settle(b, op.ps, op.members, op.a, op.now), op.members[0].name, op.now, id);
    }
  }

  /** An operation writes these credit lines for a package whose record goes from one state to another. */
  predicate CreditedOnce(was: map<string, Record>, now: map<string, Record>, lines: seq<Entry>, id: string) {
    && (CreditAt(was, id).Some? ==> CreditAt(now, id) == CreditAt(was, id) && lines == [])
    && (lines != [] ==>
          && CreditAt(was, id).None? && CreditAt(now, id).Some?
          && Sum(Amounts(Postings(lines))) == now[id].package.total)
    && (lines == [] ==> CreditAt(now, id) == CreditAt(was, id) || CreditAt(now, id) == Some(ByMigration))
  }

  lemma RecordCredits(r: Record, id: string, names: seq<string>, a: Assignments, now: int)
    ensures var lines, next := CreditEntries(id, r, names, a, now), CreditRecord(id, r, names, a);
      && next.package == r.package
      && (r.credit.Some? ==> next.credit == r.credit && lines == [])
      && (lines != [] ==> r.credit.None? && next.credit.Some? && Sum(Amounts(Postings(lines))) == r.package.total)
      && (lines == [] ==> next.credit == r.credit)
  {
    CreditInFull(id, r, names, a, now);
    CreditEntriesTagged(id, r, names, a, now);
  }

  lemma SyncCredits(b: Book, op: Op, id: string)
    requires op.Sync? && b.migrated
    ensures CreditedOnce(b.packages, CreditPackages(Refreshed(b, op.ps), Names(op.members), op.a),
                         Lines(Settle(b, op.ps, op.members, op.a, op.now).entries, id), id)
  {
    SettleLines(b, op.ps, op.members, op.a, op.now, id);
    RefreshedAt(b, op.ps, id);
    var seen := RecordSeen(b, op.ps, id);
    if seen.Some? {
      assert seen.value.credit == CreditAt(b.packages, id);
      RecordCredits(seen.value, id, Names(op.members), op.a, op.now);
    }
  }

  lemma MoveOrGiveCredits(b: Book, op: Op, id: string)
    requires !op.Sync?
    ensures Perform(b, op).book.packages == b.packages && Lines(Perform(b, op).entries, id) == []
  {
    JoinKeeps(b, op.members, "");
    LinesNone(Perform(b, op).entries, id);
  }

  /**
   A credit is given at most once and never changes: an operation writes credit lines for a package
   exactly when it turns an uncredited package into a credited one, and the lines add up to its total.
   */
  lemma CreditStep(b: Book, op: Op, id: string)
    requires !b.migrated ==> b == EMPTY
    ensures CreditedOnce(b.packages, Perform(b, op).book.packages, Lines(Perform(b, op).entries, id), id)
  {
    if !op.Sync? {
      MoveOrGiveCredits(b, op, id);
    } else if b.migrated {
      SyncLines(b, op, id);
      SyncCredits(b, op, id);
    } else {
      LinesNone(Perform(b, op).entries, id);
      CountedAt(map[], op.ps, id);
    }
  }

  ghost function LinesAt(ops: seq<Op>, i: nat, id: string): seq<Entry>
    requires i < |ops|
  {
    Lines(Perform(Run(ops[..i]).book, ops[i]).entries, id)
  }

  lemma {:induction false} CreditStays(ops: seq<Op>, i: nat, j: nat, id: string)
    requires i <= j <= |ops| && forall op | op in ops :: WellFormed(op)
    requires CreditAt(Run(ops[..i]).book.packages, id).Some?
    ensures CreditAt(Run(ops[..j]).book.packages, id) == CreditAt(Run(ops[..i]).book.packages, id)
    decreases j - i
  {
    if i < j {
      CreditStays(ops, i, j - 1, id);
      RunIsSound(ops[..j - 1]);
      assert ops[..j][..j - 1] == ops[..j - 1];
      CreditStep(Run(ops[..j - 1]).book, ops[j - 1], id);
    }
  }

  /** In every history the credit lines of a package all come from one operation. */
  lemma CreditedAtMostOnce(ops: seq<Op>, i: nat, j: nat, id: string)
    requires i < j < |ops| && forall op | op in ops :: WellFormed(op)
    ensures LinesAt(ops, i, id) == [] || LinesAt(ops, j, id) == []
  {
    if LinesAt(ops, i, id) != [] {
      RunIsSound(ops[..i]);
      RunIsSound(ops[..j]);
      CreditStep(Run(ops[..i]).book, ops[i], id);
      assert ops[..i + 1][..i] == ops[..i];
      CreditStays(ops, i + 1, j, id);
      CreditStep(Run(ops[..j]).book, ops[j], id);
    }
  }

  lemma JournalNext(ops: seq<Op>, id: string)
    requires |ops| > 0
    ensures var n := |ops| - 1;
      Lines(Run(ops).journal, id) == Lines(Run(ops[..n]).journal, id) + LinesAt(ops, n, id)
  {
    var before, op := Run(ops[..|ops| - 1]), ops[|ops| - 1];
    LinesAppend(before.journal, Perform(before.book, op).entries, id);
  }

  /** So the journal's credit lines for a package are those of one operation, or none. */
  lemma {:induction false} JournalCredits(ops: seq<Op>, id: string) returns (i: nat)
    requires forall op | op in ops :: WellFormed(op)
    ensures Lines(Run(ops).journal, id) == [] || (i < |ops| && Lines(Run(ops).journal, id) == LinesAt(ops, i, id))
  {
    var n := |ops| - 1;
    i := 0;
    if n >= 0 {
      JournalNext(ops, id);
      if Lines(Run(ops[..n]).journal, id) == [] {
        i := n;
      } else {
        i := JournalCredits(ops[..n], id);
        assert LinesAt(ops[..n], i, id) == LinesAt(ops, i, id) by { assert ops[..n][..i] == ops[..i]; }
        CreditedAtMostOnce(ops, i, n, id);
      }
    }
  }

  lemma RunUpTo(ops: seq<Op>, i: nat)
    requires i < |ops|
    ensures Run(ops[..i + 1]).book == Perform(Run(ops[..i]).book, ops[i]).book
  {
    assert ops[..i + 1][..i] == ops[..i];
  }

  lemma LinesInFull(ops: seq<Op>, i: nat, id: string)
    requires i < |ops| && forall op | op in ops :: WellFormed(op)
    ensures LinesAt(ops, i, id) != [] ==>
      && id in Run(ops[..i + 1]).book.packages
      && Sum(Amounts(Postings(LinesAt(ops, i, id)))) == Run(ops[..i + 1]).book.packages[id].package.total
  {
    RunUpTo(ops, i);
    RunIsSound(ops[..i]);
    CreditStep(Run(ops[..i]).book, ops[i], id);
  }

  /** And they add up to the package's total, as the provider reported it to that operation. */
  lemma JournalCreditsInFull(ops: seq<Op>, id: string) returns (i: nat)
    requires forall op | op in ops :: WellFormed(op)
    ensures Lines(Run(ops).journal, id) != [] ==>
      && i < |ops| && id in Run(ops[..i + 1]).book.packages
      && Sum(Amounts(Postings(Lines(Run(ops).journal, id)))) == Run(ops[..i + 1]).book.packages[id].package.total
  {
    i := JournalCredits(ops, id);
    if Lines(Run(ops).journal, id) != [] {
      LinesInFull(ops, i, id);
    }
  }
}
