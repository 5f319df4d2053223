/** The book as it is updated in place, loop by loop. */
module LedgerBook {
  import opened Options
  import opened Sums
  import opened Keys
  import opened Ledger
  import LedgerLaws
  import LedgerGuarantees
  import A = Apportion

  method TotalOf(balances: map<string, int>) returns (total: int)
    ensures total == MapSum(balances)
  {
    var keys := Ordered(balances.Keys);
    ghost var values := At(balances, keys);
    total := 0;
    for i := 0 to |keys|
      invariant total == Sum(values[..i])
    {
      assert values[..i + 1][..i] == values[..i];
      total := total + balances[keys[i]];
    }
    assert values[..|keys|] == values;
    MapSumOver(balances, keys);
  }

  /** The records after the ones at `keys` have been replaced in turn. */
  ghost function Replaced(m: map<string, Record>, keys: seq<string>, f: (string, Record) -> Record)
    : (r: map<string, Record>)
    requires forall k | k in keys :: k in m
    ensures r.Keys == m.Keys
  {
    if |keys| == 0 then m
    else
      var before, k := Replaced(m, keys[..|keys| - 1], f), keys[|keys| - 1];
      before[k := f(k, before[k])]
  }

  lemma {:induction false} ReplacedAt(m: map<string, Record>, keys: seq<string>, f: (string, Record) -> Record, k: string)
    requires (forall j | j in keys :: j in m) && Distinct(keys) && k in m
    ensures Replaced(m, keys, f)[k] == if k in keys then f(k, m[k]) else m[k]
  {
    var n := |keys| - 1;
    if n >= 0 {
      ReplacedAt(m, keys[..n], f, k);
      assert k in keys <==> k in keys[..n] || k == keys[n];
    }
  }

  ghost function Marking(ps: seq<Package>): (string, Record) -> Record {
    (k, r) => Marked(r, Find(ps, k))
  }

  ghost function Crediting(names: seq<string>, a: Assignments): (string, Record) -> Record {
    (k, r) => CreditRecord(k, r, names, a)
  }

  lemma ReplacedAll(m: map<string, Record>, f: (string, Record) -> Record, all: map<string, Record>)
    requires all.Keys == m.Keys && forall k | k in m :: all[k] == f(k, m[k])
    ensures Replaced(m, Ordered(m.Keys), f) == all
  {
    forall k | k in m ensures Replaced(m, Ordered(m.Keys), f)[k] == all[k] {
      ReplacedAt(m, Ordered(m.Keys), f, k);
    }
  }

  lemma MarkedAll(was: map<string, Record>, ps: seq<Package>)
    ensures Replaced(was, Ordered(was.Keys), Marking(ps)) == MarkMissing(was, ps)
  {
    ReplacedAll(was, Marking(ps), MarkMissing(was, ps));
  }

  lemma CreditedAll(was: map<string, Record>, names: seq<string>, a: Assignments)
    ensures Replaced(was, Ordered(was.Keys), Crediting(names, a)) == CreditPackages(was, names, a)
  {
    ReplacedAll(was, Crediting(names, a), CreditPackages(was, names, a));
  }

  ghost function Debits(members: seq<Member>, shares: seq<nat>): (ps: seq<Posting>)
    requires |members| == |shares|
    ensures |ps| == |members|
  {
    seq(|members|, i requires 0 <= i < |members| => Posting(members[i].name, Minus(shares[i])))
  }

  lemma PostUpTo(balances: map<string, int>, ps: seq<Posting>, i: nat)
    requires i < |ps|
    ensures var before := Post(balances, ps[..i]);
      Post(balances, ps[..i + 1]) == before[ps[i].user := Get(before, ps[i].user) + ps[i].amount]
  {
    assert ps[..i + 1][..i] == ps[..i];
  }

  lemma PostOne(balances: map<string, int>, es: seq<Entry>, e: Entry)
    ensures var before := Post(balances, Postings(es));
      Post(balances, Postings(es + [e])) == before[e.user := Get(before, e.user) + e.amount]
  {
    assert Postings(es + [e])[..|es|] == Postings(es);
  }

  lemma SharesNext(kind: EntryKind, names: seq<string>, shares: seq<nat>, package: Option<string>, now: int, i: nat)
    requires |names| == |shares| && i < |names|
    ensures Shares(kind, names[..i + 1], shares[..i + 1], package, now)
         == Shares(kind, names[..i], shares[..i], package, now)
            + [Entry(now, kind, names[i], shares[i], package, "")]
  {
  }

  /** The book once purchases are credited. */
  function Purchased(b: Book, ps: seq<Package>, members: seq<Member>, a: Assignments, now: int): Book {
    Book(b.migrated, Remaining(ps), now, ConsumedOf(b, ps), b.metered,
         Post(Join(b, members).balances, Postings(CreditsOf(b, ps, members, a, now))), Join(b, members).baselines,
         CreditPackages(Refreshed(b, ps), Names(members), a))
  }

  /** A book with its consumption charged to the members and their use noted. */
  function Settled(b: Book, members: seq<Member>): Book {
    b.(metered := Sum(Usage(members, b.baselines)),
       balances := Post(b.balances, Charges(b.consumed, members, b.baselines)),
       baselines := SetBaselines(b.baselines, members))
  }

  /** The book once purchases are credited and the drop is charged, before anything is forfeited. */
  function Charged(b: Book, ps: seq<Package>, members: seq<Member>, a: Assignments, now: int): Book {
    Book(b.migrated, Remaining(ps), now, ConsumedOf(b, ps), Sum(Usage(members, Join(b, members).baselines)),
         AfterCharges(b, ps, members, a, now), SetBaselines(Join(b, members).baselines, members),
         CreditPackages(Refreshed(b, ps), Names(members), a))
  }

  class LiveBook {
    var migrated: bool
    var remaining: nat
    var syncedAt: int
    var consumed: nat
    var metered: nat
    var balances: map<string, int>
    var baselines: map<string, nat>
    var packages: map<string, Record>

    function View(): Book
      reads this
    {
      Book(migrated, remaining, syncedAt, consumed, metered, balances, baselines, packages)
    }

    constructor (b: Book)
      ensures View() == b
    {
      migrated, remaining, syncedAt, consumed, metered :=
        b.migrated, b.remaining, b.syncedAt, b.consumed, b.metered;
      balances, baselines, packages := b.balances, b.baselines, b.packages;
    }

    method UnallocatedNow() returns (amount: int)
      ensures amount == Unallocated(View())
    {
      var total := TotalOf(balances);
      amount := remaining - total;
    }

    method JoinMembers(members: seq<Member>)
      modifies this`balances, this`baselines
      ensures View() == Join(old(View()), members)
    {
      for i := 0 to |members|
        invariant View() == Join(old(View()), members[..i])
      {
        var m := members[i];
        assert members[..i + 1][..i] == members[..i];
        if m.name !in baselines { baselines := baselines[m.name := m.used]; }
        if m.name !in balances { balances := balances[m.name := 0]; }
      }
      assert members[..|members|] == members;
    }

    method ResetBaselines(members: seq<Member>)
      modifies this`baselines
      ensures baselines == SetBaselines(old(baselines), members)
    {
      for i := 0 to |members|
        invariant baselines == SetBaselines(old(baselines), members[..i])
      {
        assert members[..i + 1][..i] == members[..i];
        baselines := baselines[members[i].name := members[i].used];
      }
      assert members[..|members|] == members;
    }

    /** Adds one share to each name and writes the line for it. */
    method PostShares(kind: EntryKind, names: seq<string>, shares: seq<nat>, package: Option<string>, now: int)
      returns (es: seq<Entry>)
      requires |names| == |shares|
      modifies this`balances
      ensures es == Shares(kind, names, shares, package, now)
      ensures balances == Post(old(balances), Postings(es))
    {
      es := [];
      for i := 0 to |names|
        invariant es == Shares(kind, names[..i], shares[..i], package, now)
        invariant balances == Post(old(balances), Postings(es))
      {
        var e := Entry(now, kind, names[i], shares[i], package, "");
        SharesNext(kind, names, shares, package, now, i);
        PostOne(old(balances), es, e);
        balances := balances[names[i] := Get(balances, names[i]) + shares[i]];
        es := es + [e];
      }
      assert names[..|names|] == names && shares[..|shares|] == shares;
    }

    method MigrateFrom(ps: seq<Package>, members: seq<Member>, now: int) returns (entries: seq<Entry>)
      modifies this
      ensures Outcome(View(), entries) == Migrate(old(View()), ps, members, now)
    {
      var weights := OfflineWeights(members);
      var shares;
      if exists i | 0 <= i < |weights| :: weights[i] > 0 {
        shares := A.ComputeSplit(remaining, weights);
      } else {
        shares := A.ComputeSplit(remaining, A.Ones(|members|));
      }
      entries := OpenBalances(members, shares, now);
      ResetBaselines(members);
      CountPackages(ps);
      migrated := true;
    }

    method OpenBalances(members: seq<Member>, shares: seq<nat>, now: int) returns (entries: seq<Entry>)
      requires |members| == |shares|
      modifies this`balances
      ensures balances == SetBalances(old(balances), Names(members), shares)
      ensures entries == Shares(Migration, Names(members), shares, None, now)
    {
      var names := Names(members);
      entries := [];
      for i := 0 to |members|
        invariant balances == SetBalances(old(balances), names[..i], shares[..i])
        invariant entries == Shares(Migration, names, shares, None, now)[..i]
      {
        assert names[..i + 1][..i] == names[..i] && shares[..i + 1][..i] == shares[..i];
        balances := balances[members[i].name := shares[i]];
        entries := entries + [Entry(now, Migration, members[i].name, shares[i], None, "")];
      }
      assert names[..|names|] == names && shares[..|shares|] == shares;
    }

    method CountPackages(ps: seq<Package>)
      modifies this`packages
      ensures packages == CountedPackages(old(packages), ps)
    {
      for i := 0 to |ps|
        invariant packages == CountedPackages(old(packages), ps[..i])
      {
        assert ps[..i + 1][..i] == ps[..i];
        packages := packages[ps[i].id := Record(ps[i], Some(ByMigration))];
      }
      assert ps[..|ps|] == ps;
    }

    /** Walks the records that stop being effective, totals what they held and marks the missing ones. */
    method ScanGone(ps: seq<Package>) returns (gone: nat, forfeited: seq<Forfeit>)
      modifies this`packages
      ensures packages == MarkMissing(old(packages), ps)
      ensures gone == Gone(old(packages), ps)
      ensures forfeited == Forfeits(Ordered(old(packages).Keys), old(packages), ps)
    {
      var keys := Ordered(packages.Keys);
      gone, forfeited := ScanKeys(keys, ps);
      MarkedAll(old(packages), ps);
    }

    method ScanKeys(keys: seq<string>, ps: seq<Package>) returns (gone: nat, forfeited: seq<Forfeit>)
      requires Distinct(keys) && forall k | k in keys :: k in packages
      modifies this`packages
      ensures packages == Replaced(old(packages), keys, Marking(ps))
      ensures gone == Sum(Leftovers(keys, old(packages), ps))
      ensures forfeited == Forfeits(keys, old(packages), ps)
    {
      ghost var was, values := packages, Leftovers(keys, packages, ps);
      gone, forfeited := 0, [];
      for i := 0 to |keys|
        invariant packages == Replaced(was, keys[..i], Marking(ps))
        invariant gone == Sum(values[..i])
        invariant forfeited == Forfeits(keys[..i], was, ps)
      {
        ReplacedAt(was, keys[..i], Marking(ps), keys[i]);
        assert keys[..i + 1][..i] == keys[..i] && values[..i + 1][..i] == values[..i];
        var leftover := ScanOne(keys[i], ps);
        gone := gone + leftover;
        if packages[keys[i]].credit.Some? && leftover > 0 {
          forfeited := forfeited + [Forfeit(keys[i], leftover)];
        }
      }
      assert keys[..|keys|] == keys && values[..|keys|] == values;
    }

    method ScanOne(id: string, ps: seq<Package>) returns (leftover: nat)
      requires id in packages
      modifies this`packages
      ensures leftover == Leftover(old(packages)[id].package, Find(ps, id))
      ensures packages == old(packages)[id := Marked(old(packages)[id], Find(ps, id))]
    {
      var record, current := packages[id], Find(ps, id);
      leftover := 0;
      if !record.package.Effective() { return; }
      if current.Some? && current.value.Effective() { return; }
      leftover := if current.Some? && current.value.UsedUp() then 0 else record.package.available;
      if current.None? {
        packages := packages[id := record.(package := record.package.(status := "Missing"))];
      }
    }

    method AbsorbFetched(ps: seq<Package>) returns (added: nat)
      modifies this`packages
      ensures packages == Absorb(old(packages), ps)
      ensures added == Added(old(packages), ps)
    {
      added := 0;
      for i := 0 to |ps|
        invariant packages == Absorb(old(packages), ps[..i]) && added == Added(old(packages), ps[..i])
      {
        var p := ps[i];
        assert ps[..i + 1][..i] == ps[..i];
        if p.id in packages {
          if p.Effective() && !packages[p.id].package.Effective() { added := added + p.total; }
          packages := packages[p.id := packages[p.id].(package := p)];
        } else {
          if p.Effective() { added := added + p.total; }
          packages := packages[p.id := Record(p, None)];
        }
      }
      assert ps[..|ps|] == ps;
    }

    method CreditOne(id: string, names: seq<string>, a: Assignments, now: int) returns (es: seq<Entry>)
      requires id in packages
      modifies this`balances, this`packages
      ensures es == CreditEntries(id, old(packages)[id], names, a, now)
      ensures balances == Post(old(balances), Postings(es))
      ensures packages == old(packages)[id := CreditRecord(id, old(packages)[id], names, a)]
    {
      var record := packages[id];
      es := [];
      if record.credit.None? && record.package.Effective() {
        if id in a.owners && a.owners[id] in names {
          var owner := a.owners[id];
          balances := balances[owner := Get(balances, owner) + record.package.total];
          packages := packages[id := record.(credit := Some(ToUser(owner)))];
          es := [Entry(now, Credited, owner, record.package.total, Some(id), "")];
          assert Postings(es)[..0] == [];
        } else if (a.exclusive || id in a.split) && |names| > 0 {
          var shares := A.ComputeSplit(record.package.total, A.Ones(|names|));
          es := PostShares(Credited, names, shares, Some(id), now);
          packages := packages[id := record.(credit := Some(BySplit))];
        }
      }
    }

    method CreditListed(names: seq<string>, a: Assignments, now: int) returns (entries: seq<Entry>)
      modifies this`balances, this`packages
      ensures entries == AllCredits(Ordered(old(packages).Keys), old(packages), names, a, now)
      ensures balances == Post(old(balances), Postings(entries))
      ensures packages == CreditPackages(old(packages), names, a)
    {
      var keys := Ordered(packages.Keys);
      entries := CreditKeys(keys, names, a, now);
      CreditedAll(old(packages), names, a);
    }

    method CreditKeys(keys: seq<string>, names: seq<string>, a: Assignments, now: int) returns (entries: seq<Entry>)
      requires Distinct(keys) && forall k | k in keys :: k in packages
      modifies this`balances, this`packages
      ensures entries == AllCredits(keys, old(packages), names, a, now)
      ensures balances == Post(old(balances), Postings(entries))
      ensures packages == Replaced(old(packages), keys, Crediting(names, a))
    {
      ghost var was := packages;
      entries := [];
      for i := 0 to |keys|
        invariant packages == Replaced(was, keys[..i], Crediting(names, a))
        invariant entries == AllCredits(keys[..i], was, names, a, now)
        invariant balances == Post(old(balances), Postings(entries))
      {
        ReplacedAt(was, keys[..i], Crediting(names, a), keys[i]);
        assert keys[..i + 1][..i] == keys[..i];
        var es := CreditOne(keys[i], names, a, now);
        LedgerLaws.PostingsAppend(entries, es);
        LedgerLaws.PostAppend(old(balances), Postings(entries), Postings(es));
        entries := entries + es;
      }
      assert keys[..|keys|] == keys;
    }

    /** Charges the drop to the members in proportion to what they used since the last sync. */
    method ChargeUsage(drop: nat, members: seq<Member>) returns (usedTotal: nat)
      requires forall m | m in members :: m.name in baselines && m.name in balances
      modifies this`balances
      ensures usedTotal == Sum(Usage(members, baselines))
      ensures balances == Post(old(balances), Charges(drop, members, baselines))
    {
      var usage := Usage(members, baselines);
      usedTotal := A.TotalWeight(usage);
      if drop > 0 && usedTotal > 0 {
        var shares := A.ComputeSplit(drop, usage);
        assert Charges(drop, members, baselines) == Debits(members, shares);
        TakeDebits(members, shares);
      }
    }

    method TakeDebits(members: seq<Member>, shares: seq<nat>)
      requires |members| == |shares| && forall m | m in members :: m.name in balances
      modifies this`balances
      ensures balances == Post(old(balances), Debits(members, shares))
    {
      ghost var debits := Debits(members, shares);
      for i := 0 to |members|
        invariant balances == Post(old(balances), debits[..i])
        invariant balances.Keys >= old(balances).Keys
      {
        PostUpTo(old(balances), debits, i);
        assert debits[i] == Posting(members[i].name, Minus(shares[i])) && members[i] in members;
        balances := balances[members[i].name := balances[members[i].name] - shares[i]];
      }
      assert debits[..|members|] == debits;
    }

    /** Takes one leftover from the positive balances in proportion to them. */
    method ForfeitOne(f: Forfeit, now: int) returns (es: seq<Entry>)
      modifies this`balances
      ensures es == ForfeitEntries(old(balances), f, now)
      ensures balances == Post(old(balances), Postings(es))
    {
      var names := Holders(Ordered(balances.Keys), balances);
      var shares := A.ComputeSplit(f.leftover, Holdings(names, balances));
      es := TakeShares(names, shares, f.id, now);
    }

    method TakeShares(names: seq<string>, shares: seq<nat>, id: string, now: int) returns (es: seq<Entry>)
      requires |names| == |shares| && forall k | k in names :: k in balances
      modifies this`balances
      ensures es == Expiries(names, shares, id, now)
      ensures balances == Post(old(balances), Postings(es))
    {
      es := [];
      for i := 0 to |names|
        invariant es == Expiries(names[..i], shares[..i], id, now)
        invariant balances == Post(old(balances), Postings(es))
        invariant balances.Keys >= old(balances).Keys
      {
        assert names[..i + 1][..i] == names[..i] && shares[..i + 1][..i] == shares[..i];
        if shares[i] != 0 {
          var e := Entry(now, Expiry, names[i], Minus(shares[i]), Some(id), "");
          PostOne(old(balances), es, e);
          balances := balances[names[i] := balances[names[i]] - shares[i]];
          es := es + [e];
        }
      }
      assert names[..|names|] == names && shares[..|shares|] == shares;
    }

    method ForfeitEach(fs: seq<Forfeit>, now: int) returns (entries: seq<Entry>)
      modifies this`balances
      ensures entries == ForfeitAll(old(balances), fs, now)
      ensures balances == Post(old(balances), Postings(entries))
    {
      entries := [];
      for i := 0 to |fs|
        invariant entries == ForfeitAll(old(balances), fs[..i], now)
        invariant balances == Post(old(balances), Postings(entries))
      {
        assert fs[..i + 1][..i] == fs[..i];
        var es := ForfeitOne(fs[i], now);
        LedgerLaws.PostingsAppend(entries, es);
        LedgerLaws.PostAppend(old(balances), Postings(entries), Postings(es));
        entries := entries + es;
      }
      assert fs[..|fs|] == fs;
    }

    /** Joins the members and brings the package records up to date; returns the drop to charge. */
    method RefreshFrom(ps: seq<Package>, members: seq<Member>, now: int) returns (forfeited: seq<Forfeit>)
      modifies this
      ensures forfeited == Forfeits(Ordered(old(packages).Keys), old(packages), ps)
      ensures var b := old(View());
        View() == b.(remaining := Remaining(ps), syncedAt := now, consumed := ConsumedOf(b, ps),
                     balances := Join(b, members).balances, baselines := Join(b, members).baselines,
                     packages := Refreshed(b, ps))
    {
      ghost var b := View();
      var previous := remaining;
      remaining := A.TotalWeight(EffectiveAmounts(ps));
      syncedAt := now;
      ghost var c := View();
      JoinMembers(members);
      LedgerLaws.JoinKeeps(c, members, "");
      JoinIgnores(b, c, members);
      var gone;
      gone, forfeited := ScanGone(ps);
      var added := AbsorbFetched(ps);
      var drop := previous + added - gone - remaining;
      consumed := if drop > 0 then drop else 0;
    }

    /** The first half of a sync: records are brought up to date and purchases credited. */
    method CreditFrom(ps: seq<Package>, members: seq<Member>, a: Assignments, now: int)
      returns (credits: seq<Entry>, forfeited: seq<Forfeit>)
      modifies this
      ensures credits == CreditsOf(old(View()), ps, members, a, now)
      ensures forfeited == Forfeits(Ordered(old(packages).Keys), old(packages), ps)
      ensures View() == Purchased(old(View()), ps, members, a, now)
    {
      forfeited := RefreshFrom(ps, members, now);
      credits := CreditListed(Names(members), a, now);
    }

    /** Everything a sync does before forfeits: records, credits, charges, baselines. */
    method ChargeFrom(ps: seq<Package>, members: seq<Member>, a: Assignments, now: int)
      returns (credits: seq<Entry>, forfeited: seq<Forfeit>)
      modifies this
      ensures credits == CreditsOf(old(View()), ps, members, a, now)
      ensures forfeited == Forfeits(Ordered(old(packages).Keys), old(packages), ps)
      ensures View() == Charged(old(View()), ps, members, a, now)
    {
      ghost var b := View();
      credits, forfeited := CreditFrom(ps, members, a, now);
      LedgerLaws.JoinCovers(b, members);
      LedgerLaws.PostKeys(Join(b, members).balances, Postings(credits));
      ChargeMembers(members);
    }

    method ChargeMembers(members: seq<Member>)
      requires forall m | m in members :: m.name in baselines && m.name in balances
      modifies this`metered, this`balances, this`baselines
      ensures View() == Settled(old(View()), members)
    {
      metered := ChargeUsage(consumed, members);
      ResetBaselines(members);
    }

    /** Everything a sync of a migrated book does, up to the single-user sweep. */
    method SettleFrom(ps: seq<Package>, members: seq<Member>, a: Assignments, now: int) returns (entries: seq<Entry>)
      requires migrated
      modifies this
      ensures Outcome(View(), entries) == Settle(old(View()), ps, members, a, now)
    {
      var forfeited;
      entries, forfeited := ChargeFrom(ps, members, a, now);
      var expiries := ForfeitEach(forfeited, now);
      entries := entries + expiries;
    }

    method ReconcileWith(ps: seq<Package>, members: seq<Member>, a: Assignments, now: int)
      returns (entries: seq<Entry>)
      modifies this
      ensures Outcome(View(), entries) == Reconcile(old(View()), ps, members, a, now)
    {
      if !migrated {
        remaining := A.TotalWeight(EffectiveAmounts(ps));
        syncedAt := now;
        consumed, metered := 0, 0;
        entries := MigrateFrom(ps, members, now);
        return;
      }
      entries := SettleFrom(ps, members, a, now);
      if a.exclusive && |members| == 1 {
        var name := members[0].name;
        var sweep := UnallocatedNow();
        LedgerGuarantees.SettledBalances(old(View()), ps, members, a, now);
        assert members[0] in members;
        balances := balances[name := balances[name] + sweep];
        if sweep > 0 {
          entries := entries + [Entry(now, Allocated, name, sweep, None, "")];
        }
      }
    }

    method AllocateTo(members: seq<Member>, to: Option<string>, amount: Option<nat>, now: int)
      returns (ok: bool, entries: seq<Entry>)
      modifies this
      ensures ok == Allocate(old(View()), members, to, amount, now).Ok?
      ensures ok ==> Outcome(View(), entries) == Allocate(old(View()), members, to, amount, now).outcome
      ensures !ok ==> View() == old(View())
    {
      ok, entries := false, [];
      if !migrated { return; }
      var available := UnallocatedNow();
      if available <= 0 { return; }
      var wanted := if amount.Some? then amount.value else available;
      if wanted == 0 || wanted > available { return; }
      if to.Some? && to.value !in Names(members) { return; }
      var names := if to.Some? then [to.value] else Names(members);
      if |names| == 0 { return; }
      JoinMembers(members);
      var shares := A.ComputeSplit(wanted, A.Ones(|names|));
      entries := PostShares(Allocated, names, shares, None, now);
      ok := true;
    }

    method TransferBetween(members: seq<Member>, from: string, to: string, amount: nat, now: int)
      returns (ok: bool, entries: seq<Entry>)
      modifies this
      ensures ok == Transfer(old(View()), members, from, to, amount, now).Ok?
      ensures ok ==> Outcome(View(), entries) == Transfer(old(View()), members, from, to, amount, now).outcome
      ensures !ok ==> View() == Transfer(old(View()), members, from, to, amount, now).book
    {
      ok, entries := false, [];
      if !migrated || amount == 0 || from == to { return; }
      var source := FindMember(members, from);
      if source.None? || FindMember(members, to).None? { return; }
      JoinMembers(members);
      if amount > Get(balances, from) - Spent(source.value, baselines) { return; }
      ghost var joined := balances;
      balances := balances[from := Get(balances, from) - amount];
      balances := balances[to := Get(balances, to) + amount];
      entries := TransferEntries(from, to, amount, now);
      ghost var ps := Postings(entries);
      assert ps[..1] == [ps[0]] && ps[..1][..0] == [];
      assert Post(joined, ps[..1]) == joined[from := Get(joined, from) - amount];
      ok := true;
    }
  }

  /** Joining looks at the balances and baselines only. */
  lemma {:induction false} JoinIgnores(b: Book, c: Book, members: seq<Member>)
    requires b.balances == c.balances && b.baselines == c.baselines
    ensures Join(b, members).balances == Join(c, members).balances
    ensures Join(b, members).baselines == Join(c, members).baselines
  {
    if |members| > 0 { JoinIgnores(b, c, members[..|members| - 1]); }
  }
}
