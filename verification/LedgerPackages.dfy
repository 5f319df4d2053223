/** What a sync does to the package records, package by package. */
module LedgerPackages {
  import opened Options
  import opened Sums
  import opened Keys
  import opened Ledger

  function Ids(ps: seq<Package>): (ids: seq<string>)
    ensures |ids| == |ps|
  {
    seq(|ps|, i requires 0 <= i < |ps| => ps[i].id)
  }

  /** No package is listed twice in one fetch. */
  predicate Unique(ps: seq<Package>) {
    Distinct(Ids(ps))
  }

  lemma {:induction false} FindListed(ps: seq<Package>, i: nat)
    requires Unique(ps) && i < |ps|
    ensures Find(ps, ps[i].id) == Some(ps[i])
  {
    var n := |ps| - 1;
    assert Ids(ps)[i] == ps[i].id && Ids(ps)[n] == ps[n].id;
    if i < n {
      assert Ids(ps[..n]) == Ids(ps)[..n];
      FindListed(ps[..n], i);
    }
  }

  lemma {:induction false} FindMeans(ps: seq<Package>, id: string)
    ensures Find(ps, id).Some? <==> id in Ids(ps)
    ensures Find(ps, id).Some? ==> Find(ps, id).value in ps && Find(ps, id).value.id == id
  {
    var n := |ps| - 1;
    if n >= 0 {
      FindMeans(ps[..n], id);
      assert Ids(ps) == Ids(ps[..n]) + [ps[n].id];
      assert ps == ps[..n] + [ps[n]];
    }
  }

  /** A fetched package replaces its record and keeps its credit; the others stay. */
  lemma {:induction false} AbsorbAt(packages: map<string, Record>, ps: seq<Package>, id: string)
    ensures var found := Find(ps, id);
      && (id in Absorb(packages, ps) <==> id in packages || found.Some?)
      && (found.Some? ==> Absorb(packages, ps)[id] == Record(found.value, CreditAt(packages, id)))
      && (found.None? && id in packages ==> Absorb(packages, ps)[id] == packages[id])
  {
    if |ps| > 0 { AbsorbAt(packages, ps[..|ps| - 1], id); }
  }

  /** After a sync a package is effective exactly when the provider says so. */
  lemma RefreshedAt(b: Book, ps: seq<Package>, id: string)
    ensures var found := Find(ps, id);
      && (id in Refreshed(b, ps) <==> id in b.packages || found.Some?)
      && (found.Some? ==> Refreshed(b, ps)[id] == Record(found.value, CreditAt(b.packages, id)))
      && (found.None? && id in b.packages ==>
            Refreshed(b, ps)[id] == Marked(b.packages[id], None) && !Refreshed(b, ps)[id].package.Effective())
  {
    AbsorbAt(MarkMissing(b.packages, ps), ps, id);
  }

  // ---------------------------------------------------------------- remaining

  function RecordedAmounts(packages: map<string, Record>): map<string, int> {
    map id | id in packages :: EffectiveAmount(packages[id].package)
  }

  function ReportedAmounts(ids: set<string>, ps: seq<Package>): map<string, int> {
    map id | id in ids :: var found := Find(ps, id); if found.Some? then EffectiveAmount(found.value) else 0
  }

  lemma ReportedSum(ids: set<string>, ps: seq<Package>)
    requires Unique(ps) && forall p | p in ps :: p.id in ids
    ensures MapSum(ReportedAmounts(ids, ps)) == Remaining(ps)
  {
    var m := ReportedAmounts(ids, ps);
    forall id | id in m ensures id in Ids(ps) || m[id] == 0 { FindMeans(ps, id); }
    MapSumOver(m, Ids(ps));
    forall i | 0 <= i < |ps| ensures At(m, Ids(ps))[i] == EffectiveAmounts(ps)[i] { FindListed(ps, i); }
    assert At(m, Ids(ps)) == EffectiveAmounts(ps);
  }

  /** `remaining` is what the effective records hold. */
  lemma SettledRemaining(b: Book, ps: seq<Package>, names: seq<string>, a: Assignments)
    requires Unique(ps)
    ensures MapSum(RecordedAmounts(CreditPackages(Refreshed(b, ps), names, a))) == Remaining(ps)
  {
    var packages := CreditPackages(Refreshed(b, ps), names, a);
    forall id | id in packages
      ensures RecordedAmounts(packages)[id] == ReportedAmounts(packages.Keys, ps)[id]
    {
      RefreshedAt(b, ps, id);
    }
    assert RecordedAmounts(packages) == ReportedAmounts(packages.Keys, ps);
    forall p | p in ps ensures p.id in packages {
      var i :| 0 <= i < |ps| && ps[i] == p;
      FindListed(ps, i);
      RefreshedAt(b, ps, p.id);
    }
    ReportedSum(packages.Keys, ps);
  }

  lemma {:induction false} CountedAt(packages: map<string, Record>, ps: seq<Package>, id: string)
    ensures var found := Find(ps, id);
      && (id in CountedPackages(packages, ps) <==> id in packages || found.Some?)
      && (found.Some? ==> CountedPackages(packages, ps)[id] == Record(found.value, Some(ByMigration)))
      && (found.None? && id in packages ==> CountedPackages(packages, ps)[id] == packages[id])
  {
    if |ps| > 0 { CountedAt(packages, ps[..|ps| - 1], id); }
  }

  lemma MigratedRemaining(ps: seq<Package>)
    requires Unique(ps)
    ensures MapSum(RecordedAmounts(CountedPackages(map[], ps))) == Remaining(ps)
  {
    var packages := CountedPackages(map[], ps);
    forall id | id in packages
      ensures RecordedAmounts(packages)[id] == ReportedAmounts(packages.Keys, ps)[id]
    {
      CountedAt(map[], ps, id);
    }
    assert RecordedAmounts(packages) == ReportedAmounts(packages.Keys, ps);
    forall p | p in ps ensures p.id in packages {
      var i :| 0 <= i < |ps| && ps[i] == p;
      FindListed(ps, i);
      CountedAt(map[], ps, p.id);
    }
    ReportedSum(packages.Keys, ps);
  }

  // ---------------------------------------------------------------- consumption, package by package

  /** The traffic one package lost to use between two syncs. */
  function Drop(was: Option<Package>, found: Option<Package>): int {
    var wasEffective := was.Some? && was.value.Effective();
    if wasEffective && found.Some? && found.value.Effective() then was.value.available - found.value.available
    else if wasEffective && found.Some? && found.value.UsedUp() then was.value.available
    else if wasEffective then 0
    else if found.Some? && found.value.Effective() then found.value.total - found.value.available
    else 0
  }

  function PackageAt(packages: map<string, Record>, id: string): Option<Package> {
    if id in packages then Some(packages[id].package) else None
  }

  function Involved(b: Book, ps: seq<Package>): set<string> {
    b.packages.Keys + set id | id in Ids(ps)
  }

  function Drops(b: Book, ps: seq<Package>): map<string, int> {
    map id | id in Involved(b, ps) :: Drop(PackageAt(b.packages, id), Find(ps, id))
  }

  function LeftoverAmounts(b: Book, ps: seq<Package>): map<string, int> {
    map id | id in Involved(b, ps) ::
      if id in b.packages then Leftover(b.packages[id].package, Find(ps, id)) else 0
  }

  function NewAmount(packages: map<string, Record>, p: Package): nat {
    if p.Effective() && !EffectiveAt(packages, p.id) then p.total else 0
  }

  function NewAmounts(b: Book, ps: seq<Package>): map<string, int> {
    map id | id in Involved(b, ps) ::
      var found := Find(ps, id); if found.Some? then NewAmount(b.packages, found.value) else 0
  }

  function HeldAmounts(b: Book, ps: seq<Package>): map<string, int> {
    map id | id in Involved(b, ps) ::
      if id in b.packages then EffectiveAmount(b.packages[id].package) else 0
  }

  lemma LeftoverSum(b: Book, ps: seq<Package>)
    ensures MapSum(LeftoverAmounts(b, ps)) == Gone(b.packages, ps)
  {
    var keys := Ordered(b.packages.Keys);
    MapSumOver(LeftoverAmounts(b, ps), keys);
    assert At(LeftoverAmounts(b, ps), keys) == Leftovers(keys, b.packages, ps);
  }

  lemma HeldSum(b: Book, ps: seq<Package>)
    ensures MapSum(HeldAmounts(b, ps)) == MapSum(RecordedAmounts(b.packages))
  {
    var keys := Ordered(b.packages.Keys);
    MapSumOver(HeldAmounts(b, ps), keys);
    MapSumOver(RecordedAmounts(b.packages), keys);
    assert At(HeldAmounts(b, ps), keys) == At(RecordedAmounts(b.packages), keys);
  }

  function NewOf(packages: map<string, Record>, ps: seq<Package>): (r: seq<nat>)
    ensures |r| == |ps|
  {
    seq(|ps|, i requires 0 <= i < |ps| => NewAmount(packages, ps[i]))
  }

  lemma {:induction false} AddedIs(packages: map<string, Record>, ps: seq<Package>)
    requires Unique(ps)
    ensures Added(packages, ps) == Sum(NewOf(packages, ps))
  {
    var n := |ps| - 1;
    if n >= 0 {
      assert Ids(ps[..n]) == Ids(ps)[..n];
      AddedIs(packages, ps[..n]);
      FindMeans(ps[..n], ps[n].id);
      assert Ids(ps)[n] == ps[n].id;
      AbsorbAt(packages, ps[..n], ps[n].id);
      assert NewOf(packages, ps)[..n] == NewOf(packages, ps[..n]);
    }
  }

  lemma NewSum(b: Book, ps: seq<Package>)
    requires Unique(ps)
    ensures MapSum(NewAmounts(b, ps)) == Added(MarkMissing(b.packages, ps), ps)
  {
    var m, marked := NewAmounts(b, ps), MarkMissing(b.packages, ps);
    forall id | id in m ensures id in Ids(ps) || m[id] == 0 { FindMeans(ps, id); }
    MapSumOver(m, Ids(ps));
    AddedIs(marked, ps);
    forall i | 0 <= i < |ps| ensures At(m, Ids(ps))[i] == NewOf(marked, ps)[i] { FindListed(ps, i); }
    assert At(m, Ids(ps)) == NewOf(marked, ps);
  }

  /** The provider-wide drop is the sum of what each package lost. */
  lemma ConsumptionIsDrops(b: Book, ps: seq<Package>)
    requires Unique(ps)
    requires b.remaining == MapSum(RecordedAmounts(b.packages))
    ensures RawConsumption(b, ps) == MapSum(Drops(b, ps))
  {
    var ids := Involved(b, ps);
    forall id | id in ids
      ensures HeldAmounts(b, ps)[id] + NewAmounts(b, ps)[id]
           == LeftoverAmounts(b, ps)[id] + ReportedAmounts(ids, ps)[id] + Drops(b, ps)[id]
    {
      DropBalances(b, ps, id);
    }
    MapSumBalance(HeldAmounts(b, ps), NewAmounts(b, ps),
                  LeftoverAmounts(b, ps), ReportedAmounts(ids, ps), Drops(b, ps));
    HeldSum(b, ps);
    NewSum(b, ps);
    LeftoverSum(b, ps);
    InvolvesFetched(b, ps);
    ReportedSum(ids, ps);
  }

  lemma InvolvesFetched(b: Book, ps: seq<Package>)
    ensures forall p | p in ps :: p.id in Involved(b, ps)
  {
    forall p | p in ps ensures p.id in Involved(b, ps) {
      var i :| 0 <= i < |ps| && ps[i] == p;
      assert Ids(ps)[i] == p.id;
    }
  }

  lemma DropBalances(b: Book, ps: seq<Package>, id: string)
    requires id in Involved(b, ps)
    ensures HeldAmounts(b, ps)[id] + NewAmounts(b, ps)[id]
         == LeftoverAmounts(b, ps)[id] + ReportedAmounts(Involved(b, ps), ps)[id] + Drops(b, ps)[id]
  {
    FindMeans(ps, id);
  }
}
