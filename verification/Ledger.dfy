/**
 The ledger of per-user balances, as functions of the book and of what the
 provider reports. `LedgerBook` holds the loops that update a book in place;
 each of them is proved against the function of the same name here.
 */
module Ledger {
  import opened Options
  import opened Sums
  import opened Keys
  import A = Apportion

  datatype Package = Package(id: string, name: string, region: string, total: nat, available: nat,
                             status: string, expiry: string)
  {
    predicate Effective() { status == "Effective" }
    predicate UsedUp() { status == "UsedUp" }
  }

  datatype Credit = ByMigration | BySplit | ToUser(name: string)

  datatype Record = Record(package: Package, credit: Option<Credit>)

  datatype EntryKind = Migration | Credited | Expiry | Transferred | Allocated

  datatype Entry = Entry(time: int, kind: EntryKind, user: string, amount: int,
                         package: Option<string>, note: string)

  datatype Member = Member(name: string, used: nat, offlineRemaining: Option<nat>)

  datatype Assignments = Assignments(split: set<string>, owners: map<string, string>, exclusive: bool)

  datatype Book = Book(migrated: bool, remaining: nat, syncedAt: int, consumed: nat, metered: nat,
                       balances: map<string, int>, baselines: map<string, nat>,
                       packages: map<string, Record>)

  const EMPTY := Book(false, 0, 0, 0, 0, map[], map[], map[])

  /** What an operation leaves behind and the ledger lines it writes. */
  datatype Outcome = Outcome(book: Book, entries: seq<Entry>)

  datatype Result = Ok(outcome: Outcome) | Err(book: Book)

  // ---------------------------------------------------------------- reads

  function Limit(b: Book, name: string): Option<nat> {
    if name !in b.baselines then None
    else
      var balance := Get(b.balances, name);
      Some(b.baselines[name] + if balance > 0 then balance else 0)
  }

  ghost function Unallocated(b: Book): int {
    b.remaining - MapSum(b.balances)
  }

  // ---------------------------------------------------------------- postings

  /** A signed change to one user's balance. */
  datatype Posting = Posting(user: string, amount: int)

  function Post(balances: map<string, int>, ps: seq<Posting>): (r: map<string, int>) {
    if |ps| == 0 then balances
    else
      var before, p := Post(balances, ps[..|ps| - 1]), ps[|ps| - 1];
      before[p.user := Get(before, p.user) + p.amount]
  }

  function Postings(es: seq<Entry>): (r: seq<Posting>)
    ensures |r| == |es|
  {
    seq(|es|, i requires 0 <= i < |es| => Posting(es[i].user, es[i].amount))
  }

  function Shares(kind: EntryKind, names: seq<string>, shares: seq<nat>, package: Option<string>, now: int)
    : (es: seq<Entry>)
    requires |names| == |shares|
    ensures |es| == |names|
  {
    seq(|names|, i requires 0 <= i < |names| => Entry(now, kind, names[i], shares[i], package, ""))
  }

  function Names(members: seq<Member>): (names: seq<string>)
    ensures |names| == |members|
  {
    seq(|members|, i requires 0 <= i < |members| => members[i].name)
  }

  // ---------------------------------------------------------------- joining and migrating

  function Join(b: Book, members: seq<Member>): Book {
    if |members| == 0 then b
    else
      var before, m := Join(b, members[..|members| - 1]), members[|members| - 1];
      before.(baselines := if m.name in before.baselines then before.baselines
                           else before.baselines[m.name := m.used],
              balances := if m.name in before.balances then before.balances
                          else before.balances[m.name := 0])
  }

  function SetBalances(balances: map<string, int>, names: seq<string>, shares: seq<nat>): map<string, int>
    requires |names| == |shares|
  {
    if |names| == 0 then balances
    else
      var n := |names| - 1;
      SetBalances(balances, names[..n], shares[..n])[names[n] := shares[n]]
  }

  function SetBaselines(baselines: map<string, nat>, members: seq<Member>): map<string, nat> {
    if |members| == 0 then baselines
    else
      var m := members[|members| - 1];
      SetBaselines(baselines, members[..|members| - 1])[m.name := m.used]
  }

  function OfflineWeights(members: seq<Member>): (weights: seq<nat>)
    ensures |weights| == |members|
  {
    seq(|members|, i requires 0 <= i < |members| =>
      if members[i].offlineRemaining.Some? then members[i].offlineRemaining.value else 0)
  }

  function OpeningShares(remaining: nat, members: seq<Member>): (shares: seq<nat>)
    ensures |shares| == |members|
  {
    var weights := OfflineWeights(members);
    if exists i | 0 <= i < |weights| :: weights[i] > 0 then A.SplitBy(remaining, weights)
    else A.SplitEvenly(remaining, |members|)
  }

  function CountedPackages(packages: map<string, Record>, ps: seq<Package>): map<string, Record> {
    if |ps| == 0 then packages
    else
      var p := ps[|ps| - 1];
      CountedPackages(packages, ps[..|ps| - 1])[p.id := Record(p, Some(ByMigration))]
  }

  function Migrate(b: Book, ps: seq<Package>, members: seq<Member>, now: int): Outcome {
    var shares := OpeningShares(b.remaining, members);
    Outcome(b.(migrated := true,
               balances := SetBalances(b.balances, Names(members), shares),
               baselines := SetBaselines(b.baselines, members),
               packages := CountedPackages(b.packages, ps)),
            Shares(Migration, Names(members), shares, None, now))
  }

  // ---------------------------------------------------------------- what the provider reports

  function EffectiveAmount(p: Package): nat {
    if p.Effective() then p.available else 0
  }

  function EffectiveAmounts(ps: seq<Package>): (r: seq<nat>)
    ensures |r| == |ps|
  {
    seq(|ps|, i requires 0 <= i < |ps| => EffectiveAmount(ps[i]))
  }

  function Remaining(ps: seq<Package>): (r: nat) {
    Sum(EffectiveAmounts(ps))
  }

  /** The last fetched package with this id. */
  function Find(ps: seq<Package>, id: string): Option<Package> {
    if |ps| == 0 then None
    else if ps[|ps| - 1].id == id then Some(ps[|ps| - 1])
    else Find(ps[..|ps| - 1], id)
  }

  /** What an effective package still held when it stopped being effective unspent. */
  function Leftover(was: Package, current: Option<Package>): nat {
    if !was.Effective() then 0
    else if current.Some? && (current.value.Effective() || current.value.UsedUp()) then 0
    else was.available
  }

  function Leftovers(keys: seq<string>, packages: map<string, Record>, ps: seq<Package>): (r: seq<nat>)
    requires forall k | k in keys :: k in packages
    ensures |r| == |keys|
  {
    seq(|keys|, i requires 0 <= i < |keys| => Leftover(packages[keys[i]].package, Find(ps, keys[i])))
  }

  function Gone(packages: map<string, Record>, ps: seq<Package>): (r: nat) {
    Sum(Leftovers(Ordered(packages.Keys), packages, ps))
  }

  datatype Forfeit = Forfeit(id: string, leftover: nat)

  function Forfeits(keys: seq<string>, packages: map<string, Record>, ps: seq<Package>): seq<Forfeit>
    requires forall k | k in keys :: k in packages
  {
    if |keys| == 0 then []
    else
      var id := keys[|keys| - 1];
      var leftover := Leftover(packages[id].package, Find(ps, id));
      Forfeits(keys[..|keys| - 1], packages, ps)
      + if packages[id].credit.Some? && leftover > 0 then [Forfeit(id, leftover)] else []
  }

  function Marked(r: Record, current: Option<Package>): Record {
    if r.package.Effective() && current.None? then r.(package := r.package.(status := "Missing")) else r
  }

  function MarkMissing(packages: map<string, Record>, ps: seq<Package>): map<string, Record> {
    map id | id in packages :: Marked(packages[id], Find(ps, id))
  }

  predicate EffectiveAt(packages: map<string, Record>, id: string) {
    id in packages && packages[id].package.Effective()
  }

  function CreditAt(packages: map<string, Record>, id: string): Option<Credit> {
    if id in packages then packages[id].credit else None
  }

  function Absorb(packages: map<string, Record>, ps: seq<Package>): map<string, Record> {
    if |ps| == 0 then packages
    else
      var before, p := Absorb(packages, ps[..|ps| - 1]), ps[|ps| - 1];
      before[p.id := Record(p, CreditAt(before, p.id))]
  }

  function Added(packages: map<string, Record>, ps: seq<Package>): nat {
    if |ps| == 0 then 0
    else
      var before, p := Absorb(packages, ps[..|ps| - 1]), ps[|ps| - 1];
      Added(packages, ps[..|ps| - 1])
      + if p.Effective() && !EffectiveAt(before, p.id) then p.total else 0
  }

  // ---------------------------------------------------------------- crediting

  function CreditFor(id: string, r: Record, names: seq<string>, a: Assignments): Option<Credit> {
    if r.credit.Some? || !r.package.Effective() then None
    else if id in a.owners && a.owners[id] in names then Some(ToUser(a.owners[id]))
    else if (a.exclusive || id in a.split) && |names| > 0 then Some(BySplit)
    else None
  }

  function CreditEntries(id: string, r: Record, names: seq<string>, a: Assignments, now: int): seq<Entry> {
    match CreditFor(id, r, names, a)
    case Some(ToUser(owner)) => [Entry(now, Credited, owner, r.package.total, Some(id), "")]
    case Some(BySplit) =>
      Shares(Credited, names, A.SplitEvenly(r.package.total, |names|), Some(id), now)
    case _ => []
  }

  function AllCredits(keys: seq<string>, packages: map<string, Record>, names: seq<string>, a: Assignments,
                      now: int): seq<Entry>
    requires forall k | k in keys :: k in packages
  {
    if |keys| == 0 then []
    else
      var id := keys[|keys| - 1];
      AllCredits(keys[..|keys| - 1], packages, names, a, now)
      + CreditEntries(id, packages[id], names, a, now)
  }

  function CreditRecord(id: string, r: Record, names: seq<string>, a: Assignments): Record {
    var credit := CreditFor(id, r, names, a);
    if credit.Some? then r.(credit := credit) else r
  }

  function CreditPackages(packages: map<string, Record>, names: seq<string>, a: Assignments)
    : map<string, Record>
  {
    map id | id in packages :: CreditRecord(id, packages[id], names, a)
  }

  // ---------------------------------------------------------------- charging

  function Spent(m: Member, baselines: map<string, nat>): nat {
    if m.name in baselines && m.used > baselines[m.name] then m.used - baselines[m.name] else 0
  }

  function Usage(members: seq<Member>, baselines: map<string, nat>): (usage: seq<nat>)
    ensures |usage| == |members|
  {
    seq(|members|, i requires 0 <= i < |members| => Spent(members[i], baselines))
  }

  function Charges(consumed: nat, members: seq<Member>, baselines: map<string, nat>): seq<Posting> {
    var usage := Usage(members, baselines);
    if consumed == 0 || Sum(usage) == 0 then []
    else
      var shares := A.SplitBy(consumed, usage);
      seq(|members|, i requires 0 <= i < |members| => Posting(members[i].name, Minus(shares[i])))
  }

  // ---------------------------------------------------------------- forfeiting

  function Holders(keys: seq<string>, balances: map<string, int>): (names: seq<string>)
    requires forall k | k in keys :: k in balances
    ensures forall k | k in names :: k in keys && balances[k] > 0
  {
    if |keys| == 0 then []
    else
      var k := keys[|keys| - 1];
      Holders(keys[..|keys| - 1], balances) + if balances[k] > 0 then [k] else []
  }

  function Holdings(names: seq<string>, balances: map<string, int>): (weights: seq<nat>)
    requires forall k | k in names :: k in balances && balances[k] > 0
    ensures |weights| == |names|
  {
    seq(|names|, i requires 0 <= i < |names| => balances[names[i]])
  }

  function Expiries(names: seq<string>, shares: seq<nat>, id: string, now: int): seq<Entry>
    requires |names| == |shares|
  {
    if |names| == 0 then []
    else
      var n := |names| - 1;
      Expiries(names[..n], shares[..n], id, now)
      + if shares[n] == 0 then [] else [Entry(now, Expiry, names[n], Minus(shares[n]), Some(id), "")]
  }

  function ForfeitEntries(balances: map<string, int>, f: Forfeit, now: int): seq<Entry> {
    var names := Holders(Ordered(balances.Keys), balances);
    Expiries(names, A.SplitBy(f.leftover, Holdings(names, balances)), f.id, now)
  }

  /** The expiry lines of the forfeits in turn, each taken by the balances the previous one left. */
  function ForfeitAll(balances: map<string, int>, fs: seq<Forfeit>, now: int): seq<Entry> {
    if |fs| == 0 then []
    else
      var before := ForfeitAll(balances, fs[..|fs| - 1], now);
      before + ForfeitEntries(Post(balances, Postings(before)), fs[|fs| - 1], now)
  }

  // ---------------------------------------------------------------- reconciling

  /** The drop the provider reports once bought and expired packages are accounted for. */
  function RawConsumption(b: Book, ps: seq<Package>): int {
    b.remaining + Added(MarkMissing(b.packages, ps), ps) - Gone(b.packages, ps) - Remaining(ps)
  }

  function ConsumedOf(b: Book, ps: seq<Package>): nat {
    var raw := RawConsumption(b, ps);
    if raw > 0 then raw else 0
  }

  function Refreshed(b: Book, ps: seq<Package>): map<string, Record> {
    Absorb(MarkMissing(b.packages, ps), ps)
  }

  function CreditsOf(b: Book, ps: seq<Package>, members: seq<Member>, a: Assignments, now: int): seq<Entry> {
    AllCredits(Ordered(Refreshed(b, ps).Keys), Refreshed(b, ps), Names(members), a, now)
  }

  function ChargesOf(b: Book, ps: seq<Package>, members: seq<Member>): seq<Posting> {
    Charges(ConsumedOf(b, ps), members, Join(b, members).baselines)
  }

  function AfterCharges(b: Book, ps: seq<Package>, members: seq<Member>, a: Assignments, now: int)
    : map<string, int>
  {
    Post(Post(Join(b, members).balances, Postings(CreditsOf(b, ps, members, a, now))),
         ChargesOf(b, ps, members))
  }

  function ForfeitsOf(b: Book, ps: seq<Package>, members: seq<Member>, a: Assignments, now: int): seq<Entry> {
    ForfeitAll(AfterCharges(b, ps, members, a, now),
               Forfeits(Ordered(b.packages.Keys), b.packages, ps), now)
  }

  /** The book of a sync before the single-user sweep. */
  function Settle(b: Book, ps: seq<Package>, members: seq<Member>, a: Assignments, now: int): Outcome {
    var expiries := ForfeitsOf(b, ps, members, a, now);
    Outcome(Book(b.migrated, Remaining(ps), now, ConsumedOf(b, ps),
                 Sum(Usage(members, Join(b, members).baselines)),
                 Post(AfterCharges(b, ps, members, a, now), Postings(expiries)),
                 SetBaselines(Join(b, members).baselines, members),
                 CreditPackages(Refreshed(b, ps), Names(members), a)),
            CreditsOf(b, ps, members, a, now) + expiries)
  }

  predicate Sweeps(members: seq<Member>, a: Assignments) {
    a.exclusive && |members| == 1
  }

  ghost function Sweep(o: Outcome, name: string, now: int): Outcome {
    var sweep := Unallocated(o.book);
    Outcome(o.book.(balances := o.book.balances[name := Get(o.book.balances, name) + sweep]),
            o.entries + if sweep > 0 then [Entry(now, Allocated, name, sweep, None, "")] else [])
  }

  ghost function Reconcile(b: Book, ps: seq<Package>, members: seq<Member>, a: Assignments, now: int): Outcome {
    if !b.migrated then
      Migrate(b.(remaining := Remaining(ps), syncedAt := now, consumed := 0, metered := 0), ps, members, now)
    else
      var settled := Settle(b, ps, members, a, now);
      if Sweeps(members, a) then Sweep(settled, members[0].name, now) else settled
  }

  // ---------------------------------------------------------------- allocating and transferring

  ghost function Allocate(b: Book, members: seq<Member>, to: Option<string>, amount: Option<nat>, now: int): Result {
    var available := Unallocated(b);
    var wanted := if amount.Some? then amount.value else available;
    var names := if to.Some? then [to.value] else Names(members);
    if !b.migrated || available <= 0 || wanted == 0 || wanted > available
       || (to.Some? && to.value !in Names(members)) || |names| == 0
    then Err(b)
    else
      var es := Shares(Allocated, names, A.SplitEvenly(wanted, |names|), None, now);
      var joined := Join(b, members);
      Ok(Outcome(joined.(balances := Post(joined.balances, Postings(es))), es))
  }

  function FindMember(members: seq<Member>, name: string): Option<Member> {
    if |members| == 0 then None
    else if members[0].name == name then Some(members[0])
    else FindMember(members[1..], name)
  }

  function TransferEntries(from: string, to: string, amount: nat, now: int): seq<Entry> {
    [Entry(now, Transferred, from, Minus(amount), None, to), Entry(now, Transferred, to, amount, None, from)]
  }

  /** A refused transfer that reached the balance check has already joined the members. */
  function Transfer(b: Book, members: seq<Member>, from: string, to: string, amount: nat, now: int): Result {
    if !b.migrated || amount == 0 || from == to
       || FindMember(members, from).None? || FindMember(members, to).None?
    then Err(b)
    else
      var joined := Join(b, members);
      if amount > Get(joined.balances, from) - Spent(FindMember(members, from).value, joined.baselines)
      then Err(joined)
      else
        var es := TransferEntries(from, to, amount, now);
        Ok(Outcome(joined.(balances := Post(joined.balances, Postings(es))), es))
  }
}
