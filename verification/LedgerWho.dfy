/** Who gets and who pays: what every operation does to each single balance. */
module LedgerWho {
  import opened Options
  import opened Sums
  import opened Keys
  import opened Ledger
  import opened LedgerLaws
  import opened LedgerPackages
  import opened LedgerGuarantees
  import opened LedgerRuns
  import A = Apportion
  import Config

  /** `share` is the part of `amount` that `weight` out of `total` is worth, rounded down or up. */
  predicate Worth(share: int, amount: nat, weight: nat, total: nat)
    requires total > 0
  {
    share == amount * weight / total || (amount * weight % total > 0 && share == amount * weight / total + 1)
  }

  // ---------------------------------------------------------------- who pays for the consumption

  /** What a member used since its last settlement; a newcomer starts from its present use. */
  function UsedSince(b: Book, m: Member): nat {
    if m.name in b.baselines && m.used > b.baselines[m.name] then m.used - b.baselines[m.name] else 0
  }

  function UsedBy(b: Book, members: seq<Member>): (r: seq<nat>)
    ensures |r| == |members|
  {
    seq(|members|, i requires 0 <= i < |members| => UsedSince(b, members[i]))
  }

  /** The balances of a sync once purchases are credited. */
  function Credited(b: Book, ps: seq<Package>, members: seq<Member>, a: Assignments, now: int): map<string, int> {
    Post(Join(b, members).balances, Postings(CreditsOf(b, ps, members, a, now)))
  }

  /** What a user pays for the consumption of a sync. */
  function Paid(b: Book, ps: seq<Package>, members: seq<Member>, a: Assignments, now: int, user: string): int {
    Get(Credited(b, ps, members, a, now), user) - Get(AfterCharges(b, ps, members, a, now), user)
  }

  /** A newcomer's baseline is its present use, everybody else keeps the old one. */
  lemma {:induction false} JoinedBaseline(b: Book, members: seq<Member>, m: Member)
    requires Distinct(Names(members)) && m in members && m.name !in b.baselines
    ensures m.name in Join(b, members).baselines && Join(b, members).baselines[m.name] == m.used
  {
    var n := |members| - 1;
    var k :| 0 <= k < |members| && members[k] == m;
    assert Names(members)[k] == m.name && Names(members)[n] == members[n].name;
    if k < n {
      assert m in members[..n] && Names(members[..n]) == Names(members)[..n];
      JoinedBaseline(b, members[..n], m);
    } else {
      forall i | 0 <= i < n ensures members[..n][i].name != m.name { assert Names(members)[i] != Names(members)[n]; }
      JoinSkips(b, members[..n], m.name);
    }
  }

  lemma {:induction false} JoinSkips(b: Book, members: seq<Member>, name: string)
    requires name !in b.baselines && forall i | 0 <= i < |members| :: members[i].name != name
    ensures name !in Join(b, members).baselines
  {
    if |members| > 0 { JoinSkips(b, members[..|members| - 1], name); }
  }

  lemma UsageIsUsedBy(b: Book, members: seq<Member>)
    requires Distinct(Names(members))
    ensures Usage(members, Join(b, members).baselines) == UsedBy(b, members)
  {
    forall i | 0 <= i < |members| ensures Spent(members[i], Join(b, members).baselines) == UsedSince(b, members[i]) {
      JoinKeeps(b, members, members[i].name);
      if members[i].name !in b.baselines { JoinedBaseline(b, members, members[i]); }
    }
  }

  /** One posting to each of the members posts to each its own. */
  lemma {:induction false} OneEach(ps: seq<Posting>, names: seq<string>, user: string)
    requires |ps| == |names| && Distinct(names) && forall i | 0 <= i < |ps| :: ps[i].user == names[i]
    ensures user !in names ==> To(ps, user) == 0
    ensures forall i | 0 <= i < |names| && names[i] == user :: To(ps, user) == ps[i].amount
  {
    var n := |ps| - 1;
    if n >= 0 {
      OneEach(ps[..n], names[..n], user);
      assert names == names[..n] + [names[n]];
      assert forall i | 0 <= i < n :: names[..n][i] == names[i];
    }
  }

  lemma ChargeTo(b: Book, ps: seq<Package>, members: seq<Member>, i: nat)
    requires Distinct(Names(members)) && i < |members|
    ensures To(ChargesOf(b, ps, members), members[i].name)
         == if ConsumedOf(b, ps) > 0 && Sum(UsedBy(b, members)) > 0
            then Minus(A.SplitBy(ConsumedOf(b, ps), UsedBy(b, members))[i]) else 0
  {
    var charges := ChargesOf(b, ps, members);
    UsageIsUsedBy(b, members);
    if charges != [] {
      OneEach(charges, Names(members), members[i].name);
      assert Names(members)[i] == members[i].name;
    }
  }

  /**
   The consumption of a sync is paid by those who used it: each member pays the part that its use is of the
   whole use, rounded down or up, and nothing if it used nothing or there is nothing to pay.
   */
  lemma UsersPay(b: Book, ps: seq<Package>, members: seq<Member>, a: Assignments, now: int, i: nat)
    requires Distinct(Names(members)) && i < |members|
    ensures var paid, used, total := Paid(b, ps, members, a, now, members[i].name), UsedBy(b, members)[i],
                                     Sum(UsedBy(b, members));
      if total > 0 then Worth(paid, ConsumedOf(b, ps), used, total) && (used == 0 ==> paid == 0) else paid == 0
  {
    var usage := UsedBy(b, members);
    PostTo(Credited(b, ps, members, a, now), ChargesOf(b, ps, members), members[i].name);
    ChargeTo(b, ps, members, i);
    if Sum(usage) > 0 {
      A.SplitRounds(ConsumedOf(b, ps), usage, i);
      if usage[i] == 0 { A.ZeroWeight(ConsumedOf(b, ps), usage, i); }
    }
  }

  /** Who used more pays no less; of two who used the same, the earlier pays at most 1 more. */
  lemma PayingFollowsUse(b: Book, ps: seq<Package>, members: seq<Member>, a: Assignments, now: int, i: nat, j: nat)
    requires Distinct(Names(members)) && i < |members| && j < |members|
    requires var used := UsedBy(b, members); used[i] > used[j] || (used[i] == used[j] && i < j)
    ensures var x, y := Paid(b, ps, members, a, now, members[i].name), Paid(b, ps, members, a, now, members[j].name);
      y <= x && (UsedBy(b, members)[i] == UsedBy(b, members)[j] ==> x <= y + 1)
  {
    PostTo(Credited(b, ps, members, a, now), ChargesOf(b, ps, members), members[i].name);
    PostTo(Credited(b, ps, members, a, now), ChargesOf(b, ps, members), members[j].name);
    ChargeTo(b, ps, members, i);
    ChargeTo(b, ps, members, j);
    if Sum(UsedBy(b, members)) > 0 { A.SplitFollowsWeights(ConsumedOf(b, ps), UsedBy(b, members), i, j); }
  }

  /** Nobody else pays. */
  lemma OthersPayNothing(b: Book, ps: seq<Package>, members: seq<Member>, a: Assignments, now: int, user: string)
    requires Distinct(Names(members)) && user !in Names(members)
    ensures Paid(b, ps, members, a, now, user) == 0
  {
    PostTo(Credited(b, ps, members, a, now), ChargesOf(b, ps, members), user);
    if ChargesOf(b, ps, members) != [] { OneEach(ChargesOf(b, ps, members), Names(members), user); }
  }

  /** After a sync a balance has moved by the user's lines, less what it paid, and by an unlogged sweep. */
  lemma SyncBalance(b: Book, ps: seq<Package>, members: seq<Member>, a: Assignments, now: int, user: string)
    requires b.migrated
    ensures var o := Reconcile(b, ps, members, a, now);
      && Get(o.book.balances, user)
         == Get(b.balances, user) + To(Postings(o.entries), user) - Paid(b, ps, members, a, now, user)
            + To(UnloggedBy(b, Sync(ps, members, a, now)), user)
      && (!Sweeps(members, a) ==> UnloggedBy(b, Sync(ps, members, a, now)) == [])
  {
    SyncTo(b, Sync(ps, members, a, now), user);
    PostTo(Credited(b, ps, members, a, now), ChargesOf(b, ps, members), user);
  }

  /** The figure a sync reports as metered is the whole use. */
  lemma MeteredIsUse(b: Book, ps: seq<Package>, members: seq<Member>, a: Assignments, now: int)
    requires b.migrated && Distinct(Names(members))
    ensures Reconcile(b, ps, members, a, now).book.metered == Sum(UsedBy(b, members))
  {
    UsageIsUsedBy(b, members);
  }

  // ---------------------------------------------------------------- who is credited with a package

  /** The package is effective now and nobody has been credited with it. */
  predicate ToCredit(b: Book, ps: seq<Package>, id: string) {
    Find(ps, id).Some? && Find(ps, id).value.Effective() && CreditAt(b.packages, id).None?
  }

  /** The user a package is listed for, when it is a member. */
  predicate Owned(members: seq<Member>, a: Assignments, id: string) {
    id in a.owners && a.owners[id] in Names(members)
  }

  predicate Shared(members: seq<Member>, a: Assignments, id: string) {
    !Owned(members, a, id) && (a.exclusive || id in a.split) && |members| > 0
  }

  /** One line for each member, in order, of amounts that differ by at most 1 and make up the total. */
  ghost predicate SharedOut(lines: seq<Entry>, members: seq<Member>, total: nat, id: string, now: int) {
    && |lines| == |members|
    && (forall i | 0 <= i < |lines| ::
          lines[i] == Entry(now, EntryKind.Credited, members[i].name, lines[i].amount, Some(id), ""))
    && (forall i, j | 0 <= i < j < |lines| :: lines[j].amount <= lines[i].amount <= lines[j].amount + 1)
    && Sum(Amounts(Postings(lines))) == total
  }

  lemma EvenShares(total: nat, count: nat)
    requires count > 0
    ensures var shares := A.SplitEvenly(total, count);
      forall i, j | 0 <= i < j < count :: shares[j] <= shares[i] <= shares[j] + 1
  {
    forall i, j | 0 <= i < j < count
      ensures A.SplitEvenly(total, count)[j] <= A.SplitEvenly(total, count)[i] <= A.SplitEvenly(total, count)[j] + 1
    {
      A.SplitFollowsWeights(total, A.Ones(count), i, j);
    }
  }

  /** The lines and the record of a package that is to be credited. */
  ghost predicate Decided(lines: seq<Entry>, credit: Option<Credit>, members: seq<Member>, a: Assignments, total: nat,
                          id: string, now: int)
  {
    if Owned(members, a, id) then
      lines == [Entry(now, EntryKind.Credited, a.owners[id], total, Some(id), "")]
      && credit == Some(ToUser(a.owners[id]))
    else if Shared(members, a, id) then SharedOut(lines, members, total, id, now) && credit == Some(BySplit)
    else lines == [] && credit == None
  }

  lemma EntriesOf(id: string, r: Record, members: seq<Member>, a: Assignments, now: int)
    requires r.credit.None? && r.package.Effective()
    ensures Decided(CreditEntries(id, r, Names(members), a, now), CreditRecord(id, r, Names(members), a).credit,
                    members, a, r.package.total, id, now)
  {
    CreditInFull(id, r, Names(members), a, now);
    if Shared(members, a, id) { EvenShares(r.package.total, |members|); }
  }

  lemma NoEntries(id: string, r: Record, names: seq<string>, a: Assignments, now: int)
    requires r.credit.Some? || !r.package.Effective()
    ensures CreditEntries(id, r, names, a, now) == [] && CreditRecord(id, r, names, a) == r
  {
  }

  lemma CreditedAt(b: Book, ps: seq<Package>, members: seq<Member>, a: Assignments, now: int, id: string)
    requires b.migrated
    ensures var o := Reconcile(b, ps, members, a, now);
      && Lines(o.entries, id)
         == (if id in Refreshed(b, ps) then CreditEntries(id, Refreshed(b, ps)[id], Names(members), a, now) else [])
      && CreditAt(o.book.packages, id)
         == (if id in Refreshed(b, ps) then CreditRecord(id, Refreshed(b, ps)[id], Names(members), a).credit else None)
  {
    SyncLines(b, Sync(ps, members, a, now), id);
    SettleLines(b, ps, members, a, now, id);
  }

  lemma SeenFor(b: Book, ps: seq<Package>, id: string)
    ensures ToCredit(b, ps, id) ==> id in Refreshed(b, ps) && Refreshed(b, ps)[id] == Record(Find(ps, id).value, None)
    ensures !ToCredit(b, ps, id) && id in Refreshed(b, ps) ==>
              Refreshed(b, ps)[id].credit.Some? || !Refreshed(b, ps)[id].package.Effective()
    ensures CreditAt(Refreshed(b, ps), id) == CreditAt(b.packages, id)
  {
    RefreshedAt(b, ps, id);
  }

  /**
   A package that becomes effective and was never credited goes in one line to the member it is listed
   for, or in equal parts to all members if it is shared or there is a single user, or to nobody; the record
   says which. No other package is credited.
   */
  lemma OwnersAreCredited(b: Book, ps: seq<Package>, members: seq<Member>, a: Assignments, now: int, id: string)
    requires b.migrated
    ensures var o := Reconcile(b, ps, members, a, now);
      var lines, credit := Lines(o.entries, id), CreditAt(o.book.packages, id);
      if ToCredit(b, ps, id) then Decided(lines, credit, members, a, Find(ps, id).value.total, id, now)
      else lines == [] && credit == CreditAt(b.packages, id)
  {
    CreditedAt(b, ps, members, a, now, id);
    SeenFor(b, ps, id);
    if ToCredit(b, ps, id) {
      EntriesOf(id, Refreshed(b, ps)[id], members, a, now);
    } else if id in Refreshed(b, ps) {
      NoEntries(id, Refreshed(b, ps)[id], Names(members), a, now);
    }
  }

  /** So the user whose configuration lists a package is the one credited with it. */
  lemma ConfiguredUserIsCredited(c: Config.Config, u: Config.User, b: Book, ps: seq<Package>, members: seq<Member>,
                                 now: int, id: string)
    requires b.migrated && Config.Accepted(c) && u in c.users && id in u.packages
    requires u.name in Names(members) && ToCredit(b, ps, id)
    ensures var o := Reconcile(b, ps, members, Config.AssignmentsOf(c), now);
      && Lines(o.entries, id) == [Entry(now, EntryKind.Credited, u.name, Find(ps, id).value.total, Some(id), "")]
      && CreditAt(o.book.packages, id) == Some(ToUser(u.name))
  {
    Config.AssignmentsFollowConfig(c, id);
    OwnersAreCredited(b, ps, members, Config.AssignmentsOf(c), now, id);
  }

  // ---------------------------------------------------------------- what is forfeited

  /** An effective package is gone, and not because it was used up. */
  predicate Gone(was: Package, current: Option<Package>) {
    was.Effective() && (current.None? || !(current.value.Effective() || current.value.UsedUp()))
  }

  /** Exactly the credited packages that are gone unspent are forfeited, each with all it still had. */
  lemma {:induction false} ForfeitsAre(keys: seq<string>, packages: map<string, Record>, ps: seq<Package>, f: Forfeit)
    requires forall k | k in keys :: k in packages
    ensures f in Forfeits(keys, packages, ps)
       <==> f.id in keys && packages[f.id].credit.Some? && Gone(packages[f.id].package, Find(ps, f.id))
            && f.leftover == packages[f.id].package.available > 0
  {
    var n := |keys| - 1;
    if n >= 0 {
      ForfeitsAre(keys[..n], packages, ps, f);
      assert keys == keys[..n] + [keys[n]];
    }
  }

  lemma {:induction false} ForfeitedOnce(keys: seq<string>, packages: map<string, Record>, ps: seq<Package>)
    requires Distinct(keys) && forall k | k in keys :: k in packages
    ensures forall i, j | 0 <= i < j < |Forfeits(keys, packages, ps)| ::
              Forfeits(keys, packages, ps)[i].id != Forfeits(keys, packages, ps)[j].id
  {
    var n := |keys| - 1;
    if n >= 0 {
      ForfeitedOnce(keys[..n], packages, ps);
      forall f | f in Forfeits(keys[..n], packages, ps) ensures f.id != keys[n] {
        ForfeitsAre(keys[..n], packages, ps, f);
      }
    }
  }

  // ---------------------------------------------------------------- who opens with what

  /**
   The migration gives each member what its offline quota had left is of the whole left, or an equal part
   when nobody had any left, rounded down or up.
   */
  lemma OpeningFollowsQuotas(b: Book, ps: seq<Package>, members: seq<Member>, a: Assignments, now: int, i: nat)
    requires !b.migrated && b.balances == map[] && Distinct(Names(members)) && i < |members|
    ensures var balance := Get(Reconcile(b, ps, members, a, now).book.balances, members[i].name);
      var left, total := OfflineWeights(members), Sum(OfflineWeights(members));
      if total > 0 then Worth(balance, Remaining(ps), left[i], total) && (left[i] == 0 ==> balance == 0)
      else Worth(balance, Remaining(ps), 1, |members|)
  {
    var left, remaining := OfflineWeights(members), Remaining(ps);
    SetBalancesAt(Names(members), OpeningShares(remaining, members), i);
    assert Names(members)[i] == members[i].name;
    if exists k | 0 <= k < |left| :: left[k] > 0 {
      var k :| 0 <= k < |left| && left[k] > 0;
      SumUpdate(left, k, 0);
      assert Sum(left[k := 0]) >= 0;
      A.SplitRounds(remaining, left, i);
      if left[i] == 0 { A.ZeroWeight(remaining, left, i); }
    } else {
      A.ZeroSum(left);
      OnesTotal(|members|);
      A.SplitRounds(remaining, A.Ones(|members|), i);
    }
  }

  // ---------------------------------------------------------------- allocations and transfers

  /** An allocation to one user is that user's, one to all is shared out evenly; nobody else gets anything. */
  lemma AllocationGoesTo(b: Book, members: seq<Member>, to: Option<string>, amount: Option<nat>, now: int, user: string)
    requires Allocate(b, members, to, amount, now).Ok? && Distinct(Names(members))
    ensures var gained := Get(Allocate(b, members, to, amount, now).outcome.book.balances, user) - Get(b.balances, user);
      var wanted := if amount.Some? then amount.value else Unallocated(b);
      if to.Some? then gained == if user == to.value then wanted else 0
      else if user in Names(members) then Worth(gained, wanted, 1, |members|) else gained == 0
  {
    var wanted := if amount.Some? then amount.value else Unallocated(b);
    var names := if to.Some? then [to.value] else Names(members);
    var es := Shares(Allocated, names, A.SplitEvenly(wanted, |names|), None, now);
    JoinKeeps(b, members, user);
    PostTo(Join(b, members).balances, Postings(es), user);
    OneEach(Postings(es), names, user);
    OnesTotal(|names|);
    if user in names {
      var i :| 0 <= i < |names| && names[i] == user;
      A.SplitRounds(wanted, A.Ones(|names|), i);
    }
  }

  /** Exactly when an allocation succeeds. */
  lemma AllocationSucceeds(b: Book, members: seq<Member>, to: Option<string>, amount: Option<nat>, now: int)
    ensures Allocate(b, members, to, amount, now).Ok?
       <==> b.migrated && Unallocated(b) > 0 && |members| > 0 && (to.Some? ==> to.value in Names(members))
            && (amount.Some? ==> 0 < amount.value <= Unallocated(b))
  {
  }

  /** Exactly when a transfer succeeds: the giver has the amount left after what it used. */
  lemma TransferSucceeds(b: Book, members: seq<Member>, from: string, to: string, amount: nat, now: int)
    requires Distinct(Names(members))
    ensures Transfer(b, members, from, to, amount, now).Ok?
       <==> b.migrated && amount > 0 && from != to && to in Names(members)
            && exists m | m in members :: m.name == from && amount <= Get(b.balances, from) - UsedSince(b, m)
  {
    MemberFound(members, from);
    MemberFound(members, to);
    JoinKeeps(b, members, from);
    forall m | m in members && m.name == from
      ensures FindMember(members, from) == Some(m) && Spent(m, Join(b, members).baselines) == UsedSince(b, m)
    {
      SameMember(members, m, from);
      if m.name !in b.baselines { JoinedBaseline(b, members, m); }
    }
    if from in Names(members) { assert FindMember(members, from).value in members; }
  }

  lemma SameMember(members: seq<Member>, m: Member, name: string)
    requires Distinct(Names(members)) && m in members && m.name == name
    ensures FindMember(members, name) == Some(m)
  {
    MemberFound(members, name);
    var i :| 0 <= i < |members| && members[i] == m;
    assert Names(members)[i] == name;
    var o := FindMember(members, name).value;
    var j :| 0 <= j < |members| && members[j] == o;
    assert Names(members)[j] == name;
  }

  // ---------------------------------------------------------------- what the lines say

  /** A line of a sync bears its time, and is a credit or an expiry of a package or the single user's sweep. */
  predicate SyncLine(e: Entry, now: int) {
    && e.time == now && e.note == ""
    && (match e.kind
        case Credited => e.package.Some? && e.amount >= 0
        case Expiry => e.package.Some? && e.amount < 0
        case Allocated => e.package.None? && e.amount > 0
        case _ => false)
  }

  lemma {:induction false} CreditLinesSay(keys: seq<string>, packages: map<string, Record>, names: seq<string>,
                                          a: Assignments, now: int)
    requires forall k | k in keys :: k in packages
    ensures forall e | e in AllCredits(keys, packages, names, a, now) :: SyncLine(e, now)
  {
    if |keys| > 0 { CreditLinesSay(keys[..|keys| - 1], packages, names, a, now); }
  }

  lemma {:induction false} ExpiryLinesSay(names: seq<string>, shares: seq<nat>, id: string, now: int)
    requires |names| == |shares|
    ensures forall e | e in Expiries(names, shares, id, now) :: SyncLine(e, now) && e.package == Some(id)
  {
    if |names| > 0 { ExpiryLinesSay(names[..|names| - 1], shares[..|names| - 1], id, now); }
  }

  lemma OneForfeitSays(balances: map<string, int>, f: Forfeit, now: int)
    ensures forall e | e in ForfeitEntries(balances, f, now) ::
              SyncLine(e, now) && e.kind == Expiry && e.package == Some(f.id)
  {
    var names := Holders(Ordered(balances.Keys), balances);
    ExpiryLinesSay(names, A.SplitBy(f.leftover, Holdings(names, balances)), f.id, now);
    ExpiriesKind(names, A.SplitBy(f.leftover, Holdings(names, balances)), f.id, now);
  }

  /** A line is an expiry of one of these packages. */
  predicate ExpiryOf(e: Entry, fs: seq<Forfeit>, now: int) {
    SyncLine(e, now) && e.kind == Expiry && exists i | 0 <= i < |fs| :: e.package == Some(fs[i].id)
  }

  lemma {:induction false} ForfeitLinesSay(balances: map<string, int>, fs: seq<Forfeit>, now: int, e: Entry)
    requires e in ForfeitAll(balances, fs, now)
    ensures ExpiryOf(e, fs, now)
  {
    var n := |fs| - 1;
    if e in ForfeitAll(balances, fs[..n], now) {
      ForfeitLinesSay(balances, fs[..n], now, e);
      var i :| 0 <= i < n && e.package == Some(fs[..n][i].id);
      assert e.package == Some(fs[i].id);
    } else {
      OneForfeitSays(Post(balances, Postings(ForfeitAll(balances, fs[..n], now))), fs[n], now);
      assert e.package == Some(fs[n].id);
    }
  }

  /** Every line of a sync is of that kind, and an expiry names a credited package that is gone. */
  lemma SyncLinesSay(b: Book, ps: seq<Package>, members: seq<Member>, a: Assignments, now: int, e: Entry)
    requires b.migrated && e in Reconcile(b, ps, members, a, now).entries
    ensures SyncLine(e, now)
    ensures e.kind == Expiry ==>
      && e.package.value in b.packages && b.packages[e.package.value].credit.Some?
      && Gone(b.packages[e.package.value].package, Find(ps, e.package.value))
  {
    var keys, fs := Ordered(b.packages.Keys), Forfeits(Ordered(b.packages.Keys), b.packages, ps);
    CreditLinesSay(Ordered(Refreshed(b, ps).Keys), Refreshed(b, ps), Names(members), a, now);
    if e in ForfeitsOf(b, ps, members, a, now) {
      ForfeitLinesSay(AfterCharges(b, ps, members, a, now), fs, now, e);
      var i :| 0 <= i < |fs| && e.package == Some(fs[i].id);
      ForfeitsAre(keys, b.packages, ps, fs[i]);
    } else if e in CreditsOf(b, ps, members, a, now) {
      CreditKinds(Ordered(Refreshed(b, ps).Keys), Refreshed(b, ps), Names(members), a, now);
    }
  }

  lemma {:induction false} CreditKinds(keys: seq<string>, packages: map<string, Record>, names: seq<string>,
                                       a: Assignments, now: int)
    requires forall k | k in keys :: k in packages
    ensures forall e | e in AllCredits(keys, packages, names, a, now) :: e.kind == EntryKind.Credited
  {
    if |keys| > 0 { CreditKinds(keys[..|keys| - 1], packages, names, a, now); }
  }
}
