/** Guarantees of single ledger operations: who can lose what, and when nothing happens. */
module LedgerGuarantees {
  import opened Options
  import opened Sums
  import opened Keys
  import opened Ledger
  import opened LedgerLaws
  import opened LedgerPackages
  import A = Apportion

  // ---------------------------------------------------------------- forfeits

  lemma {:induction false} HoldersAre(keys: seq<string>, balances: map<string, int>)
    requires Distinct(keys) && forall k | k in keys :: k in balances
    ensures Distinct(Holders(keys, balances))
    ensures forall k | k in keys && balances[k] > 0 :: k in Holders(keys, balances)
  {
    var n := |keys| - 1;
    if n >= 0 {
      HoldersAre(keys[..n], balances);
      var before := Holders(keys[..n], balances);
      assert forall k | k in before :: k in keys[..n] && k != keys[n];
      assert forall k | k in keys :: k in keys[..n] || k == keys[n];
    }
  }

  lemma ExpiryNext(names: seq<string>, shares: seq<nat>, id: string, now: int, user: string)
    requires |names| == |shares| > 0
    ensures var n := |names| - 1;
      To(Postings(Expiries(names, shares, id, now)), user)
      == To(Postings(Expiries(names[..n], shares[..n], id, now)), user) - (if names[n] == user then shares[n] else 0)
  {
    var n := |names| - 1;
    var last := if shares[n] == 0 then [] else [Entry(now, Expiry, names[n], Minus(shares[n]), Some(id), "")];
    PostingsAppend(Expiries(names[..n], shares[..n], id, now), last);
    ToAppend(Postings(Expiries(names[..n], shares[..n], id, now)), Postings(last), user);
    assert To(Postings(last), user) == if names[n] == user then Minus(shares[n]) else 0;
  }

  lemma {:induction false} ExpiryTo(names: seq<string>, shares: seq<nat>, id: string, now: int, user: string)
    requires |names| == |shares| && Distinct(names)
    ensures user !in names ==> To(Postings(Expiries(names, shares, id, now)), user) == 0
    ensures forall i | 0 <= i < |names| && names[i] == user ::
              To(Postings(Expiries(names, shares, id, now)), user) == Minus(shares[i])
  {
    var n := |names| - 1;
    if n >= 0 {
      ExpiryTo(names[..n], shares[..n], id, now, user);
      ExpiryNext(names, shares, id, now, user);
      assert forall i | 0 <= i < n :: names[..n][i] == names[i];
    }
  }

  /** The positive balances together. */
  function Held(balances: map<string, int>): nat {
    Sum(Holdings(Holders(Ordered(balances.Keys), balances), balances))
  }

  function AfterForfeit(balances: map<string, int>, f: Forfeit, now: int): map<string, int> {
    Post(balances, Postings(ForfeitEntries(balances, f, now)))
  }

  /** A holder pays its share, everybody else pays nothing. */
  lemma ForfeitTo(balances: map<string, int>, f: Forfeit, now: int, user: string)
    ensures var names := Holders(Ordered(balances.Keys), balances);
      var shares := A.SplitBy(f.leftover, Holdings(names, balances));
      && (user in names <==> Get(balances, user) > 0)
      && (user !in names ==> Get(AfterForfeit(balances, f, now), user) == Get(balances, user))
      && (forall i | 0 <= i < |names| && names[i] == user ::
            Get(AfterForfeit(balances, f, now), user) == Get(balances, user) - shares[i])
  {
    var names := Holders(Ordered(balances.Keys), balances);
    HoldersAre(Ordered(balances.Keys), balances);
    PostTo(balances, Postings(ForfeitEntries(balances, f, now)), user);
    ExpiryTo(names, A.SplitBy(f.leftover, Holdings(names, balances)), f.id, now, user);
  }

  lemma {:induction false} SumMono(a: seq<int>, b: seq<int>)
    requires |a| == |b| && forall i | 0 <= i < |a| :: a[i] <= b[i]
    ensures Sum(a) <= Sum(b)
  {
    if |a| > 0 { SumMono(a[..|a| - 1], b[..|b| - 1]); }
  }

  ghost predicate Spared(balances: map<string, int>, after: map<string, int>) {
    forall user :: Get(balances, user) >= 0 ==> Get(after, user) >= 0
  }

  lemma ForfeitWithin(balances: map<string, int>, f: Forfeit, now: int, user: string)
    requires f.leftover <= Held(balances) || Held(balances) == 0
    requires Get(balances, user) >= 0
    ensures Get(AfterForfeit(balances, f, now), user) >= 0
  {
    var names := Holders(Ordered(balances.Keys), balances);
    ForfeitTo(balances, f, now, user);
    if user in names {
      var i :| 0 <= i < |names| && names[i] == user;
      var weights := Holdings(names, balances);
      assert weights[i] == Get(balances, user);
      if Held(balances) > 0 {
        A.SplitWithinWeight(f.leftover, weights, i);
      }
      assert A.SplitBy(f.leftover, weights)[i] <= weights[i];
    }
  }

  lemma ForfeitExceeds(balances: map<string, int>, f: Forfeit, now: int) returns (user: string)
    requires f.leftover > Held(balances) > 0
    ensures Get(balances, user) >= 0 > Get(AfterForfeit(balances, f, now), user)
  {
    var names := Holders(Ordered(balances.Keys), balances);
    var weights := Holdings(names, balances);
    var shares := A.SplitBy(f.leftover, weights);
    A.SplitConserves(f.leftover, weights);
    if forall i | 0 <= i < |names| :: shares[i] <= weights[i] { SumMono(shares, weights); }
    var i :| 0 <= i < |names| && shares[i] > weights[i];
    user := names[i];
    ForfeitTo(balances, f, now, user);
  }

  /** A forfeit drives somebody negative exactly when it exceeds the positive balances it is taken from. */
  lemma ForfeitSpares(balances: map<string, int>, f: Forfeit, now: int)
    ensures Spared(balances, AfterForfeit(balances, f, now)) <==> f.leftover <= Held(balances) || Held(balances) == 0
  {
    if f.leftover <= Held(balances) || Held(balances) == 0 {
      forall user | Get(balances, user) >= 0 ensures Get(AfterForfeit(balances, f, now), user) >= 0 {
        ForfeitWithin(balances, f, now, user);
      }
    } else {
      var user := ForfeitExceeds(balances, f, now);
    }
  }

  function Positive(balances: map<string, int>): map<string, int> {
    map k | k in balances :: if balances[k] > 0 then balances[k] else 0
  }

  lemma HeldIsPositive(balances: map<string, int>)
    ensures Held(balances) == MapSum(Positive(balances))
  {
    var keys := Ordered(balances.Keys);
    var names := Holders(keys, balances);
    HoldersAre(keys, balances);
    MapSumOver(Positive(balances), names);
    assert At(Positive(balances), names) == Holdings(names, balances);
  }

  lemma {:induction false} ExpiryUsers(names: seq<string>, shares: seq<nat>, id: string, now: int)
    requires |names| == |shares|
    ensures forall e | e in Expiries(names, shares, id, now) :: e.user in names
  {
    if |names| > 0 { ExpiryUsers(names[..|names| - 1], shares[..|names| - 1], id, now); }
  }

  lemma ForfeitKeys(balances: map<string, int>, f: Forfeit, now: int)
    ensures AfterForfeit(balances, f, now).Keys == balances.Keys
  {
    var names := Holders(Ordered(balances.Keys), balances);
    var es := ForfeitEntries(balances, f, now);
    ExpiryUsers(names, A.SplitBy(f.leftover, Holdings(names, balances)), f.id, now);
    PostKeys(balances, Postings(es));
    forall i | 0 <= i < |es| ensures Postings(es)[i].user in balances { assert es[i] in es; }
  }

  lemma ForfeitAtKey(balances: map<string, int>, f: Forfeit, now: int, k: string)
    requires f.leftover <= Held(balances) && k in balances && k in AfterForfeit(balances, f, now)
    ensures var after := AfterForfeit(balances, f, now);
      Positive(balances)[k] + after[k] == Positive(after)[k] + balances[k]
  {
    ForfeitTo(balances, f, now, k);
    if balances[k] > 0 { ForfeitWithin(balances, f, now, k); }
  }

  /** A covered forfeit takes its leftover out of the positive balances, no more and no less. */
  lemma ForfeitDrains(balances: map<string, int>, f: Forfeit, now: int)
    requires f.leftover <= Held(balances)
    ensures Held(AfterForfeit(balances, f, now)) == Held(balances) - f.leftover
  {
    var after := AfterForfeit(balances, f, now);
    ForfeitKeys(balances, f, now);
    forall k | k in balances ensures Positive(balances)[k] + after[k] == Positive(after)[k] + balances[k] {
      ForfeitAtKey(balances, f, now, k);
    }
    var none: map<string, int> := map k | k in balances :: 0;
    MapSumZero(none);
    MapSumBalance(Positive(balances), after, Positive(after), balances, none);
    HeldIsPositive(balances);
    HeldIsPositive(after);
    PostSum(balances, Postings(ForfeitEntries(balances, f, now)));
    ForfeitTakes(balances, f, now);
  }

  function LeftoverOf(fs: seq<Forfeit>): nat {
    if |fs| == 0 then 0 else LeftoverOf(fs[..|fs| - 1]) + fs[|fs| - 1].leftover
  }

  /** The leftovers can be taken one after the other: all of them, or up to the last positive byte. */
  predicate Payable(held: nat, fs: seq<Forfeit>) {
    LeftoverOf(fs) <= held || exists k | 0 <= k <= |fs| :: LeftoverOf(fs[..k]) == held
  }

  function AfterForfeits(balances: map<string, int>, fs: seq<Forfeit>, now: int): map<string, int> {
    Post(balances, Postings(ForfeitAll(balances, fs, now)))
  }

  lemma NextForfeit(balances: map<string, int>, fs: seq<Forfeit>, now: int)
    requires |fs| > 0
    ensures var n := |fs| - 1;
      AfterForfeits(balances, fs, now) == AfterForfeit(AfterForfeits(balances, fs[..n], now), fs[n], now)
  {
    var n := |fs| - 1;
    var before := ForfeitAll(balances, fs[..n], now);
    var left := Post(balances, Postings(before));
    PostingsAppend(before, ForfeitEntries(left, fs[n], now));
    PostAppend(balances, Postings(before), Postings(ForfeitEntries(left, fs[n], now)));
  }

  /** A forfeit gives nobody anything, and takes nothing when nobody holds anything. */
  lemma ForfeitLowers(balances: map<string, int>, f: Forfeit, now: int, user: string)
    ensures Get(AfterForfeit(balances, f, now), user) <= Get(balances, user)
    ensures Held(balances) == 0 ==> Get(AfterForfeit(balances, f, now), user) == Get(balances, user)
  {
    var names := Holders(Ordered(balances.Keys), balances);
    ForfeitTo(balances, f, now, user);
    if user in names {
      var i :| 0 <= i < |names| && names[i] == user;
      assert Get(AfterForfeit(balances, f, now), user)
          == Get(balances, user) - A.SplitBy(f.leftover, Holdings(names, balances))[i];
    }
  }

  lemma {:induction false} ForfeitsLower(balances: map<string, int>, fs: seq<Forfeit>, now: int, user: string)
    ensures Get(AfterForfeits(balances, fs, now), user) <= Get(balances, user)
  {
    var n := |fs| - 1;
    if n >= 0 {
      ForfeitsLower(balances, fs[..n], now, user);
      NextForfeit(balances, fs, now);
      ForfeitLowers(AfterForfeits(balances, fs[..n], now), fs[n], now, user);
    }
  }

  lemma DrainedStays(balances: map<string, int>, f: Forfeit, now: int)
    requires Held(balances) == 0
    ensures Held(AfterForfeit(balances, f, now)) == 0
    ensures Spared(balances, AfterForfeit(balances, f, now))
  {
    var after := AfterForfeit(balances, f, now);
    ForfeitKeys(balances, f, now);
    forall k | k in balances ensures after[k] == balances[k] { ForfeitLowers(balances, f, now, k); }
    assert after == balances;
  }

  /** What is left of the positive balances, as long as nobody was overdrawn. */
  function Rest(held: nat, fs: seq<Forfeit>): nat {
    if LeftoverOf(fs) <= held then held - LeftoverOf(fs) else 0
  }

  lemma PayableNext(held: nat, fs: seq<Forfeit>)
    requires |fs| > 0
    ensures var n := |fs| - 1;
      && (Payable(held, fs) <==> Payable(held, fs[..n]) && (fs[n].leftover <= Rest(held, fs[..n]) || Rest(held, fs[..n]) == 0))
      && (Payable(held, fs) ==> Rest(held, fs) == if Rest(held, fs[..n]) == 0 then 0 else Rest(held, fs[..n]) - fs[n].leftover)
  {
    var n := |fs| - 1;
    assert fs[..|fs|] == fs;
    assert forall k | 0 <= k <= n :: fs[..n][..k] == fs[..k];
    if Payable(held, fs) && LeftoverOf(fs) > held {
      var k :| 0 <= k <= |fs| && LeftoverOf(fs[..k]) == held;
      assert k <= n && LeftoverOf(fs[..n][..k]) == held;
      PrefixLeftover(fs[..n], k);
    }
    if Payable(held, fs[..n]) && LeftoverOf(fs[..n]) > held {
      var k :| 0 <= k <= n && LeftoverOf(fs[..n][..k]) == held;
      assert LeftoverOf(fs[..k]) == held;
    }
  }

  lemma {:induction false} PrefixLeftover(fs: seq<Forfeit>, k: nat)
    requires k <= |fs|
    ensures LeftoverOf(fs[..k]) <= LeftoverOf(fs)
  {
    if k == |fs| {
      assert fs[..k] == fs;
    } else {
      PrefixLeftover(fs[..|fs| - 1], k);
      assert fs[..|fs| - 1][..k] == fs[..k];
    }
  }

  /**
   Forfeits taken one after the other drive somebody negative exactly when they are not payable: together
   they exceed the positive balances, and none of them happens to take the last positive byte.
   */
  lemma {:induction false} ForfeitsSpare(balances: map<string, int>, fs: seq<Forfeit>, now: int)
    ensures Spared(balances, AfterForfeits(balances, fs, now)) <==> Payable(Held(balances), fs)
    ensures Payable(Held(balances), fs) ==> Held(AfterForfeits(balances, fs, now)) == Rest(Held(balances), fs)
  {
    var n := |fs| - 1;
    if n >= 0 {
      var left := AfterForfeits(balances, fs[..n], now);
      ForfeitsSpare(balances, fs[..n], now);
      NextForfeit(balances, fs, now);
      PayableNext(Held(balances), fs);
      if Payable(Held(balances), fs) {
        ForfeitSpares(left, fs[n], now);
        if Held(left) == 0 { DrainedStays(left, fs[n], now); } else { ForfeitDrains(left, fs[n], now); }
      } else if Payable(Held(balances), fs[..n]) {
        var user := ForfeitExceeds(left, fs[n], now);
        ForfeitsLower(balances, fs[..n], now, user);
      } else {
        var user :| Get(balances, user) >= 0 && Get(left, user) < 0;
        ForfeitLowers(left, fs[n], now, user);
      }
    }
  }

  /** The expiries of a sync drive somebody negative exactly when the balances it has charged cannot pay them. */
  lemma SyncSpares(b: Book, ps: seq<Package>, members: seq<Member>, a: Assignments, now: int)
    ensures var charged, fs := AfterCharges(b, ps, members, a, now), Forfeits(Ordered(b.packages.Keys), b.packages, ps);
      Spared(charged, Settle(b, ps, members, a, now).book.balances) <==> Payable(Held(charged), fs)
  {
    ForfeitsSpare(AfterCharges(b, ps, members, a, now), Forfeits(Ordered(b.packages.Keys), b.packages, ps), now);
  }

  // ---------------------------------------------------------------- migration

  lemma OpeningTotal(remaining: nat, members: seq<Member>)
    requires |members| > 0
    ensures Sum(OpeningShares(remaining, members)) == remaining
  {
    var weights := OfflineWeights(members);
    if exists i | 0 <= i < |weights| :: weights[i] > 0 {
      var i :| 0 <= i < |weights| && weights[i] > 0;
      SumUpdate(weights, i, 0);
      assert Sum(weights[i := 0]) >= 0;
      A.SplitConserves(remaining, weights);
    } else {
      OnesTotal(|members|);
      A.SplitConserves(remaining, A.Ones(|members|));
    }
  }

  lemma {:induction false} SetBalancesKeys(names: seq<string>, shares: seq<nat>, k: string)
    requires |names| == |shares|
    ensures k in SetBalances(map[], names, shares) <==> k in names
  {
    var n := |names| - 1;
    if n >= 0 {
      SetBalancesKeys(names[..n], shares[..n], k);
      assert names == names[..n] + [names[n]];
    }
  }

  lemma {:induction false} SetBalancesAt(names: seq<string>, shares: seq<nat>, i: nat)
    requires |names| == |shares| && Distinct(names) && i < |names|
    ensures Get(SetBalances(map[], names, shares), names[i]) == shares[i]
  {
    if i < |names| - 1 { SetBalancesAt(names[..|names| - 1], shares[..|names| - 1], i); }
  }

  lemma SetBalancesSum(names: seq<string>, shares: seq<nat>)
    requires |names| == |shares| && Distinct(names)
    ensures MapSum(SetBalances(map[], names, shares)) == Sum(shares)
  {
    var m := SetBalances(map[], names, shares);
    forall k | k in m ensures k in names { SetBalancesKeys(names, shares, k); }
    MapSumOver(m, names);
    forall i | 0 <= i < |names| ensures At(m, names)[i] == shares[i] { SetBalancesAt(names, shares, i); }
    assert At(m, names) == shares;
  }

  lemma {:induction false} BaselinesSet(baselines: map<string, nat>, members: seq<Member>)
    requires Distinct(Names(members))
    ensures forall m | m in members ::
              m.name in SetBaselines(baselines, members) && SetBaselines(baselines, members)[m.name] == m.used
  {
    var n := |members| - 1;
    if n >= 0 {
      assert Names(members[..n]) == Names(members)[..n];
      BaselinesSet(baselines, members[..n]);
      forall m | m in members
        ensures m.name in SetBaselines(baselines, members) && SetBaselines(baselines, members)[m.name] == m.used
      {
        var i :| 0 <= i < |members| && members[i] == m;
        assert Names(members)[i] == m.name && Names(members)[n] == members[n].name;
        assert i < n ==> m in members[..n];
      }
    }
  }

  /** What a member may still use before its limit stops it. */
  function Spendable(b: Book, m: Member): int {
    var limit := Limit(b, m.name);
    if limit.Some? then limit.value - m.used else 0
  }

  /** Migration hands out exactly the provider's remaining traffic. */
  lemma MigrationHandsOutEverything(b: Book, ps: seq<Package>, members: seq<Member>, a: Assignments, now: int)
    requires !b.migrated && b.balances == map[] && |members| > 0 && Distinct(Names(members))
    ensures var after := Reconcile(b, ps, members, a, now).book;
      && Unallocated(after) == 0
      && Sum(seq(|members|, i requires 0 <= i < |members| => Spendable(after, members[i]))) == after.remaining
  {
    var after := Reconcile(b, ps, members, a, now).book;
    var shares := OpeningShares(Remaining(ps), members);
    OpeningTotal(Remaining(ps), members);
    SetBalancesSum(Names(members), shares);
    BaselinesSet(b.baselines, members);
    var spendable := seq(|members|, i requires 0 <= i < |members| => Spendable(after, members[i]));
    forall i | 0 <= i < |members| ensures spendable[i] == shares[i] {
      SetBalancesAt(Names(members), shares, i);
      assert members[i] in members && Names(members)[i] == members[i].name;
    }
    assert spendable == shares;
  }

  // ---------------------------------------------------------------- transfers and allocations

  lemma {:induction false} MemberFound(members: seq<Member>, name: string)
    ensures FindMember(members, name).Some? ==>
              FindMember(members, name).value in members && FindMember(members, name).value.name == name
    ensures FindMember(members, name).None? <==> name !in Names(members)
  {
    if |members| > 0 {
      MemberFound(members[1..], name);
      assert Names(members) == [members[0].name] + Names(members[1..]);
    }
  }

  /** A transfer moves the amount from one balance to the other and leaves the giver's limit above its use. */
  lemma TransferMoves(b: Book, members: seq<Member>, from: string, to: string, amount: nat, now: int, user: string)
    requires Transfer(b, members, from, to, amount, now).Ok?
    ensures var after := Transfer(b, members, from, to, amount, now).outcome.book;
      && MapSum(after.balances) == MapSum(b.balances) && Unallocated(after) == Unallocated(b)
      && Get(after.balances, user) == Get(b.balances, user)
           + (if user == to then amount else 0) - (if user == from then amount else 0)
      && Limit(after, from).Some? && Limit(after, from).value >= FindMember(members, from).value.used
  {
    var joined := Join(b, members);
    var ps := Postings(TransferEntries(from, to, amount, now));
    JoinKeeps(b, members, user);
    JoinCovers(b, members);
    PostSum(joined.balances, ps);
    assert Amounts(ps) == [Minus(amount)] + [amount];
    SumAppend([Minus(amount)], [amount]);
    assert ps == [Posting(from, Minus(amount))] + [Posting(to, amount)];
    PostBoth(joined.balances, from, to, amount, now, user);
    PostBoth(joined.balances, from, to, amount, now, from);
    MemberFound(members, from);
  }

  /**
   A refused transfer changes the book exactly when it gets as far as the balance check and some member
   was not in the book yet; it has then joined the members and done nothing else.
   */
  lemma RefusedTransferJoins(b: Book, members: seq<Member>, from: string, to: string, amount: nat, now: int)
    requires Transfer(b, members, from, to, amount, now).Err?
    ensures var left := Transfer(b, members, from, to, amount, now).book;
      && (left == b || left == Join(b, members))
      && (left != b <==>
          && b.migrated && amount > 0 && from != to && from in Names(members) && to in Names(members)
          && exists m | m in members :: m.name !in b.balances || m.name !in b.baselines)
  {
    MemberFound(members, from);
    MemberFound(members, to);
    JoinCovers(b, members);
    if forall m | m in members :: m.name in b.balances && m.name in b.baselines { JoinNothing(b, members); }
  }

  lemma PostBoth(balances: map<string, int>, from: string, to: string, amount: nat, now: int, user: string)
    requires from != to
    ensures Get(Post(balances, Postings(TransferEntries(from, to, amount, now))), user)
         == Get(balances, user) + (if user == to then amount else 0) - (if user == from then amount else 0)
  {
    var ps := Postings(TransferEntries(from, to, amount, now));
    assert ps == [Posting(from, Minus(amount))] + [Posting(to, amount)];
    PostTo(balances, ps, user);
    ToAppend([Posting(from, Minus(amount))], [Posting(to, amount)], user);
  }

  /** An allocation gives out no more than was unallocated. */
  lemma AllocationStaysCovered(b: Book, members: seq<Member>, to: Option<string>, amount: Option<nat>, now: int)
    requires Allocate(b, members, to, amount, now).Ok?
    ensures var after := Allocate(b, members, to, amount, now).outcome.book;
      && 0 <= Unallocated(after) < Unallocated(b)
      && Unallocated(after) == Unallocated(b) - if amount.Some? then amount.value else Unallocated(b)
  {
    var wanted := if amount.Some? then amount.value else Unallocated(b);
    var names := if to.Some? then [to.value] else Names(members);
    var es := Shares(Allocated, names, A.SplitEvenly(wanted, |names|), None, now);
    JoinCovers(b, members);
    PostSum(Join(b, members).balances, Postings(es));
    SharesTotal(Allocated, names, wanted, None, now);
    JoinKeeps(b, members, "");
  }

  // ---------------------------------------------------------------- idempotence

  predicate RecordSettled(id: string, r: Record, ps: seq<Package>, names: seq<string>, a: Assignments) {
    && (match Find(ps, id) case Some(p) => r.package == p case None => !r.package.Effective())
    && CreditFor(id, r, names, a).None?
  }

  /** The book already says everything this fetch says. */
  ghost predicate UpToDate(b: Book, ps: seq<Package>, members: seq<Member>, a: Assignments) {
    && b.migrated && b.remaining == Remaining(ps)
    && (forall m | m in members ::
          m.name in b.balances && m.name in b.baselines && b.baselines[m.name] == m.used)
    && (forall id | id in b.packages :: RecordSettled(id, b.packages[id], ps, Names(members), a))
    && (forall p | p in ps :: p.id in b.packages)
    && (Sweeps(members, a) ==> Unallocated(b) == 0)
  }

  lemma {:induction false} JoinNothing(b: Book, members: seq<Member>)
    requires forall m | m in members :: m.name in b.balances && m.name in b.baselines
    ensures Join(b, members) == b
  {
    if |members| > 0 { JoinNothing(b, members[..|members| - 1]); }
  }

  lemma {:induction false} BaselinesKept(baselines: map<string, nat>, members: seq<Member>)
    requires forall m | m in members :: m.name in baselines && baselines[m.name] == m.used
    ensures SetBaselines(baselines, members) == baselines
  {
    if |members| > 0 { BaselinesKept(baselines, members[..|members| - 1]); }
  }

  lemma NothingSpent(members: seq<Member>, baselines: map<string, nat>)
    requires forall m | m in members :: m.name in baselines && baselines[m.name] == m.used
    ensures Sum(Usage(members, baselines)) == 0
  {
    A.ZeroSum(Usage(members, baselines));
  }

  lemma NothingMissing(b: Book, ps: seq<Package>, members: seq<Member>, a: Assignments)
    requires UpToDate(b, ps, members, a)
    ensures MarkMissing(b.packages, ps) == b.packages
  {
    forall id | id in b.packages ensures Marked(b.packages[id], Find(ps, id)) == b.packages[id] {
      assert RecordSettled(id, b.packages[id], ps, Names(members), a);
    }
  }

  lemma NothingRefreshed(b: Book, ps: seq<Package>, members: seq<Member>, a: Assignments)
    requires UpToDate(b, ps, members, a)
    ensures Refreshed(b, ps) == b.packages
  {
    var packages := Refreshed(b, ps);
    forall id ensures id in packages <==> id in b.packages {
      RefreshedAt(b, ps, id);
      FindMeans(ps, id);
    }
    forall id | id in b.packages ensures packages[id] == b.packages[id] {
      RefreshedAt(b, ps, id);
      assert RecordSettled(id, b.packages[id], ps, Names(members), a);
    }
  }

  lemma NothingAdded(b: Book, ps: seq<Package>, members: seq<Member>, a: Assignments)
    requires UpToDate(b, ps, members, a) && Unique(ps)
    ensures Added(MarkMissing(b.packages, ps), ps) == 0
  {
    NothingMissing(b, ps, members, a);
    AddedIs(b.packages, ps);
    var amounts := seq(|ps|, i requires 0 <= i < |ps| => NewAmount(b.packages, ps[i]));
    forall i | 0 <= i < |ps| ensures amounts[i] == 0 {
      FindListed(ps, i);
      assert ps[i] in ps;
      assert RecordSettled(ps[i].id, b.packages[ps[i].id], ps, Names(members), a);
    }
    A.ZeroSum(amounts);
  }

  lemma NothingGone(b: Book, ps: seq<Package>, members: seq<Member>, a: Assignments)
    requires UpToDate(b, ps, members, a)
    ensures Gone(b.packages, ps) == 0
    ensures forall k | k in b.packages :: Leftover(b.packages[k].package, Find(ps, k)) == 0
  {
    forall k | k in b.packages ensures Leftover(b.packages[k].package, Find(ps, k)) == 0 {
      assert RecordSettled(k, b.packages[k], ps, Names(members), a);
    }
    A.ZeroSum(Leftovers(Ordered(b.packages.Keys), b.packages, ps));
  }

  lemma {:induction false} NothingForfeited(keys: seq<string>, packages: map<string, Record>, ps: seq<Package>)
    requires forall k | k in keys :: k in packages && Leftover(packages[k].package, Find(ps, k)) == 0
    ensures Forfeits(keys, packages, ps) == []
  {
    if |keys| > 0 { NothingForfeited(keys[..|keys| - 1], packages, ps); }
  }

  lemma {:induction false} NothingCredited(keys: seq<string>, packages: map<string, Record>, names: seq<string>,
                                           a: Assignments, now: int)
    requires forall k | k in keys :: k in packages && CreditFor(k, packages[k], names, a).None?
    ensures AllCredits(keys, packages, names, a, now) == []
  {
    if |keys| > 0 { NothingCredited(keys[..|keys| - 1], packages, names, a, now); }
  }

  lemma CreditsKept(packages: map<string, Record>, names: seq<string>, a: Assignments)
    requires forall k | k in packages :: CreditFor(k, packages[k], names, a).None?
    ensures CreditPackages(packages, names, a) == packages
  {
    forall k | k in packages ensures CreditRecord(k, packages[k], names, a) == packages[k] {
    }
  }

  lemma UpToDateSettles(b: Book, ps: seq<Package>, members: seq<Member>, a: Assignments, now: int)
    requires UpToDate(b, ps, members, a) && Unique(ps)
    ensures Settle(b, ps, members, a, now) == Outcome(b.(syncedAt := now, consumed := 0, metered := 0), [])
  {
    forall k | k in b.packages ensures CreditFor(k, b.packages[k], Names(members), a).None? {
      assert RecordSettled(k, b.packages[k], ps, Names(members), a);
    }
    JoinNothing(b, members);
    BaselinesKept(b.baselines, members);
    NothingSpent(members, b.baselines);
    NothingAdded(b, ps, members, a);
    NothingGone(b, ps, members, a);
    NothingRefreshed(b, ps, members, a);
    NothingForfeited(Ordered(b.packages.Keys), b.packages, ps);
    NothingCredited(Ordered(b.packages.Keys), b.packages, Names(members), a, now);
    CreditsKept(b.packages, Names(members), a);
    assert AfterCharges(b, ps, members, a, now) == b.balances;
    assert ForfeitsOf(b, ps, members, a, now) == [];
  }

  /** Syncing an up-to-date book writes nothing and changes only the figures of the sync itself. */
  lemma UpToDateStays(b: Book, ps: seq<Package>, members: seq<Member>, a: Assignments, now: int)
    requires UpToDate(b, ps, members, a) && Unique(ps)
    ensures Reconcile(b, ps, members, a, now)
         == Outcome(b.(syncedAt := now, consumed := 0, metered := 0), [])
  {
    UpToDateSettles(b, ps, members, a, now);
    if Sweeps(members, a) {
      assert members[0] in members;
    }
  }

  lemma SettledRecords(b: Book, ps: seq<Package>, members: seq<Member>, a: Assignments)
    ensures var packages := CreditPackages(Refreshed(b, ps), Names(members), a);
      && (forall id | id in packages :: RecordSettled(id, packages[id], ps, Names(members), a))
      && (forall p | p in ps :: p.id in packages)
  {
    var packages := CreditPackages(Refreshed(b, ps), Names(members), a);
    forall id | id in packages ensures RecordSettled(id, packages[id], ps, Names(members), a) {
      RefreshedAt(b, ps, id);
    }
    forall p | p in ps ensures p.id in packages {
      var i :| 0 <= i < |ps| && ps[i] == p;
      assert Ids(ps)[i] == p.id;
      FindMeans(ps, p.id);
      RefreshedAt(b, ps, p.id);
    }
  }

  lemma SettledBalances(b: Book, ps: seq<Package>, members: seq<Member>, a: Assignments, now: int)
    ensures forall m | m in members :: m.name in Settle(b, ps, members, a, now).book.balances
  {
    var joined := Join(b, members).balances;
    JoinCovers(b, members);
    PostKeys(joined, Postings(CreditsOf(b, ps, members, a, now)));
    PostKeys(Post(joined, Postings(CreditsOf(b, ps, members, a, now))), ChargesOf(b, ps, members));
    PostKeys(AfterCharges(b, ps, members, a, now), Postings(ForfeitsOf(b, ps, members, a, now)));
  }

  lemma SettleIsUpToDate(b: Book, ps: seq<Package>, members: seq<Member>, a: Assignments, now: int)
    requires b.migrated && Distinct(Names(members))
    ensures UpToDate(Reconcile(b, ps, members, a, now).book, ps, members, a)
  {
    SettledRecords(b, ps, members, a);
    SettledBalances(b, ps, members, a, now);
    BaselinesSet(Join(b, members).baselines, members);
    if Sweeps(members, a) { SweepSettlesEverything(b, ps, members, a, now); }
  }

  lemma CountedRecords(ps: seq<Package>, names: seq<string>, a: Assignments)
    ensures var packages := CountedPackages(map[], ps);
      && (forall id | id in packages :: RecordSettled(id, packages[id], ps, names, a))
      && (forall p | p in ps :: p.id in packages)
  {
    var packages := CountedPackages(map[], ps);
    forall id | id in packages ensures RecordSettled(id, packages[id], ps, names, a) { CountedAt(map[], ps, id); }
    forall p | p in ps ensures p.id in packages {
      var i :| 0 <= i < |ps| && ps[i] == p;
      assert Ids(ps)[i] == p.id;
      FindMeans(ps, p.id);
      CountedAt(map[], ps, p.id);
    }
  }

  lemma MigrateIsUpToDate(b: Book, ps: seq<Package>, members: seq<Member>, a: Assignments, now: int)
    requires !b.migrated && b.balances == map[] && b.packages == map[] && Distinct(Names(members))
    ensures UpToDate(Reconcile(b, ps, members, a, now).book, ps, members, a)
  {
    CountedRecords(ps, Names(members), a);
    BaselinesSet(b.baselines, members);
    forall m | m in members ensures m.name in Reconcile(b, ps, members, a, now).book.balances {
      var i :| 0 <= i < |members| && members[i] == m;
      assert Names(members)[i] == m.name;
      SetBalancesKeys(Names(members), OpeningShares(Remaining(ps), members), m.name);
    }
    if Sweeps(members, a) { MigrationHandsOutEverything(b, ps, members, a, now); }
  }

  /** Repeating a sync with the same report changes nothing, whatever the book was before. */
  lemma ReconcileIsIdempotent(b: Book, ps: seq<Package>, members: seq<Member>, a: Assignments, now: int, later: int)
    requires Unique(ps) && Distinct(Names(members))
    requires b.migrated || (b.balances == map[] && b.packages == map[])
    ensures var first := Reconcile(b, ps, members, a, now).book;
      Reconcile(first, ps, members, a, later)
      == Outcome(first.(syncedAt := later, consumed := 0, metered := 0), [])
  {
    if b.migrated { SettleIsUpToDate(b, ps, members, a, now); } else { MigrateIsUpToDate(b, ps, members, a, now); }
    UpToDateStays(Reconcile(b, ps, members, a, now).book, ps, members, a, later);
  }
}
