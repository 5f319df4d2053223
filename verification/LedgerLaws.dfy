/** What one ledger operation keeps, moves and creates. */
module LedgerLaws {
  import opened Options
  import opened Sums
  import opened Keys
  import opened Ledger
  import A = Apportion

  // ---------------------------------------------------------------- postings

  /** The sum of the postings to one user. */
  function To(ps: seq<Posting>, user: string): int {
    if |ps| == 0 then 0
    else To(ps[..|ps| - 1], user) + if ps[|ps| - 1].user == user then ps[|ps| - 1].amount else 0
  }

  function Amounts(ps: seq<Posting>): (r: seq<int>)
    ensures |r| == |ps|
  {
    seq(|ps|, i requires 0 <= i < |ps| => ps[i].amount)
  }

  lemma {:induction false} PostTo(balances: map<string, int>, ps: seq<Posting>, user: string)
    ensures Get(Post(balances, ps), user) == Get(balances, user) + To(ps, user)
  {
    if |ps| > 0 { PostTo(balances, ps[..|ps| - 1], user); }
  }

  lemma {:induction false} PostSum(balances: map<string, int>, ps: seq<Posting>)
    ensures MapSum(Post(balances, ps)) == MapSum(balances) + Sum(Amounts(ps))
  {
    var n := |ps| - 1;
    if n >= 0 {
      var before := Post(balances, ps[..n]);
      PostSum(balances, ps[..n]);
      MapSumUpdate(before, ps[n].user, Get(before, ps[n].user) + ps[n].amount);
      assert Amounts(ps)[..n] == Amounts(ps[..n]);
    }
  }

  lemma {:induction false} PostAppend(balances: map<string, int>, a: seq<Posting>, b: seq<Posting>)
    ensures Post(balances, a + b) == Post(Post(balances, a), b)
  {
    if |b| == 0 {
      assert a + b == a;
    } else {
      assert (a + b)[..|a + b| - 1] == a + b[..|b| - 1];
      PostAppend(balances, a, b[..|b| - 1]);
    }
  }

  lemma {:induction false} ToAppend(a: seq<Posting>, b: seq<Posting>, user: string)
    ensures To(a + b, user) == To(a, user) + To(b, user)
  {
    if |b| == 0 {
      assert a + b == a;
    } else {
      assert (a + b)[..|a + b| - 1] == a + b[..|b| - 1];
      ToAppend(a, b[..|b| - 1], user);
    }
  }

  lemma PostingsAppend(a: seq<Entry>, b: seq<Entry>)
    ensures Postings(a + b) == Postings(a) + Postings(b)
    ensures Sum(Amounts(Postings(a + b))) == Sum(Amounts(Postings(a))) + Sum(Amounts(Postings(b)))
  {
    assert Postings(a + b) == Postings(a) + Postings(b);
    AmountsAppend(Postings(a), Postings(b));
  }

  lemma AmountsAppend(a: seq<Posting>, b: seq<Posting>)
    ensures Sum(Amounts(a + b)) == Sum(Amounts(a)) + Sum(Amounts(b))
  {
    assert Amounts(a + b) == Amounts(a) + Amounts(b);
    SumAppend(Amounts(a), Amounts(b));
  }

  lemma {:induction false} PostKeys(balances: map<string, int>, ps: seq<Posting>)
    ensures Post(balances, ps).Keys == balances.Keys + set i | 0 <= i < |ps| :: ps[i].user
  {
    var n := |ps| - 1;
    if n >= 0 {
      PostKeys(balances, ps[..n]);
      assert (set i | 0 <= i < |ps| :: ps[i].user)
          == (set i | 0 <= i < |ps[..n]| :: ps[..n][i].user) + {ps[n].user};
    }
  }

  // ---------------------------------------------------------------- joining

  /** Joining adds the missing members with nothing to spend and touches nobody else. */
  lemma {:induction false} JoinKeeps(b: Book, members: seq<Member>, user: string)
    ensures Get(Join(b, members).balances, user) == Get(b.balances, user)
    ensures user in b.baselines ==>
              user in Join(b, members).baselines && Join(b, members).baselines[user] == b.baselines[user]
    ensures Join(b, members) == b.(balances := Join(b, members).balances,
                                   baselines := Join(b, members).baselines)
  {
    if |members| > 0 { JoinKeeps(b, members[..|members| - 1], user); }
  }

  lemma {:induction false} JoinCovers(b: Book, members: seq<Member>)
    ensures MapSum(Join(b, members).balances) == MapSum(b.balances)
    ensures forall m | m in members ::
              m.name in Join(b, members).balances && m.name in Join(b, members).baselines
  {
    var n := |members| - 1;
    if n >= 0 {
      JoinCovers(b, members[..n]);
      MapSumUpdate(Join(b, members[..n]).balances, members[n].name, 0);
      assert forall m | m in members :: m in members[..n] || m == members[n];
    }
  }

  // ---------------------------------------------------------------- how much each phase moves

  lemma SharesTotal(kind: EntryKind, names: seq<string>, amount: nat, package: Option<string>, now: int)
    requires |names| > 0
    ensures Sum(Amounts(Postings(Shares(kind, names, A.SplitEvenly(amount, |names|), package, now)))) == amount
  {
    var shares := A.SplitEvenly(amount, |names|);
    assert Amounts(Postings(Shares(kind, names, shares, package, now))) == shares;
    OnesTotal(|names|);
    A.SplitConserves(amount, A.Ones(|names|));
  }

  lemma {:induction false} OnesTotal(n: nat)
    ensures Sum(A.Ones(n)) == n
  {
    if n > 0 {
      OnesTotal(n - 1);
      assert A.Ones(n)[..n - 1] == A.Ones(n - 1);
    }
  }

  function CreditTotal(id: string, r: Record, names: seq<string>, a: Assignments): nat {
    if CreditFor(id, r, names, a).Some? then r.package.total else 0
  }

  /** A credited package is credited in full. */
  lemma CreditInFull(id: string, r: Record, names: seq<string>, a: Assignments, now: int)
    ensures Sum(Amounts(Postings(CreditEntries(id, r, names, a, now)))) == CreditTotal(id, r, names, a)
  {
    match CreditFor(id, r, names, a)
    case Some(BySplit) =>
      SharesTotal(Credited, names, r.package.total, Some(id), now);
    case Some(ToUser(owner)) =>
      assert Amounts(Postings(CreditEntries(id, r, names, a, now))) == [r.package.total];
    case _ =>
  }

  /** A drop is charged in full when anything was metered, and not at all otherwise. */
  lemma ChargedTotal(consumed: nat, members: seq<Member>, baselines: map<string, nat>)
    ensures Sum(Amounts(Charges(consumed, members, baselines)))
         == if Sum(Usage(members, baselines)) > 0 then Minus(consumed) else 0
  {
    var usage := Usage(members, baselines);
    if consumed > 0 && Sum(usage) > 0 {
      A.SplitConserves(consumed, usage);
      Negated(A.SplitBy(consumed, usage), Amounts(Charges(consumed, members, baselines)));
    }
  }

  lemma {:induction false} Negated(a: seq<int>, b: seq<int>)
    requires |a| == |b| && forall i | 0 <= i < |a| :: b[i] == -a[i]
    ensures Sum(b) == -Sum(a)
  {
    if |a| > 0 { Negated(a[..|a| - 1], b[..|b| - 1]); }
  }

  lemma {:induction false} ExpiriesTotal(names: seq<string>, shares: seq<nat>, id: string, now: int)
    requires |names| == |shares|
    ensures Sum(Amounts(Postings(Expiries(names, shares, id, now)))) == -Sum(shares)
  {
    var n := |names| - 1;
    if n >= 0 {
      ExpiriesTotal(names[..n], shares[..n], id, now);
      var last := if shares[n] == 0 then [] else [Entry(now, Expiry, names[n], Minus(shares[n]), Some(id), "")];
      PostingsAppend(Expiries(names[..n], shares[..n], id, now), last);
      assert shares[n] > 0 ==> Amounts(Postings(last)) == [Minus(shares[n])];
    }
  }

  /** What one forfeit takes: the whole leftover while anybody holds a positive balance. */
  function Taken(balances: map<string, int>, f: Forfeit): nat {
    if Sum(Holdings(Holders(Ordered(balances.Keys), balances), balances)) > 0 then f.leftover else 0
  }

  lemma ForfeitTakes(balances: map<string, int>, f: Forfeit, now: int)
    ensures Sum(Amounts(Postings(ForfeitEntries(balances, f, now)))) == Minus(Taken(balances, f))
  {
    var names := Holders(Ordered(balances.Keys), balances);
    var weights := Holdings(names, balances);
    A.SplitConserves(f.leftover, weights);
    ExpiriesTotal(names, A.SplitBy(f.leftover, weights), f.id, now);
  }

  /** The forfeits actually taken, each from the balances the previous one left. */
  function TakenAll(balances: map<string, int>, fs: seq<Forfeit>, now: int): nat {
    if |fs| == 0 then 0
    else
      var n := |fs| - 1;
      TakenAll(balances, fs[..n], now) + Taken(Post(balances, Postings(ForfeitAll(balances, fs[..n], now))), fs[n])
  }

  lemma {:induction false} ForfeitAllTakes(balances: map<string, int>, fs: seq<Forfeit>, now: int)
    ensures Sum(Amounts(Postings(ForfeitAll(balances, fs, now)))) == Minus(TakenAll(balances, fs, now))
  {
    var n := |fs| - 1;
    if n >= 0 {
      var before := ForfeitAll(balances, fs[..n], now);
      ForfeitAllTakes(balances, fs[..n], now);
      ForfeitTakes(Post(balances, Postings(before)), fs[n], now);
      PostingsAppend(before, ForfeitEntries(Post(balances, Postings(before)), fs[n], now));
    }
  }

  // ---------------------------------------------------------------- the conservation law

  /** What each record is credited with: its total when it is credited now, nothing otherwise. */
  function CreditAmounts(packages: map<string, Record>, names: seq<string>, a: Assignments): map<string, int> {
    map id | id in packages :: CreditTotal(id, packages[id], names, a)
  }

  /** The totals of the packages a sync credits. */
  ghost function CreditedTotal(b: Book, ps: seq<Package>, members: seq<Member>, a: Assignments): int {
    MapSum(CreditAmounts(Refreshed(b, ps), Names(members), a))
  }

  lemma {:induction false} AllCreditsTotal(keys: seq<string>, packages: map<string, Record>, names: seq<string>,
                                           a: Assignments, now: int)
    requires forall k | k in keys :: k in packages
    ensures Sum(Amounts(Postings(AllCredits(keys, packages, names, a, now))))
         == Sum(At(CreditAmounts(packages, names, a), keys))
  {
    var n := |keys| - 1;
    if n >= 0 {
      var id := keys[n];
      AllCreditsTotal(keys[..n], packages, names, a, now);
      CreditInFull(id, packages[id], names, a, now);
      PostingsAppend(AllCredits(keys[..n], packages, names, a, now), CreditEntries(id, packages[id], names, a, now));
      assert At(CreditAmounts(packages, names, a), keys)[..n] == At(CreditAmounts(packages, names, a), keys[..n]);
    }
  }

  /** The credit lines of a sync add up to the totals of the packages it credits. */
  lemma CreditsInFull(b: Book, ps: seq<Package>, members: seq<Member>, a: Assignments, now: int)
    ensures Sum(Amounts(Postings(CreditsOf(b, ps, members, a, now)))) == CreditedTotal(b, ps, members, a)
  {
    var packages := Refreshed(b, ps);
    AllCreditsTotal(Ordered(packages.Keys), packages, Names(members), a, now);
    MapSumOver(CreditAmounts(packages, Names(members), a), Ordered(packages.Keys));
  }

  function ForfeitedTotal(b: Book, ps: seq<Package>, members: seq<Member>, a: Assignments, now: int): nat {
    TakenAll(AfterCharges(b, ps, members, a, now), Forfeits(Ordered(b.packages.Keys), b.packages, ps), now)
  }

  function ChargedOf(b: Book, ps: seq<Package>, members: seq<Member>): nat {
    if Sum(Usage(members, Join(b, members).baselines)) > 0 then ConsumedOf(b, ps) else 0
  }

  /** The balances move by what is credited, charged and forfeited, and by nothing else. */
  lemma SettleMoves(b: Book, ps: seq<Package>, members: seq<Member>, a: Assignments, now: int)
    ensures MapSum(Settle(b, ps, members, a, now).book.balances)
         == MapSum(b.balances) + CreditedTotal(b, ps, members, a) - ChargedOf(b, ps, members)
            - ForfeitedTotal(b, ps, members, a, now)
  {
    var joined := Join(b, members);
    var credits := Postings(CreditsOf(b, ps, members, a, now));
    JoinCovers(b, members);
    PostSum(joined.balances, credits);
    CreditsInFull(b, ps, members, a, now);
    PostSum(Post(joined.balances, credits), ChargesOf(b, ps, members));
    ChargedTotal(ConsumedOf(b, ps), members, joined.baselines);
    var fs := Forfeits(Ordered(b.packages.Keys), b.packages, ps);
    PostSum(AfterCharges(b, ps, members, a, now), Postings(ForfeitsOf(b, ps, members, a, now)));
    ForfeitAllTakes(AfterCharges(b, ps, members, a, now), fs, now);
  }

  /**
   Unallocated traffic moves by the purchases nobody was credited with, less the expiries nobody
   paid for, less the drop nobody was charged with.
   */
  lemma UnallocatedMoves(b: Book, ps: seq<Package>, members: seq<Member>, a: Assignments, now: int)
    requires b.migrated && !Sweeps(members, a)
    ensures Unallocated(Reconcile(b, ps, members, a, now).book) - Unallocated(b)
         == (Added(MarkMissing(b.packages, ps), ps) - CreditedTotal(b, ps, members, a))
            - (Gone(b.packages, ps) - ForfeitedTotal(b, ps, members, a, now))
            - (RawConsumption(b, ps) - ChargedOf(b, ps, members))
  {
    SettleMoves(b, ps, members, a, now);
  }

  /** So a drop that was metered never moves unallocated traffic. */
  lemma MeteredDropStaysAllocated(b: Book, ps: seq<Package>, members: seq<Member>, a: Assignments, now: int)
    requires b.migrated && !Sweeps(members, a) && RawConsumption(b, ps) >= 0
    requires Sum(Usage(members, Join(b, members).baselines)) > 0
    ensures Unallocated(Reconcile(b, ps, members, a, now).book) - Unallocated(b)
         == (Added(MarkMissing(b.packages, ps), ps) - CreditedTotal(b, ps, members, a))
            - (Gone(b.packages, ps) - ForfeitedTotal(b, ps, members, a, now))
  {
    UnallocatedMoves(b, ps, members, a, now);
  }

  lemma SweepTakesAll(o: Outcome, name: string, now: int)
    ensures Unallocated(Sweep(o, name, now).book) == 0
  {
    MapSumUpdate(o.book.balances, name, Get(o.book.balances, name) + Unallocated(o.book));
  }

  /** A single-user sync always ends with nothing unallocated. */
  lemma SweepSettlesEverything(b: Book, ps: seq<Package>, members: seq<Member>, a: Assignments, now: int)
    requires b.migrated && Sweeps(members, a)
    ensures Unallocated(Reconcile(b, ps, members, a, now).book) == 0
  {
    SweepTakesAll(Settle(b, ps, members, a, now), members[0].name, now);
  }
}
