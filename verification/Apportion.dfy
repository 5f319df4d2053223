/**
 Largest-remainder apportionment: every share is its exact quota rounded down,
 and the units left over go to the largest remainders, earlier indices first.
 */
module Apportion {
  import opened Sums

  /** An exact quota, split into its whole units and what flooring drops. */
  datatype Part = Part(floor: nat, rest: nat)

  datatype Remainder = Remainder(rest: nat, index: nat)

  /** The order in which left-over units are handed out. */
  predicate Before(a: Remainder, b: Remainder) {
    a.rest > b.rest || (a.rest == b.rest && a.index < b.index)
  }

  predicate Sorted(s: seq<Remainder>) {
    forall i, j | 0 <= i < j < |s| :: !Before(s[j], s[i])
  }

  function Insert(x: Remainder, s: seq<Remainder>): (r: seq<Remainder>)
    ensures |r| == |s| + 1
  {
    if |s| == 0 || Before(x, s[0]) then [x] + s else [s[0]] + Insert(x, s[1..])
  }

  /** The stable library sort, by decreasing remainder and then by index. */
  function Sort(s: seq<Remainder>): (r: seq<Remainder>)
    ensures |r| == |s|
  {
    if |s| == 0 then [] else Insert(s[|s| - 1], Sort(s[..|s| - 1]))
  }

  function PartOf(amount: nat, weight: nat, total: nat): Part
    requires total > 0
  {
    Part(amount * weight / total, amount * weight % total)
  }

  function Parts(amount: nat, weights: seq<nat>, total: nat): (r: seq<Part>)
    requires total > 0
    ensures |r| == |weights|
  {
    if |weights| == 0 then []
    else
      Parts(amount, weights[..|weights| - 1], total) + [PartOf(amount, weights[|weights| - 1], total)]
  }

  function Floors(parts: seq<Part>): (r: seq<nat>)
    ensures |r| == |parts|
  {
    seq(|parts|, i requires 0 <= i < |parts| => parts[i].floor)
  }

  function Rests(parts: seq<Part>): (r: seq<nat>)
    ensures |r| == |parts|
  {
    seq(|parts|, i requires 0 <= i < |parts| => parts[i].rest)
  }

  function Remainders(parts: seq<Part>): (r: seq<Remainder>)
    ensures |r| == |parts|
  {
    seq(|parts|, i requires 0 <= i < |parts| => Remainder(parts[i].rest, i))
  }

  predicate Indexes(order: seq<Remainder>, n: nat) {
    && (forall k | 0 <= k < |order| :: order[k].index < n)
    && (forall j, k | 0 <= j < k < |order| :: order[j].index != order[k].index)
  }

  /** Adds one unit to each of the first `left` entries of `order`. */
  function Bump(shares: seq<nat>, order: seq<Remainder>, left: int): (r: seq<nat>)
    requires Indexes(order, |shares|)
    ensures |r| == |shares|
    decreases |order|
  {
    if |order| == 0 || left == 0 then shares
    else
      var i := order[0].index;
      Bump(shares[i := shares[i] + 1], order[1..], left - 1)
  }

  function Distribute(parts: seq<Part>, left: int): (r: seq<nat>)
    ensures |r| == |parts|
  {
    OrderPlaces(parts);
    Bump(Floors(parts), Sort(Remainders(parts)), left)
  }

  function SplitBy(amount: nat, weights: seq<nat>): (shares: seq<nat>)
    ensures |shares| == |weights|
  {
    var total := Sum(weights);
    if total == 0 then seq(|weights|, i => 0)
    else
      var parts := Parts(amount, weights, total);
      Distribute(parts, amount - Sum(Floors(parts)))
  }

  function Ones(count: nat): (r: seq<nat>)
    ensures |r| == count
  {
    seq(count, i => 1)
  }

  function SplitEvenly(amount: nat, count: nat): (shares: seq<nat>)
    ensures |shares| == count
  {
    SplitBy(amount, Ones(count))
  }

  // ---------------------------------------------------------------- sorting

  lemma {:induction false} InsertMembers(x: Remainder, s: seq<Remainder>, y: Remainder)
    ensures multiset(Insert(x, s))[y] == multiset(s)[y] + if x == y then 1 else 0
  {
    if |s| == 0 || Before(x, s[0]) {
      assert multiset([x] + s) == multiset{x} + multiset(s);
    } else {
      InsertMembers(x, s[1..], y);
      assert s == [s[0]] + s[1..];
    }
  }

  lemma {:induction false} InsertSorted(x: Remainder, s: seq<Remainder>)
    requires Sorted(s)
    ensures Sorted(Insert(x, s))
  {
    var r := Insert(x, s);
    if |s| > 0 && !Before(x, s[0]) {
      InsertSorted(x, s[1..]);
      forall j | 0 < j < |r| ensures !Before(r[j], r[0]) {
        InsertMembers(x, s[1..], r[j]);
        assert r[j] in multiset(Insert(x, s[1..]));
        assert r[j] == x || r[j] in s[1..];
      }
    }
  }

  lemma {:induction false} SortMembers(s: seq<Remainder>, y: Remainder)
    ensures multiset(Sort(s))[y] == multiset(s)[y]
  {
    if |s| > 0 {
      var n := |s| - 1;
      SortMembers(s[..n], y);
      InsertMembers(s[n], Sort(s[..n]), y);
      assert s == s[..n] + [s[n]];
    }
  }

  lemma {:induction false} SortSorts(s: seq<Remainder>)
    ensures Sorted(Sort(s))
  {
    if |s| > 0 {
      SortSorts(s[..|s| - 1]);
      InsertSorted(s[|s| - 1], Sort(s[..|s| - 1]));
    }
  }

  lemma {:induction false} RemaindersOnce(parts: seq<Part>, y: Remainder)
    ensures multiset(Remainders(parts))[y]
         == if y.index < |parts| && parts[y.index].rest == y.rest then 1 else 0
  {
    var n := |parts| - 1;
    if n >= 0 {
      RemaindersOnce(parts[..n], y);
      assert Remainders(parts) == Remainders(parts[..n]) + [Remainder(parts[n].rest, n)];
    }
  }

  lemma Twice(s: seq<Remainder>, j: nat, k: nat)
    requires j < k < |s| && s[j] == s[k]
    ensures multiset(s)[s[j]] >= 2
  {
    assert s == s[..k] + s[k..];
    assert s[j] in multiset(s[..k]) && s[k] in multiset(s[k..]);
  }

  /** Sorting the remainders lists every index exactly once. */
  lemma OrderPlaces(parts: seq<Part>)
    ensures Indexes(Sort(Remainders(parts)), |parts|)
    ensures forall k | 0 <= k < |parts| ::
              var r := Sort(Remainders(parts))[k]; r.index < |parts| && parts[r.index].rest == r.rest
  {
    var order := Sort(Remainders(parts));
    forall k | 0 <= k < |order|
      ensures order[k].index < |parts| && parts[order[k].index].rest == order[k].rest
    {
      assert order[k] in multiset(order);
      SortMembers(Remainders(parts), order[k]);
      RemaindersOnce(parts, order[k]);
    }
    forall j, k | 0 <= j < k < |order| ensures order[j].index != order[k].index {
      if order[j].index == order[k].index {
        Twice(order, j, k);
        SortMembers(Remainders(parts), order[j]);
        RemaindersOnce(parts, order[j]);
      }
    }
  }

  /** Every index has a place in the order. */
  lemma Placed(parts: seq<Part>, i: nat) returns (k: nat)
    requires i < |parts|
    ensures k < |parts| && Sort(Remainders(parts))[k] == Remainder(parts[i].rest, i)
  {
    var order := Sort(Remainders(parts));
    var r := Remainder(parts[i].rest, i);
    SortMembers(Remainders(parts), r);
    RemaindersOnce(parts, r);
    assert r in multiset(order);
    k :| 0 <= k < |order| && order[k] == r;
  }

  // ---------------------------------------------------------------- bumping

  lemma {:induction false} BumpSum(shares: seq<nat>, order: seq<Remainder>, left: nat)
    requires Indexes(order, |shares|) && left <= |order|
    ensures Sum(Bump(shares, order, left)) == Sum(shares) + left
    decreases |order|
  {
    if |order| > 0 && left > 0 {
      var i := order[0].index;
      SumUpdate(shares, i, shares[i] + 1);
      BumpSum(shares[i := shares[i] + 1], order[1..], left - 1);
    }
  }

  lemma {:induction false} BumpElsewhere(shares: seq<nat>, order: seq<Remainder>, left: nat, i: nat)
    requires Indexes(order, |shares|) && i < |shares|
    requires forall k | 0 <= k < |order| :: order[k].index != i
    ensures Bump(shares, order, left)[i] == shares[i]
    decreases |order|
  {
    if |order| > 0 && left > 0 {
      var j := order[0].index;
      BumpElsewhere(shares[j := shares[j] + 1], order[1..], left - 1, i);
    }
  }

  /** Exactly the first `left` entries of `order` gain one. */
  lemma {:induction false} BumpAt(shares: seq<nat>, order: seq<Remainder>, left: nat, k: nat)
    requires Indexes(order, |shares|) && left <= |order| && k < |order|
    ensures var i := order[k].index;
      Bump(shares, order, left)[i] == shares[i] + if k < left then 1 else 0
    decreases |order|
  {
    if left > 0 {
      var i := order[0].index;
      var next := shares[i := shares[i] + 1];
      if k == 0 {
        BumpElsewhere(next, order[1..], left - 1, i);
      } else {
        assert order[1..][k - 1] == order[k];
        BumpAt(next, order[1..], left - 1, k - 1);
      }
    }
  }

  // ---------------------------------------------------------------- what is left over

  function RestsOf(order: seq<Remainder>): (r: seq<nat>)
    ensures |r| == |order|
  {
    seq(|order|, i requires 0 <= i < |order| => order[i].rest)
  }

  lemma {:induction false} InsertSum(x: Remainder, s: seq<Remainder>)
    ensures Sum(RestsOf(Insert(x, s))) == Sum(RestsOf(s)) + x.rest
  {
    if |s| == 0 || Before(x, s[0]) {
      assert RestsOf(Insert(x, s)) == [x.rest] + RestsOf(s);
      SumAppend([x.rest], RestsOf(s));
    } else {
      var t := RestsOf(Insert(x, s[1..]));
      InsertSum(x, s[1..]);
      assert RestsOf(Insert(x, s)) == [s[0].rest] + t;
      assert RestsOf(s) == [s[0].rest] + RestsOf(s[1..]);
      SumAppend([s[0].rest], t);
      SumAppend([s[0].rest], RestsOf(s[1..]));
    }
  }

  lemma {:induction false} SortSum(s: seq<Remainder>)
    ensures Sum(RestsOf(Sort(s))) == Sum(RestsOf(s))
  {
    if |s| > 0 {
      var n := |s| - 1;
      SortSum(s[..n]);
      InsertSum(s[n], Sort(s[..n]));
      assert RestsOf(s)[..n] == RestsOf(s[..n]);
    }
  }

  lemma {:induction false} ZeroSum(s: seq<int>)
    requires forall i | 0 <= i < |s| :: s[i] == 0
    ensures Sum(s) == 0
  {
    if |s| > 0 {
      ZeroSum(s[..|s| - 1]);
    }
  }

  lemma {:induction false} BoundedSum(s: seq<nat>, bound: nat)
    requires forall i | 0 <= i < |s| :: s[i] <= bound
    ensures 0 <= Sum(s) <= |s| * bound
  {
    if |s| > 0 {
      BoundedSum(s[..|s| - 1], bound);
      assert |s| * bound == (|s| - 1) * bound + bound;
    }
  }

  lemma Products(left: nat, k: nat, total: nat)
    requires left > k && total > 0
    ensures left * total > k * (total - 1)
  {
    MulMono(k + 1, left, total);
    MulMono(total - 1, total, k);
  }

  lemma ZeroTail(order: seq<Remainder>, k: nat, bound: nat)
    requires Sorted(order) && k < |order| && order[k].rest == 0
    requires forall i | 0 <= i < |order| :: order[i].rest <= bound
    ensures Sum(RestsOf(order)) <= k * bound
  {
    var rests := RestsOf(order);
    forall j | k < j < |order| ensures order[j].rest == 0 {
      assert !Before(order[j], order[k]);
    }
    ZeroSum(rests[k..]);
    BoundedSum(rests[..k], bound);
    assert rests == rests[..k] + rests[k..];
    SumAppend(rests[..k], rests[k..]);
  }

  /** A remainder of zero stands behind every positive one. */
  lemma PositiveFirst(parts: seq<Part>, k: nat, total: nat)
    requires k < |parts| && Sort(Remainders(parts))[k].rest == 0
    requires forall i | 0 <= i < |parts| :: parts[i].rest < total
    ensures Sum(Rests(parts)) <= k * (total - 1)
  {
    OrderPlaces(parts);
    SortSorts(Remainders(parts));
    SortSum(Remainders(parts));
    assert RestsOf(Remainders(parts)) == Rests(parts);
    ZeroTail(Sort(Remainders(parts)), k, total - 1);
  }

  /**
   The units left after flooring are fewer than the positive remainders, so none
   is ever handed to a remainder of zero.
   */
  lemma LeftOver(parts: seq<Part>, left: nat, total: nat)
    requires total > 0
    requires forall i | 0 <= i < |parts| :: parts[i].rest < total
    requires Sum(Rests(parts)) == left * total
    ensures left <= |parts|
    ensures forall k | 0 <= k < left :: Sort(Remainders(parts))[k].rest > 0
  {
    BoundedSum(Rests(parts), total - 1);
    if left > |parts| { Products(left, |parts|, total); }
    forall k | 0 <= k < left ensures Sort(Remainders(parts))[k].rest > 0 {
      if Sort(Remainders(parts))[k].rest == 0 {
        PositiveFirst(parts, k, total);
        Products(left, k, total);
      }
    }
  }

  lemma {:induction false} PartAt(amount: nat, weights: seq<nat>, total: nat, i: nat)
    requires total > 0 && i < |weights|
    ensures Parts(amount, weights, total)[i] == PartOf(amount, weights[i], total)
  {
    if i < |weights| - 1 {
      PartAt(amount, weights[..|weights| - 1], total, i);
    }
  }

  lemma PartExact(amount: nat, weight: nat, total: nat)
    requires total > 0
    ensures var p := PartOf(amount, weight, total);
      total * p.floor + p.rest == amount * weight && p.rest < total
  {
  }

  /** What flooring loses is exactly the remainders. */
  lemma {:induction false} PartsSum(amount: nat, weights: seq<nat>, total: nat)
    requires total > 0
    ensures var parts := Parts(amount, weights, total);
      total * Sum(Floors(parts)) + Sum(Rests(parts)) == amount * Sum(weights)
  {
    var n := |weights| - 1;
    if n >= 0 {
      var parts, fewer := Parts(amount, weights, total), Parts(amount, weights[..n], total);
      var last := PartOf(amount, weights[n], total);
      PartsSum(amount, weights[..n], total);
      PartExact(amount, weights[n], total);
      assert Floors(parts)[..n] == Floors(fewer) && Rests(parts)[..n] == Rests(fewer);
      Distributes(total, Sum(Floors(fewer)), last.floor);
      Distributes(amount, Sum(weights[..n]), weights[n]);
    }
  }

  lemma Distributes(a: int, b: int, c: int)
    ensures a * (b + c) == a * b + a * c
  {
  }

  /** The units that flooring leaves to hand out. */
  ghost function Left(amount: nat, weights: seq<nat>): (left: nat)
    requires Sum(weights) > 0
    ensures var parts := Parts(amount, weights, Sum(weights));
      && left == amount - Sum(Floors(parts)) && left <= |parts|
      && SplitBy(amount, weights) == Distribute(parts, left)
      && (forall k | 0 <= k < left :: Sort(Remainders(parts))[k].rest > 0)
  {
    var total := Sum(weights);
    var parts := Parts(amount, weights, total);
    var left := amount - Sum(Floors(parts));
    assert left >= 0 && Sum(Rests(parts)) == left * total by {
      PartsSum(amount, weights, total);
      LeftExact(total, amount, Sum(Floors(parts)), Sum(Rests(parts)));
    }
    assert forall i | 0 <= i < |parts| :: parts[i].rest < total by {
      forall i | 0 <= i < |parts| ensures parts[i].rest < total {
        PartAt(amount, weights, total, i);
        PartExact(amount, weights[i], total);
      }
    }
    LeftOver(parts, left, total);
    left
  }

  lemma LeftExact(total: nat, amount: nat, floors: nat, rests: nat)
    requires total > 0 && total * floors + rests == amount * total
    ensures amount >= floors && rests == (amount - floors) * total
  {
    assert (amount - floors) * total == amount * total - floors * total;
    if amount < floors {
      MulMono(1, floors - amount, total);
    }
  }

  // ---------------------------------------------------------------- theorems

  /** Nothing is lost and nothing is invented. */
  lemma SplitConserves(amount: nat, weights: seq<nat>)
    ensures Sum(SplitBy(amount, weights)) == if Sum(weights) > 0 then amount else 0
  {
    if Sum(weights) > 0 {
      var left := Left(amount, weights);
      var parts := Parts(amount, weights, Sum(weights));
      OrderPlaces(parts);
      BumpSum(Floors(parts), Sort(Remainders(parts)), left);
    } else {
      ZeroSum(SplitBy(amount, weights));
    }
  }

  /** The share at `i` is its floor, plus one exactly when its place is among the left-over units. */
  lemma ShareAt(amount: nat, weights: seq<nat>, i: nat) returns (k: nat)
    requires Sum(weights) > 0 && i < |weights|
    ensures var p := PartOf(amount, weights[i], Sum(weights));
      && k < |weights|
      && Sort(Remainders(Parts(amount, weights, Sum(weights))))[k] == Remainder(p.rest, i)
      && SplitBy(amount, weights)[i] == p.floor + if k < Left(amount, weights) then 1 else 0
  {
    var parts := Parts(amount, weights, Sum(weights));
    PartAt(amount, weights, Sum(weights), i);
    k := Placed(parts, i);
    OrderPlaces(parts);
    BumpAt(Floors(parts), Sort(Remainders(parts)), Left(amount, weights), k);
  }

  /** Each share is its exact quota rounded down, or up when it is not whole. */
  lemma SplitRounds(amount: nat, weights: seq<nat>, i: nat)
    requires Sum(weights) > 0 && i < |weights|
    ensures var p, share := PartOf(amount, weights[i], Sum(weights)), SplitBy(amount, weights)[i];
      share == p.floor || (p.rest > 0 && share == p.floor + 1)
  {
    var k := ShareAt(amount, weights, i);
  }

  lemma ZeroWeight(amount: nat, weights: seq<nat>, i: nat)
    requires i < |weights| && weights[i] == 0
    ensures SplitBy(amount, weights)[i] == 0
  {
    if Sum(weights) > 0 {
      SplitRounds(amount, weights, i);
    }
  }

  /** Nobody is given more than its weight while the weights cover the amount. */
  lemma SplitWithinWeight(amount: nat, weights: seq<nat>, i: nat)
    requires i < |weights|
    requires amount <= Sum(weights)
    ensures SplitBy(amount, weights)[i] <= weights[i]
  {
    if Sum(weights) > 0 {
      SplitRounds(amount, weights, i);
      PartExact(amount, weights[i], Sum(weights));
      QuotaWithin(amount, weights[i], Sum(weights), PartOf(amount, weights[i], Sum(weights)));
    }
  }

  lemma QuotaWithin(amount: nat, weight: nat, total: nat, p: Part)
    requires amount <= total && total * p.floor + p.rest == amount * weight && 0 < total
    ensures p.floor + (if p.rest > 0 then 1 else 0) <= weight
  {
    Distributes(weight, amount, total - amount);
    var slack := (if p.rest > 0 then p.floor + 1 else p.floor) - weight;
    if slack > 0 {
      Distributes(total, weight, p.floor - weight);
      assert p.rest == 0 ==> total * (p.floor - weight) > 0;
    }
  }

  /** A larger weight never gets less; of two equal weights the earlier gets at most one more. */
  lemma SplitFollowsWeights(amount: nat, weights: seq<nat>, i: nat, j: nat)
    requires i < |weights| && j < |weights|
    requires weights[i] > weights[j] || (weights[i] == weights[j] && i < j)
    ensures var shares := SplitBy(amount, weights);
      && shares[j] <= shares[i]
      && (weights[i] == weights[j] ==> shares[i] <= shares[j] + 1)
  {
    var total := Sum(weights);
    if total > 0 {
      var ki := ShareAt(amount, weights, i);
      var kj := ShareAt(amount, weights, j);
      var parts := Parts(amount, weights, total);
      SortSorts(Remainders(parts));
      PartsFollow(amount, weights[j], weights[i], total);
      var order := Sort(Remainders(parts));
      assert ki > kj ==> !Before(order[ki], order[kj]);
      if PartOf(amount, weights[i], total) == PartOf(amount, weights[j], total) && i > j {
        SameParts(amount, weights[j], weights[i], total);
        SplitConserves(amount, weights);
        ZeroAmount(weights, i);
        ZeroAmount(weights, j);
      }
    }
  }

  lemma PartsFollow(amount: nat, v: nat, w: nat, total: nat)
    requires v <= w && total > 0
    ensures var p, q := PartOf(amount, v, total), PartOf(amount, w, total);
      p.floor <= q.floor && (p.floor == q.floor ==> p.rest <= q.rest)
  {
    PartExact(amount, v, total);
    PartExact(amount, w, total);
    MulMono(v, w, amount);
    QuotaOrder(total, PartOf(amount, v, total), PartOf(amount, w, total));
  }

  lemma QuotaOrder(total: nat, p: Part, q: Part)
    requires p.rest < total && q.rest < total
    requires total * p.floor + p.rest <= total * q.floor + q.rest
    ensures p.floor <= q.floor && (p.floor == q.floor ==> p.rest <= q.rest)
  {
    if p.floor > q.floor {
      MulMono(q.floor + 1, p.floor, total);
    }
  }

  lemma SameParts(amount: nat, v: nat, w: nat, total: nat)
    requires v < w && total > 0
    requires PartOf(amount, v, total) == PartOf(amount, w, total)
    ensures amount == 0
  {
    PartExact(amount, v, total);
    PartExact(amount, w, total);
    Distributes(amount, v, w - v);
    if amount > 0 {
      MulMono(1, w - v, amount);
    }
  }

  lemma ZeroAmount(weights: seq<nat>, i: nat)
    requires i < |weights|
    ensures SplitBy(0, weights)[i] == 0
  {
    if Sum(weights) > 0 {
      SplitRounds(0, weights, i);
    }
  }

  // ---------------------------------------------------------------- the loop

  /** The share vector as it is filled and then topped up in place. */
  method ComputeSplit(amount: nat, weights: seq<nat>) returns (shares: seq<nat>)
    ensures shares == SplitBy(amount, weights)
  {
    var total := TotalWeight(weights);
    if total == 0 {
      return seq(|weights|, i => 0);
    }
    var remainders, given;
    shares, remainders, given := FillShares(amount, weights, total);
    shares := TopUp(shares, Sort(remainders), amount - given) by {
      OrderPlaces(Parts(amount, weights, total));
    }
  }

  method TotalWeight(weights: seq<nat>) returns (total: nat)
    ensures total == Sum(weights)
  {
    total := 0;
    for i := 0 to |weights|
      invariant total == Sum(weights[..i])
    {
      assert weights[..i + 1][..i] == weights[..i];
      total := total + weights[i];
    }
    assert weights[..|weights|] == weights;
  }

  method FillShares(amount: nat, weights: seq<nat>, total: nat)
    returns (shares: seq<nat>, remainders: seq<Remainder>, given: nat)
    requires total > 0
    ensures var parts := Parts(amount, weights, total);
      shares == Floors(parts) && remainders == Remainders(parts) && given == Sum(shares)
  {
    shares, remainders, given := [], [], 0;
    for i := 0 to |weights|
      invariant shares == Floors(Parts(amount, weights[..i], total))
      invariant remainders == Remainders(Parts(amount, weights[..i], total))
      invariant given == Sum(shares)
    {
      var p := PartOf(amount, weights[i], total);
      assert weights[..i + 1][..i] == weights[..i];
      SumAppend(shares, [p.floor]);
      shares := shares + [p.floor];
      remainders := remainders + [Remainder(p.rest, i)];
      given := given + p.floor;
    }
    assert weights[..|weights|] == weights;
  }

  method TopUp(floors: seq<nat>, order: seq<Remainder>, units: int) returns (shares: seq<nat>)
    requires Indexes(order, |floors|)
    ensures shares == Bump(floors, order, units)
  {
    shares := floors;
    var left, k := units, 0;
    while k < |order| && left != 0
      invariant 0 <= k <= |order| && |shares| == |floors|
      invariant Bump(shares, order[k..], left) == Bump(floors, order, units)
    {
      var i := order[k].index;
      assert order[k..][0] == order[k] && order[k..][1..] == order[k + 1..];
      shares := shares[i := shares[i] + 1];
      left := left - 1;
      k := k + 1;
    }
  }
}
