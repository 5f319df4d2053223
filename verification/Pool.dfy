/** Prioritised targets of one rule: which one is active, and how failover walks the list. */
module Pool {
  import opened Options

  /** The highest-priority healthy target, or the primary when everything is down. */
  predicate IsActive(healthy: seq<bool>, active: nat) {
    && active < |healthy|
    && ((healthy[active] && forall j | 0 <= j < active :: !healthy[j])
        || (active == 0 && forall j | 0 <= j < |healthy| :: !healthy[j]))
  }

  /** The healthy targets in priority order. */
  function Healthy(h: seq<bool>): (r: seq<nat>) {
    if |h| == 0 then [] else Healthy(h[..|h| - 1]) + if h[|h| - 1] then [|h| - 1] else []
  }

  lemma {:induction false} HealthyListed(h: seq<bool>)
    ensures forall k | 0 <= k < |Healthy(h)| :: Healthy(h)[k] < |h| && h[Healthy(h)[k]]
    ensures forall k, l | 0 <= k < l < |Healthy(h)| :: Healthy(h)[k] < Healthy(h)[l]
    ensures |Healthy(h)| <= |h|
  {
    if |h| > 0 { HealthyListed(h[..|h| - 1]); }
  }

  lemma {:induction false} HealthyComplete(h: seq<bool>, i: nat)
    requires i < |h| && h[i]
    ensures i in Healthy(h)
  {
    if i < |h| - 1 { HealthyComplete(h[..|h| - 1], i); }
  }

  lemma ActiveIsFirst(h: seq<bool>, active: nat)
    requires IsActive(h, active)
    ensures if Healthy(h) == [] then active == 0 && !h[0] else active == Healthy(h)[0] && h[active]
  {
    var r := Healthy(h);
    HealthyListed(h);
    if h[active] {
      HealthyComplete(h, active);
      var k :| 0 <= k < |r| && r[k] == active;
      assert forall j | 0 < j < |r| :: r[0] < r[j];
    }
  }

  lemma {:induction false} HealthyWithout(h: seq<bool>, i: nat)
    requires i < |h| && h[i] && forall j | 0 <= j < i :: !h[j]
    ensures Healthy(h) == [i] + Healthy(h[i := false])
  {
    var n := |h| - 1;
    var g := h[i := false];
    if i == n {
      assert g[..n] == h[..n];
      NoneHealthy(h[..n]);
    } else {
      HealthyWithout(h[..n], i);
      assert g[..n] == h[..n][i := false];
    }
  }

  lemma {:induction false} NoneHealthy(h: seq<bool>)
    requires forall j | 0 <= j < |h| :: !h[j]
    ensures Healthy(h) == []
  {
    if |h| > 0 { NoneHealthy(h[..|h| - 1]); }
  }

  /** Every target of the list, and then the primary once more when an attempt is left for it. */
  function Plan(order: seq<nat>, rounds: nat): seq<nat> {
    if |order| < rounds && (order == [] || order[|order| - 1] != 0) then order + [0] else order
  }

  /** The targets a failing connect goes through: the healthy ones in priority order first. */
  function Attempts(h: seq<bool>): seq<nat> {
    Plan(Healthy(h), |h|)
  }

  function Downed(h: seq<bool>, tried: seq<nat>): (r: seq<bool>)
    ensures |r| == |h|
  {
    seq(|h|, i requires 0 <= i < |h| => h[i] && i !in tried)
  }

  lemma DownedNext(h: seq<bool>, tried: seq<nat>, i: nat)
    requires i < |h|
    ensures Downed(h, tried + [i]) == Downed(h, tried)[i := false]
  {
  }

  lemma NothingLeft(h: seq<bool>)
    requires Healthy(h) == []
    ensures forall j | 0 <= j < |h| :: !h[j]
  {
    forall j | 0 <= j < |h| ensures !h[j] {
      if h[j] { HealthyComplete(h, j); }
    }
  }

  /** The next attempt of a connect that has failed so far follows the plan. */
  lemma Proceeds(order: seq<nat>, rounds: nat, k: nat, i: nat)
    requires k <= |order| && k < rounds
    requires if k < |order| then i == order[k] else i == 0 && (k > 0 ==> order[k - 1] != 0)
    ensures order[..k] + [i] <= Plan(order, rounds)
    ensures k < |order| ==> order[..k] + [i] == order[..k + 1]
    ensures k == |order| ==> order[..k] + [i] == Plan(order, rounds)
  {
  }

  /** A connect that has failed on `tried`, all of them healthy at the start, and goes to `active` next. */
  predicate Walking(h: seq<bool>, tried: seq<nat>, now: seq<bool>, active: nat) {
    var order := Healthy(h);
    && |tried| <= |order| && tried == order[..|tried|]
    && now == Downed(h, tried) && Healthy(now) == order[|tried|..]
    && (if |tried| < |order| then active == order[|tried|]
        else active == 0 && (tried != [] ==> tried[|tried| - 1] != 0))
  }

  lemma WalkStarts(h: seq<bool>, active: nat)
    requires IsActive(h, active)
    ensures Walking(h, [], h, active)
  {
    ActiveIsFirst(h, active);
    assert Downed(h, []) == h;
  }

  /** Connected to `target` after failing on the others, which are down. */
  predicate Reached(h: seq<bool>, tried: seq<nat>, now: seq<bool>, target: nat, confirms: bool) {
    && |tried| > 0 && target == tried[|tried| - 1] < |h|
    && var down := Downed(h, tried[..|tried| - 1]);
       now == if confirms then down[target := true] else down
  }

  /** The whole plan was gone through, and everything is down. */
  predicate GaveUp(h: seq<bool>, tried: seq<nat>, now: seq<bool>) {
    tried == Attempts(h) && forall i | 0 <= i < |now| :: !now[i]
  }

  lemma WalkNext(h: seq<bool>, tried: seq<nat>, now: seq<bool>, active: nat, confirms: bool)
    requires Walking(h, tried, now, active) && |tried| < |h| && active < |h|
    ensures tried + [active] <= Attempts(h)
    ensures Reached(h, tried + [active], if confirms then now[active := true] else now, active, confirms)
  {
    Proceeds(Healthy(h), |h|, |tried|, active);
    assert (tried + [active])[..|tried|] == tried;
  }

  /** After a failed attempt the walk goes on, or the plan has been gone through. */
  lemma WalkOn(h: seq<bool>, tried: seq<nat>, now: seq<bool>, i: nat, active: nat)
    requires Walking(h, tried, now, i) && |tried| < |h| && i < |h|
    requires FailedOver(now, i, active)
    ensures active != i ==> Walking(h, tried + [i], now[i := false], active)
    ensures active == i ==> GaveUp(h, tried + [i], now[i := false])
  {
    Proceeds(Healthy(h), |h|, |tried|, i);
    DownedNext(h, tried, i);
    if active == i { NothingLeft(now[i := false]); }
  }

  /** The walk has used up every round. */
  lemma WalkEnds(h: seq<bool>, tried: seq<nat>, now: seq<bool>, active: nat)
    requires Walking(h, tried, now, active) && |tried| == |h| > 0
    ensures GaveUp(h, tried, now)
  {
    HealthyListed(h);
    NothingLeft(now);
  }

  /** Target `i` was active and is down now; the active index moved on unless nothing is left. */
  predicate FailedOver(was: seq<bool>, i: nat, active: nat)
    requires i < |was|
  {
    var left := Healthy(was[i := false]);
    && left == (if Healthy(was) == [] then [] else Healthy(was)[1..])
    && (active == i ==> left == [] && i == 0)
    && (if left == [] then active == 0 else active == left[0])
  }

  ghost predicate AllFail(answers: nat -> bool, k: nat) {
    forall j | 0 <= j < k :: !answers(j)
  }

  lemma FailsOnceMore(answers: nat -> bool, k: nat)
    requires AllFail(answers, k) && !answers(k)
    ensures AllFail(answers, k + 1)
  {
  }

  class TargetPool {
    var healthy: array<bool>
    var active: nat

    ghost predicate Valid()
      reads this, healthy
    {
      IsActive(healthy[..], active)
    }

    constructor (targets: nat)
      requires targets > 0
      ensures fresh(healthy) && healthy.Length == targets
      ensures Valid() && active == 0 && forall i | 0 <= i < targets :: healthy[i]
    {
      active := 0;
      healthy := new bool[targets](_ => true);
    }

    /** Recomputes the active index from the health flags. */
    method UpdateActive()
      requires healthy.Length > 0
      modifies this`active
      ensures Valid()
    {
      var next := 0;
      while next < healthy.Length && !healthy[next]
        invariant 0 <= next <= healthy.Length
        invariant forall j | 0 <= j < next :: !healthy[j]
      {
        next := next + 1;
      }
      if next == healthy.Length { next := 0; }
      if next != active { active := next; }
    }

    method MarkDown(i: nat) returns (flipped: bool)
      requires Valid() && i < healthy.Length
      modifies this`active, healthy
      ensures Valid() && healthy[..] == old(healthy[..])[i := false] && flipped == old(healthy[i])
    {
      flipped := healthy[i];
      if flipped {
        healthy[i] := false;
        UpdateActive();
      }
    }

    method MarkUp(i: nat)
      requires Valid() && i < healthy.Length
      modifies this`active, healthy
      ensures Valid() && healthy[..] == old(healthy[..])[i := true]
    {
      if !healthy[i] {
        healthy[i] := true;
        UpdateActive();
      }
    }

    /** Marks a failed target down; stuck when the active target does not move away from it. */
    method FailOver(i: nat) returns (stuck: bool)
      requires Valid() && i == active
      modifies this`active, healthy
      ensures Valid() && healthy[..] == old(healthy[..])[i := false]
      ensures stuck == (active == i)
      ensures FailedOver(old(healthy[..]), i, active)
    {
      ghost var before := healthy[..];
      ActiveIsFirst(before, i);
      var flipped := MarkDown(i);
      if flipped {
        HealthyWithout(before, i);
      } else {
        assert healthy[..] == before;
      }
      ActiveIsFirst(healthy[..], active);
      stuck := active == i;
    }

    /**
     Connects to the active target, falling through the list on failure. `answers(k)` says whether
     attempt `k` gets through; a TCP connect also confirms the target, a UDP session does not.
     */
    method ConnectActive(answers: nat -> bool, confirms: bool) returns (target: Option<nat>, tried: seq<nat>)
      requires Valid()
      modifies this`active, healthy
      ensures Valid() && |tried| > 0 && tried <= Attempts(old(healthy[..])) && AllFail(answers, |tried| - 1)
      ensures target.Some? <==> answers(|tried| - 1)
      ensures target.None? ==> GaveUp(old(healthy[..]), tried, healthy[..])
      ensures target.Some? ==> Reached(old(healthy[..]), tried, healthy[..], target.value, confirms)
    {
      ghost var h := healthy[..];
      tried := [];
      WalkStarts(h, active);
      while |tried| < healthy.Length
        invariant |tried| <= healthy.Length == |h| && Valid() && AllFail(answers, |tried|)
        invariant Walking(h, tried, healthy[..], active)
        decreases healthy.Length - |tried|
      {
        var i := active;
        ghost var now := healthy[..];
        WalkNext(h, tried, now, i, confirms);
        if answers(|tried|) {
          if confirms { MarkUp(i); }
          return Some(i), tried + [i];
        }
        FailsOnceMore(answers, |tried|);
        var stuck := FailOver(i);
        WalkOn(h, tried, now, i, active);
        tried := tried + [i];
        if stuck { return None, tried; }
      }
      WalkEnds(h, tried, healthy[..], active);
      target := None;
    }
  }
}
