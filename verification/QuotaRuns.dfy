/** Whole sequential histories of a quota, restarts included. */
module QuotaRuns {
  import opened Options
  import opened Sums
  import opened Quota
  import Ledger

  datatype Op =
    | Take(n: nat, d: Direction, at: int)
    | Roll(at: int)
    | Limit(limit: Option<nat>)
    | Meter(metering: Metering)
    | Restart(limit: Option<nat>, metering: Metering, at: int)

  function Apply(s: State, op: Op): State {
    match op
    case Take(n, d, at) => Consume(s, n, d, at)
    case Roll(at) => RollTo(s, at)
    case Limit(limit) => SetLimit(s, limit)
    case Meter(metering) => SetMetering(s, metering)
    case Restart(limit, metering, at) => Restore(s.saved, limit, metering, at)
  }

  function Run(s: State, ops: seq<Op>): State {
    if |ops| == 0 then s else Apply(Run(s, ops[..|ops| - 1]), ops[|ops| - 1])
  }

  // ---------------------------------------------------------------- coverage and exactness

  /** No more is billed or waiting to be billed than was carried. */
  predicate Covered(c: Saved) {
    c.settled + c.hourUp + c.hourDown <= c.upload + c.download
  }

  function Carried(c: Saved): nat { c.upload + c.download }

  /** A row of the old schema keeps its totals and bills its larger direction once, under any rule. */
  lemma UpgradeIsCovered(up: nat, down: nat, m: Metering, limit: Option<nat>, hour: int)
    ensures var c := Upgraded(up, down);
      && Covered(c) && c.upload == up && c.download == down
      && BilledBytes(c, m) == (if up > down then up else down) == Used(Restore(c, limit, m, hour))
  {
  }

  lemma StepKeeps(s: State, op: Op)
    requires Covered(s.saved) && Exact(s) && Carried(Apply(s, op).saved) < NO_LIMIT
    ensures Covered(Apply(s, op).saved) && Exact(Apply(s, op))
  {
  }

  lemma StepCarries(s: State, op: Op)
    ensures Carried(s.saved) <= Carried(Apply(s, op).saved)
  {
  }

  /**
   In every history whose byte counters stay below the largest 64-bit value, what is billed is
   covered by what was carried, and the exhausted flag and its broadcast are exact.
   */
  lemma {:induction false} RunIsExact(s: State, ops: seq<Op>)
    requires Covered(s.saved) && Exact(s) && Carried(Run(s, ops).saved) < NO_LIMIT
    ensures Covered(Run(s, ops).saved) && Exact(Run(s, ops))
  {
    var n := |ops| - 1;
    if n >= 0 {
      StepCarries(Run(s, ops[..n]), ops[n]);
      RunIsExact(s, ops[..n]);
      StepKeeps(Run(s, ops[..n]), ops[n]);
    }
  }

  /** A restored quota starts out exact, whatever was saved. */
  lemma RestoreIsExact(saved: Saved, limit: Option<nat>, m: Metering, hour: int)
    requires Covered(saved) && Carried(saved) < NO_LIMIT
    ensures Covered(Restore(saved, limit, m, hour).saved) && Exact(Restore(saved, limit, m, hour))
  {
  }

  /** The reported split adds up to the billed total, and neither part exceeds its direction. */
  lemma SplitAddsUp(s: State, ops: seq<Op>)
    requires Covered(s.saved) && Exact(s) && Carried(Run(s, ops).saved) < NO_LIMIT
    ensures var t := Run(s, ops);
      var (up, down) := BilledSplit(t);
      up + down == Used(t) && up <= t.saved.upload && down <= t.saved.download
  {
    RunIsExact(s, ops);
    var t := Run(s, ops);
    if Carried(t.saved) > 0 { SplitFits(Used(t), t.saved.upload, t.saved.download); }
  }

  /**
   From any row at all, the parts sum to what is billed exactly when no more is billed than was carried,
   and the upload's part is then to the whole as the upload is to what was carried, rounded down.
   */
  lemma SplitIsExact(s: State)
    ensures var (up, down) := BilledSplit(s);
      && up <= s.saved.upload && down <= s.saved.download
      && (up + down == Used(s) <==> Used(s) <= Carried(s.saved))
      && (0 < Carried(s.saved) && Used(s) <= Carried(s.saved) ==>
            up * Carried(s.saved) <= Used(s) * s.saved.upload < (up + 1) * Carried(s.saved))
  {
    var used := if Used(s) < Carried(s.saved) then Used(s) else Carried(s.saved);
    if Carried(s.saved) > 0 {
      SplitFits(used, s.saved.upload, s.saved.download);
      Quotient(used * s.saved.upload, Carried(s.saved));
    }
  }

  lemma Quotient(x: nat, total: nat)
    requires total > 0
    ensures x / total * total <= x < (x / total + 1) * total
  {
    assert x == x / total * total + x % total;
  }

  // ---------------------------------------------------------------- lifetime totals

  /** What one direction was let through. */
  function Let(s: State, ops: seq<Op>, d: Direction): nat {
    if |ops| == 0 then 0
    else
      var before, op := Run(s, ops[..|ops| - 1]), ops[|ops| - 1];
      Let(s, ops[..|ops| - 1], d) + if op.Take? && op.d == d && !before.exhausted then op.n else 0
  }

  /** The lifetime totals are what was let through in each direction, over every history. */
  lemma {:induction false} TotalsAreTraffic(s: State, ops: seq<Op>)
    ensures Run(s, ops).saved.upload == s.saved.upload + Let(s, ops, Upload)
    ensures Run(s, ops).saved.download == s.saved.download + Let(s, ops, Download)
  {
    if |ops| > 0 { TotalsAreTraffic(s, ops[..|ops| - 1]); }
  }

  // ---------------------------------------------------------------- overshoot

  /** One chunk is the most a user gets past its limit. */
  lemma Overshoot(s: State, n: nat, d: Direction, at: int)
    requires Exact(s) && LimitOf(s).Some?
    ensures var after := Consume(s, n, d, at);
      Used(after) < LimitOf(s).value + n || (s.exhausted && after == s)
  {
  }

  /** The engine's update of one user's limit. */
  function ApplyLimit(s: State, limit: nat): State {
    if LimitOf(s) == Some(limit) then s else SetLimit(s, Some(limit))
  }

  predicate Chunked(ops: seq<Op>, chunk: nat) {
    forall op | op in ops :: op.Roll? || (op.Take? && op.n <= chunk)
  }

  lemma {:induction false} SpendStays(s: State, ops: seq<Op>, chunk: nat, top: nat)
    requires Exact(s) && LimitOf(s).Some? && Chunked(ops, chunk) && chunk > 0
    requires Used(s) < top && LimitOf(s).value + chunk <= top
    ensures Exact(Run(s, ops)) && Run(s, ops).limit == s.limit && Used(Run(s, ops)) < top
  {
    var n := |ops| - 1;
    if n >= 0 {
      SpendStays(s, ops[..n], chunk, top);
      var before := Run(s, ops[..n]);
      assert ops[n] in ops;
      if ops[n].Take? { Overshoot(before, ops[n].n, ops[n].d, ops[n].at); }
    }
  }

  /** Once the book's limit is applied, a user stays below its positive balance plus one chunk. */
  lemma BalanceBoundsMetering(b: Ledger.Book, name: string, s: State, ops: seq<Op>, chunk: nat)
    requires Exact(s) && Chunked(ops, chunk) && chunk > 0
    requires name in b.baselines && Used(s) < Ledger.Limit(b, name).value + chunk
    requires Ledger.Limit(b, name).value < NO_LIMIT
    ensures var after := Run(ApplyLimit(s, Ledger.Limit(b, name).value), ops);
      var balance := Get(b.balances, name);
      && Exact(after) && LimitOf(after) == Ledger.Limit(b, name)
      && Used(after) - b.baselines[name] < (if balance > 0 then balance else 0) + chunk
  {
    var limit := Ledger.Limit(b, name).value;
    SpendStays(ApplyLimit(s, limit), ops, chunk, limit + chunk);
  }
}
