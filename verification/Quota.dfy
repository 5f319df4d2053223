/**
 A user's traffic quota. Each local hour is one billing period; `used` is the sum of the
 settled hours plus the current hour's bill.
 */
module Quota {
  import opened Options
  import opened Sums

  datatype Direction = Upload | Download

  datatype Metering = LargerDirection | BothDirections | DownloadOnly

  function Bill(m: Metering, up: nat, down: nat): nat {
    match m
    case LargerDirection => if up > down then up else down
    case BothDirections => up + down
    case DownloadOnly => down
  }

  /** The largest 64-bit value stands for "unlimited". */
  const NO_LIMIT: nat := 0xFFFF_FFFF_FFFF_FFFF

  /** Every persisted counter. */
  datatype Saved = Saved(upload: nat, download: nat, settled: nat, hourUp: nat, hourDown: nat, hour: int)

  datatype State = State(saved: Saved, limit: nat, metering: Metering, exhausted: bool, watched: bool)

  function LimitOf(s: State): Option<nat> {
    if s.limit == NO_LIMIT then None else Some(s.limit)
  }

  function BilledBytes(c: Saved, m: Metering): nat {
    c.settled + Bill(m, c.hourUp, c.hourDown)
  }

  function Used(s: State): nat {
    BilledBytes(s.saved, s.metering)
  }

  predicate Enforced(s: State) {
    LimitOf(s).Some? && Used(s) >= LimitOf(s).value
  }

  /** The flag and the broadcast value say what the counters say. */
  predicate Exact(s: State) {
    s.exhausted == s.watched == Enforced(s)
  }

  function Settle(c: Saved, m: Metering, hour: int): Saved {
    if c.hour == hour then c else c.(settled := BilledBytes(c, m), hourUp := 0, hourDown := 0, hour := hour)
  }

  function RollTo(s: State, hour: int): State {
    s.(saved := Settle(s.saved, s.metering, hour))
  }

  function Record(c: Saved, n: nat, d: Direction): Saved {
    match d
    case Upload => c.(upload := c.upload + n, hourUp := c.hourUp + n)
    case Download => c.(download := c.download + n, hourDown := c.hourDown + n)
  }

  function Consume(s: State, n: nat, d: Direction, hour: int): State {
    if s.exhausted then s
    else
      var rolled := RollTo(s, hour);
      var t := rolled.(saved := Record(rolled.saved, n, d));
      if Enforced(t) then t.(exhausted := true, watched := true) else t
  }

  function SetLimit(s: State, limit: Option<nat>): State {
    var t := s.(limit := if limit.Some? then limit.value else NO_LIMIT);
    var now := limit.Some? && Used(t) >= limit.value;
    t.(exhausted := now, watched := now)
  }

  function SetMetering(s: State, m: Metering): State {
    var t := s.(metering := m);
    if LimitOf(t).Some? then SetLimit(t, LimitOf(t)) else t
  }

  function Restore(saved: Saved, limit: Option<nat>, m: Metering, hour: int): State {
    var c := if saved.hour == hour then saved
             else saved.(settled := saved.settled + Bill(m, saved.hourUp, saved.hourDown),
                         hourUp := 0, hourDown := 0, hour := hour);
    var now := limit.Some? && BilledBytes(c, m) >= limit.value;
    State(c, if limit.Some? then limit.value else NO_LIMIT, m, now, now)
  }

  /** A row of the old schema, billed once by its larger direction. */
  function Upgraded(up: nat, down: nat): Saved {
    Saved(up, down, if up > down then up else down, 0, 0, 0)
  }

  /** The billed total shared between the directions in proportion to the raw ones. */
  function BilledSplit(s: State): (nat, nat) {
    var total := s.saved.upload + s.saved.download;
    if total == 0 then (0, 0)
    else
      var used := if Used(s) < total then Used(s) else total;
      SplitFits(used, s.saved.upload, s.saved.download);
      var up := used * s.saved.upload / total;
      (up, used - up)
  }

  lemma SplitFits(used: nat, up: nat, down: nat)
    requires 0 < up + down && used <= up + down
    ensures var billed := used * up / (up + down); billed <= used && billed <= up && used - billed <= down
  {
    var total := up + down;
    MulMono(used, total, up);
    FloorAtMost(used * up, total, up);
    MulMono(up, total, used);
    FloorAtMost(used * up, total, used);
    Cross(used, up, down);
    FloorAtLeast(used * up, total, used - down);
  }

  lemma Cross(used: nat, up: nat, down: nat)
    requires used <= up + down
    ensures (used - down) * (up + down) <= used * up
  {
    assert used * up - (used - down) * (up + down) == (up + down - used) * down;
    MulMono(0, up + down - used, down);
  }

  lemma FloorAtMost(x: nat, total: nat, k: nat)
    requires total > 0 && x <= k * total
    ensures x / total <= k
  {
    if x / total > k { MulMono(k + 1, x / total, total); }
  }

  lemma FloorAtLeast(x: nat, total: nat, k: int)
    requires total > 0 && k * total <= x
    ensures x / total >= k
  {
    if x / total < k { MulMono(x / total + 1, k, total); }
  }

  /** The counters as they are updated in place. */
  class UserQuota {
    var limit: nat
    var totalUpload: nat
    var totalDownload: nat
    var settled: nat
    var hourUpload: nat
    var hourDownload: nat
    var bucketHour: int
    var metering: Metering
    var exhaustedFlag: bool
    var exhausted: bool

    function View(): State
      reads this
    {
      State(Saved(totalUpload, totalDownload, settled, hourUpload, hourDownload, bucketHour),
            limit, metering, exhaustedFlag, exhausted)
    }

    constructor (limit: Option<nat>, saved: Saved, metering: Metering, nowHour: int)
      ensures View() == Restore(saved, limit, metering, nowHour)
    {
      var settled, up, down := saved.settled, saved.hourUp, saved.hourDown;
      if saved.hour != nowHour {
        settled, up, down := saved.settled + Bill(metering, saved.hourUp, saved.hourDown), 0, 0;
      }
      var used := settled + Bill(metering, up, down);
      var now := limit.Some? && used >= limit.value;
      this.limit := if limit.Some? then limit.value else NO_LIMIT;
      totalUpload, totalDownload := saved.upload, saved.download;
      this.settled, hourUpload, hourDownload := settled, up, down;
      bucketHour, this.metering := nowHour, metering;
      exhaustedFlag, exhausted := now, now;
    }

    method TryConsumeAt(n: nat, d: Direction, nowHour: int) returns (ok: bool)
      modifies this
      ensures View() == Consume(old(View()), n, d, nowHour)
      ensures ok <==> !View().exhausted
    {
      if exhaustedFlag { return false; }
      RollOverAt(nowHour);
      match d {
        case Upload =>
          totalUpload := totalUpload + n;
          hourUpload := hourUpload + n;
        case Download =>
          totalDownload := totalDownload + n;
          hourDownload := hourDownload + n;
      }
      if limit != NO_LIMIT && settled + Bill(metering, hourUpload, hourDownload) >= limit {
        exhaustedFlag := true;
        exhausted := true;
        return false;
      }
      return true;
    }

    method RollOverAt(nowHour: int)
      modifies this
      ensures View() == RollTo(old(View()), nowHour)
    {
      if bucketHour != nowHour {
        var up, down := hourUpload, hourDownload;
        hourUpload, hourDownload := 0, 0;
        settled := settled + Bill(metering, up, down);
        bucketHour := nowHour;
      }
    }

    method ChangeLimit(newLimit: Option<nat>)
      modifies this
      ensures View() == SetLimit(old(View()), newLimit)
    {
      limit := if newLimit.Some? then newLimit.value else NO_LIMIT;
      var now := newLimit.Some? && settled + Bill(metering, hourUpload, hourDownload) >= newLimit.value;
      exhaustedFlag := now;
      if exhausted != now { exhausted := now; }
    }

    method ChangeMetering(newMetering: Metering)
      modifies this
      ensures View() == SetMetering(old(View()), newMetering)
    {
      metering := newMetering;
      if limit != NO_LIMIT {
        ChangeLimit(Some(limit));
      }
    }
  }
}
