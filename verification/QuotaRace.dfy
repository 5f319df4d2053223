/**
 The quota's counters under concurrency: consumers, rollovers, snapshots and lock-free readers,
 interleaved at single atomic operations. `base`, `baseUp`, `baseDown`, `recordedUp`, `recordedDown` and `hours` only
 keep track of what happened; no step looks at them.
 */
module QuotaRace {
  import opened Options
  import opened Sums
  import opened Quota

  /** A settled hour: the bytes taken out of the buckets and the rule they were billed by. */
  datatype Hour = Hour(m: Metering, up: nat, down: nat)

  function Ups(hours: seq<Hour>): nat {
    if |hours| == 0 then 0 else Ups(hours[..|hours| - 1]) + hours[|hours| - 1].up
  }

  function Downs(hours: seq<Hour>): nat {
    if |hours| == 0 then 0 else Downs(hours[..|hours| - 1]) + hours[|hours| - 1].down
  }

  function Bills(hours: seq<Hour>): nat {
    if |hours| == 0 then 0
    else
      var h := hours[|hours| - 1];
      Bills(hours[..|hours| - 1]) + Bill(h.m, h.up, h.down)
  }

  /** Bytes still to be recorded once the hour is right; a plain rollover has none. */
  datatype Job = Job(at: int, n: nat, d: Direction)

  /** What is known when the snapshot takes the lock: bytes recorded, hours settled and the hour itself. */
  datatype Start = Start(up: nat, down: nat, hours: seq<Hour>, hour: int)

  datatype Task =
    | Idle
    // roll_over_at and settle_to
    | CheckHour(job: Job)
    | WantLock(job: Job)
    | Recheck(job: Job)
    | SwapUp(job: Job)
    | SwapDown(job: Job, up: nat)
    | BillHour(job: Job, up: nat, down: nat)
    | AddSettled(job: Job, up: nat, down: nat, m: Metering)
    | StoreHour(job: Job)
    | Unlock(job: Job)
    // recording
    | AddTotal(job: Job)
    | AddBucket(job: Job)
    // used()
    | LoadSettled
    | LoadMetering(settled: nat, seenUp: nat, seenDown: nat)
    | LoadUp(settled: nat, m: Metering, seenUp: nat, seenDown: nat)
    | LoadDown(settled: nat, m: Metering, up: nat, seenUp: nat, seenDown: nat)
    | Read(value: nat)
    // snapshot()
    | WantSnapshot
    | SnapUpload(start: Start)
    | SnapDownload(start: Start, upload: nat)
    | SnapSettled(start: Start, upload: nat, download: nat)
    | SnapHourUp(start: Start, upload: nat, download: nat, settled: nat)
    | SnapHourDown(start: Start, upload: nat, download: nat, settled: nat, hourUp: nat)
    | SnapHour(start: Start, upload: nat, download: nat, settled: nat, hourUp: nat, hourDown: nat)
    | SnapUnlock(start: Start, saved: Saved)
    | Snapped(start: Start, saved: Saved)

  datatype World = World(c: Saved, metering: Metering, lock: Option<nat>, tasks: map<nat, Task>,
                         base: nat, baseUp: int, baseDown: int, recordedUp: nat, recordedDown: nat,
                         hours: seq<Hour>)

  datatype Action =
    | Start(t: nat, first: Task)
    | Advance(t: nat)
    | Meter(m: Metering)

  /** The section of a task that runs under `settle_lock`. */
  predicate Holds(task: Task) {
    || task.Recheck? || task.SwapUp? || task.SwapDown? || task.BillHour? || task.AddSettled?
    || task.StoreHour? || task.Unlock?
    || task.SnapUpload? || task.SnapDownload? || task.SnapSettled? || task.SnapHourUp? || task.SnapHourDown?
    || task.SnapHour? || task.SnapUnlock?
  }

  predicate Enabled(w: World, a: Action) {
    match a
    case Start(t, first) =>
      && (t in w.tasks ==> w.tasks[t].Idle? || w.tasks[t].Read? || w.tasks[t].Snapped?)
      && (first.CheckHour? || first.LoadSettled? || first.WantSnapshot?)
    case Advance(t) =>
      && t in w.tasks && !w.tasks[t].Idle? && !w.tasks[t].Read? && !w.tasks[t].Snapped?
      && (w.tasks[t].WantLock? || w.tasks[t].WantSnapshot? ==> w.lock.None?)
    case Meter(m) => true
  }

  /** The shared state after one atomic operation of a task. */
  function Shared(w: World, t: nat): World
    requires t in w.tasks
  {
    match w.tasks[t]
    case WantLock(_) => w.(lock := Some(t))
    case WantSnapshot => w.(lock := Some(t))
    case SwapUp(_) => w.(c := w.c.(hourUp := 0))
    case SwapDown(_, _) => w.(c := w.c.(hourDown := 0))
    case AddSettled(_, up, down, m) =>
      w.(c := w.c.(settled := w.c.settled + Bill(m, up, down)), hours := w.hours + [Hour(m, up, down)])
    case StoreHour(job) => w.(c := w.c.(hour := job.at))
    case Unlock(_) => w.(lock := None)
    case SnapUnlock(_, _) => w.(lock := None)
    case AddTotal(job) =>
      w.(c := if job.d.Upload? then w.c.(upload := w.c.upload + job.n) else w.c.(download := w.c.download + job.n))
    case AddBucket(job) =>
      if job.d.Upload?
      then w.(c := w.c.(hourUp := w.c.hourUp + job.n), recordedUp := w.recordedUp + job.n)
      else w.(c := w.c.(hourDown := w.c.hourDown + job.n), recordedDown := w.recordedDown + job.n)
    case _ => w
  }

  /** Where a task goes next, and what it remembers. */
  function Next(w: World, t: nat): Task
    requires t in w.tasks
  {
    match w.tasks[t]
    case CheckHour(job) => if w.c.hour == job.at then AddTotal(job) else WantLock(job)
    case WantLock(job) => Recheck(job)
    case Recheck(job) => if w.c.hour == job.at then Unlock(job) else SwapUp(job)
    case SwapUp(job) => SwapDown(job, w.c.hourUp)
    case SwapDown(job, up) => BillHour(job, up, w.c.hourDown)
    case BillHour(job, up, down) => AddSettled(job, up, down, w.metering)
    case AddSettled(job, _, _, _) => StoreHour(job)
    case StoreHour(job) => Unlock(job)
    case Unlock(job) => AddTotal(job)
    case AddTotal(job) => AddBucket(job)
    case AddBucket(job) => Idle
    case LoadSettled => LoadMetering(w.c.settled, Ups(w.hours), Downs(w.hours))
    case LoadMetering(s, u, d) => LoadUp(s, w.metering, u, d)
    case LoadUp(s, m, u, d) => LoadDown(s, m, w.c.hourUp, u, d)
    case LoadDown(s, m, up, u, d) => Read(s + Bill(m, up, w.c.hourDown))
    case WantSnapshot => SnapUpload(Start.Start(w.recordedUp, w.recordedDown, w.hours, w.c.hour))
    case SnapUpload(start) => SnapDownload(start, w.c.upload)
    case SnapDownload(start, upload) => SnapSettled(start, upload, w.c.download)
    case SnapSettled(start, upload, download) => SnapHourUp(start, upload, download, w.c.settled)
    case SnapHourUp(start, upload, download, settled) =>
      SnapHourDown(start, upload, download, settled, w.c.hourUp)
    case SnapHourDown(start, upload, download, settled, hourUp) =>
      SnapHour(start, upload, download, settled, hourUp, w.c.hourDown)
    case SnapHour(start, upload, download, settled, hourUp, hourDown) =>
      SnapUnlock(start, Saved(upload, download, settled, hourUp, hourDown, w.c.hour))
    case SnapUnlock(start, saved) => Snapped(start, saved)
    case task => task
  }

  function Do(w: World, a: Action): World
    requires Enabled(w, a)
  {
    match a
    case Start(t, first) => w.(tasks := w.tasks[t := first])
    case Advance(t) => Shared(w, t).(tasks := w.tasks[t := Next(w, t)])
    case Meter(m) => w.(metering := m)
  }

  predicate CanRun(w: World, acts: seq<Action>)
    decreases |acts|, 0
  {
    |acts| == 0
    || (CanRun(w, acts[..|acts| - 1]) && Enabled(Run(w, acts[..|acts| - 1]), acts[|acts| - 1]))
  }

  function Run(w: World, acts: seq<Action>): World
    requires CanRun(w, acts)
    decreases |acts|, 1
  {
    if |acts| == 0 then w else Do(Run(w, acts[..|acts| - 1]), acts[|acts| - 1])
  }

  predicate Initial(w: World) {
    && w.lock.None? && w.tasks == map[] && w.hours == []
    && w.c.settled == w.base && w.recordedUp == w.c.hourUp && w.recordedDown == w.c.hourDown
    && w.c.upload == w.baseUp + w.recordedUp && w.c.download == w.baseDown + w.recordedDown
  }

  // ---------------------------------------------------------------- where the bytes are

  function HeldUp(task: Task): nat {
    if task.SwapDown? || task.BillHour? || task.AddSettled? then task.up else 0
  }

  function HeldDown(task: Task): nat {
    if task.BillHour? || task.AddSettled? then task.down else 0
  }

  /** Bytes the settler has taken from the buckets and not yet added to `settled`. */
  function HandUp(w: World): nat {
    if w.lock.Some? && w.lock.value in w.tasks then HeldUp(w.tasks[w.lock.value]) else 0
  }

  function HandDown(w: World): nat {
    if w.lock.Some? && w.lock.value in w.tasks then HeldDown(w.tasks[w.lock.value]) else 0
  }

  /** Every byte recorded is in a bucket, in the settler's hand, or in one settled hour. */
  predicate Conserved(w: World) {
    && w.recordedUp == w.c.hourUp + HandUp(w) + Ups(w.hours)
    && w.recordedDown == w.c.hourDown + HandDown(w) + Downs(w.hours)
    && w.c.settled == w.base + Bills(w.hours)
  }

  predicate Locked(w: World) {
    && (forall t | t in w.tasks :: Holds(w.tasks[t]) <==> w.lock == Some(t))
    && (w.lock.Some? ==> w.lock.value in w.tasks)
  }

  predicate SavedSince(start: Start, w: World, hourUp: nat) {
    start.up <= Ups(start.hours) + hourUp <= w.recordedUp
  }

  predicate SavedDownSince(start: Start, w: World, hourDown: nat) {
    start.down <= Downs(start.hours) + hourDown <= w.recordedDown
  }

  /** What each task has read is still explained by what has been recorded. */
  predicate TaskOk(w: World, task: Task) {
    match task
    case LoadMetering(s, u, d) => s <= w.base + u + d && u <= Ups(w.hours) && d <= Downs(w.hours)
    case LoadUp(s, _, u, d) => s <= w.base + u + d && u <= Ups(w.hours) && d <= Downs(w.hours)
    case LoadDown(s, _, up, u, d) => s <= w.base + u + d && u + up <= w.recordedUp && d <= Downs(w.hours)
    case Read(value) => value <= w.base + w.recordedUp + w.recordedDown
    case SnapUpload(start) =>
      start.hours == w.hours && start.up <= w.recordedUp && start.down <= w.recordedDown
    case SnapDownload(start, _) =>
      start.hours == w.hours && start.up <= w.recordedUp && start.down <= w.recordedDown
    case SnapSettled(start, _, _) =>
      start.hours == w.hours && start.up <= w.recordedUp && start.down <= w.recordedDown
    case SnapHourUp(start, _, _, settled) =>
      start.hours == w.hours && start.up <= w.recordedUp && start.down <= w.recordedDown
      && settled == w.base + Bills(start.hours)
    case SnapHourDown(start, _, _, settled, hourUp) =>
      start.hours == w.hours && start.down <= w.recordedDown
      && settled == w.base + Bills(start.hours) && SavedSince(start, w, hourUp)
    case SnapHour(start, _, _, settled, hourUp, hourDown) =>
      settled == w.base + Bills(start.hours) && SavedSince(start, w, hourUp) && SavedDownSince(start, w, hourDown)
    case SnapUnlock(start, saved) =>
      saved.settled == w.base + Bills(start.hours) && SavedSince(start, w, saved.hourUp)
      && SavedDownSince(start, w, saved.hourDown)
    case Snapped(start, saved) =>
      saved.settled == w.base + Bills(start.hours) && SavedSince(start, w, saved.hourUp)
      && SavedDownSince(start, w, saved.hourDown)
    case _ => true
  }

  predicate Inv(w: World) {
    && Conserved(w) && Locked(w)
    && (forall t | t in w.tasks :: TaskOk(w, w.tasks[t]))
  }

  lemma HoursGrow(hours: seq<Hour>, h: Hour)
    ensures Ups(hours + [h]) == Ups(hours) + h.up && Downs(hours + [h]) == Downs(hours) + h.down
    ensures Bills(hours + [h]) == Bills(hours) + Bill(h.m, h.up, h.down)
  {
    assert (hours + [h])[..|hours|] == hours;
  }

  lemma {:induction false} BillsWithin(hours: seq<Hour>)
    ensures Bills(hours) <= Ups(hours) + Downs(hours)
  {
    if |hours| > 0 { BillsWithin(hours[..|hours| - 1]); }
  }

  lemma LockKept(w: World, t: nat)
    requires Inv(w) && Enabled(w, Advance(t))
    ensures Locked(Do(w, Advance(t)))
  {
  }

  /** A step outside the lock leaves the hand alone, and one inside works on its own hand. */
  lemma HandsMove(w: World, t: nat)
    requires Inv(w) && Enabled(w, Advance(t))
    ensures var v := Do(w, Advance(t));
      && HandUp(w) == (if Holds(w.tasks[t]) then HeldUp(w.tasks[t]) else HandUp(v))
      && HandUp(v) == (if Holds(w.tasks[t]) then HeldUp(Next(w, t)) else HandUp(w))
      && HandDown(w) == (if Holds(w.tasks[t]) then HeldDown(w.tasks[t]) else HandDown(v))
      && HandDown(v) == (if Holds(w.tasks[t]) then HeldDown(Next(w, t)) else HandDown(w))
  {
    assert Holds(w.tasks[t]) <==> w.lock == Some(t);
  }

  /** What a step takes out of the bucket and the settled hours is what it takes in hand. */
  lemma UpMoves(w: World, t: nat)
    requires t in w.tasks
    ensures var v := Shared(w, t);
      w.recordedUp - w.c.hourUp - Ups(w.hours) - HeldUp(w.tasks[t])
      == v.recordedUp - v.c.hourUp - Ups(v.hours) - HeldUp(Next(w, t))
  {
    if w.tasks[t].AddSettled? {
      HoursGrow(w.hours, Hour(w.tasks[t].m, w.tasks[t].up, w.tasks[t].down));
    }
  }

  lemma DownMoves(w: World, t: nat)
    requires t in w.tasks
    ensures var v := Shared(w, t);
      w.recordedDown - w.c.hourDown - Downs(w.hours) - HeldDown(w.tasks[t])
      == v.recordedDown - v.c.hourDown - Downs(v.hours) - HeldDown(Next(w, t))
  {
    if w.tasks[t].AddSettled? {
      HoursGrow(w.hours, Hour(w.tasks[t].m, w.tasks[t].up, w.tasks[t].down));
    }
  }

  lemma BytesKept(w: World, t: nat)
    requires Inv(w) && Enabled(w, Advance(t))
    ensures Conserved(Do(w, Advance(t)))
  {
    HandsMove(w, t);
    UpMoves(w, t);
    DownMoves(w, t);
    SettledKept(w, t);
    assert !Holds(w.tasks[t]) ==> HeldUp(w.tasks[t]) == 0 == HeldUp(Next(w, t));
    assert !Holds(w.tasks[t]) ==> HeldDown(w.tasks[t]) == 0 == HeldDown(Next(w, t));
  }

  lemma SettledKept(w: World, t: nat)
    requires t in w.tasks && w.c.settled == w.base + Bills(w.hours)
    ensures var v := Shared(w, t); v.c.settled == v.base + Bills(v.hours)
  {
    if w.tasks[t].AddSettled? {
      HoursGrow(w.hours, Hour(w.tasks[t].m, w.tasks[t].up, w.tasks[t].down));
    }
  }

  /** Recorded bytes and settled hours only grow, and only under the lock for the latter. */
  lemma Grows(w: World, t: nat)
    requires Inv(w) && Enabled(w, Advance(t))
    ensures var v := Do(w, Advance(t));
      && w.recordedUp <= v.recordedUp && w.recordedDown <= v.recordedDown
      && Ups(w.hours) <= Ups(v.hours) && Downs(w.hours) <= Downs(v.hours)
      && (v.hours == w.hours || w.lock == Some(t))
  {
    assert Holds(w.tasks[t]) <==> w.lock == Some(t);
    if w.tasks[t].AddSettled? {
      HoursGrow(w.hours, Hour(w.tasks[t].m, w.tasks[t].up, w.tasks[t].down));
    }
  }

  lemma OthersKept(w: World, t: nat, o: nat)
    requires Inv(w) && Enabled(w, Advance(t)) && o in w.tasks && o != t
    ensures TaskOk(Do(w, Advance(t)), w.tasks[o])
  {
    Grows(w, t);
    assert TaskOk(w, w.tasks[o]);
    assert Holds(w.tasks[o]) <==> w.lock == Some(o);
  }

  lemma HolderKept(w: World, t: nat)
    requires Inv(w) && Enabled(w, Advance(t)) && Holds(w.tasks[t])
    ensures TaskOk(Do(w, Advance(t)), Next(w, t))
  {
    assert TaskOk(w, w.tasks[t]);
    assert w.lock == Some(t);
  }

  lemma ReaderKept(w: World, t: nat)
    requires Inv(w) && Enabled(w, Advance(t)) && !Holds(w.tasks[t])
    ensures TaskOk(Do(w, Advance(t)), Next(w, t))
  {
    assert TaskOk(w, w.tasks[t]);
    BillsWithin(w.hours);
  }

  lemma SelfKept(w: World, t: nat)
    requires Inv(w) && Enabled(w, Advance(t))
    ensures TaskOk(Do(w, Advance(t)), Next(w, t))
  {
    if Holds(w.tasks[t]) { HolderKept(w, t); } else { ReaderKept(w, t); }
  }

  lemma AdvanceKept(w: World, t: nat)
    requires Inv(w) && Enabled(w, Advance(t))
    ensures Inv(Do(w, Advance(t)))
  {
    LockKept(w, t);
    BytesKept(w, t);
    SelfKept(w, t);
    var v := Do(w, Advance(t));
    forall o | o in v.tasks ensures TaskOk(v, v.tasks[o]) {
      if o != t { OthersKept(w, t, o); }
    }
  }

  lemma StartKept(w: World, t: nat, first: Task)
    requires Inv(w) && Enabled(w, Action.Start(t, first))
    ensures Inv(Do(w, Action.Start(t, first)))
  {
    assert t in w.tasks ==> !Holds(w.tasks[t]);
    var v := w.(tasks := w.tasks[t := first]);
    assert HandUp(v) == HandUp(w) && HandDown(v) == HandDown(w);
    forall o | o in v.tasks ensures TaskOk(v, v.tasks[o]) {
      if o != t { assert TaskOk(w, w.tasks[o]); }
    }
  }

  lemma MeterKept(w: World, m: Metering)
    requires Inv(w)
    ensures Inv(Do(w, Meter(m)))
  {
  }

  lemma StepKept(w: World, a: Action)
    requires Inv(w) && Enabled(w, a)
    ensures Inv(Do(w, a))
  {
    match a
    case Start(t, first) => StartKept(w, t, first);
    case Meter(m) => MeterKept(w, m);
    case Advance(t) => AdvanceKept(w, t);
  }

  lemma {:induction false} RunKept(w: World, acts: seq<Action>)
    requires Initial(w) && CanRun(w, acts)
    ensures Inv(Run(w, acts)) && Run(w, acts).base == w.base
  {
    if |acts| > 0 {
      RunKept(w, acts[..|acts| - 1]);
      StepKept(Run(w, acts[..|acts| - 1]), acts[|acts| - 1]);
    }
  }

  /** In every interleaving, no byte is lost or counted in two places. */
  lemma NoByteLost(w: World, acts: seq<Action>)
    requires Initial(w) && CanRun(w, acts)
    ensures Conserved(Run(w, acts))
  {
    RunKept(w, acts);
  }

  /** In every interleaving, a finished `used()` reports no more than had been recorded when it finished. */
  lemma UsedNeverOverstates(w: World, acts: seq<Action>, t: nat)
    requires Initial(w) && CanRun(w, acts) && t in Run(w, acts).tasks && Run(w, acts).tasks[t].Read?
    ensures Run(w, acts).tasks[t].value <= w.base + Run(w, acts).recordedUp + Run(w, acts).recordedDown
  {
    RunKept(w, acts);
    assert TaskOk(Run(w, acts), Run(w, acts).tasks[t]);
  }

  // ---------------------------------------------------------------- lifetime totals

  /** Bytes counted in the lifetime total and not yet in the hour's bucket. */
  function Pending(task: Task, d: Direction): nat {
    if task.AddBucket? && task.job.d == d then task.job.n else 0
  }

  function AllPending(tasks: map<nat, Task>, d: Direction): map<nat, int> {
    map t | t in tasks :: Pending(tasks[t], d)
  }

  /** The totals run ahead of the buckets by exactly what is pending. */
  ghost predicate Carrying(w: World) {
    && w.c.upload == w.baseUp + w.recordedUp + MapSum(AllPending(w.tasks, Upload))
    && w.c.download == w.baseDown + w.recordedDown + MapSum(AllPending(w.tasks, Download))
  }

  /** A snapshot's totals hold at least what was recorded when it took the lock. */
  predicate TotalsRead(w: World, task: Task) {
    match task
    case SnapUpload(start) => start.up <= w.recordedUp && start.down <= w.recordedDown
    case SnapDownload(start, up) => w.baseUp + start.up <= up && start.down <= w.recordedDown
    case SnapSettled(start, up, down) => w.baseUp + start.up <= up && w.baseDown + start.down <= down
    case SnapHourUp(start, up, down, _) => w.baseUp + start.up <= up && w.baseDown + start.down <= down
    case SnapHourDown(start, up, down, _, _) => w.baseUp + start.up <= up && w.baseDown + start.down <= down
    case SnapHour(start, up, down, _, _, _) => w.baseUp + start.up <= up && w.baseDown + start.down <= down
    case SnapUnlock(start, saved) =>
      w.baseUp + start.up <= saved.upload && w.baseDown + start.down <= saved.download
    case Snapped(start, saved) =>
      w.baseUp + start.up <= saved.upload && w.baseDown + start.down <= saved.download
    case _ => true
  }

  ghost predicate TotalsOk(w: World) {
    Carrying(w) && forall t | t in w.tasks :: TotalsRead(w, w.tasks[t])
  }

  lemma {:induction false} NonNegative(m: map<nat, int>)
    requires forall k | k in m :: m[k] >= 0
    ensures MapSum(m) >= 0
    decreases |m|
  {
    if m != map[] {
      var k :| k in m;
      assert (m - {k}).Keys == m.Keys - {k};
      MapSumRemove(m, k);
      NonNegative(m - {k});
    }
  }

  lemma PendingMoves(tasks: map<nat, Task>, t: nat, next: Task, d: Direction)
    ensures MapSum(AllPending(tasks[t := next], d))
         == MapSum(AllPending(tasks, d)) - (if t in tasks then Pending(tasks[t], d) else 0) + Pending(next, d)
  {
    MapSumUpdate(AllPending(tasks, d), t, Pending(next, d));
    assert AllPending(tasks[t := next], d) == AllPending(tasks, d)[t := Pending(next, d)];
  }

  lemma TotalsMove(w: World, t: nat)
    requires t in w.tasks
    ensures var v := Shared(w, t);
      && v.c.upload - v.recordedUp - Pending(Next(w, t), Upload)
         == w.c.upload - w.recordedUp - Pending(w.tasks[t], Upload)
      && v.c.download - v.recordedDown - Pending(Next(w, t), Download)
         == w.c.download - w.recordedDown - Pending(w.tasks[t], Download)
      && v.baseUp == w.baseUp && v.baseDown == w.baseDown
  {
  }

  lemma StepCarries(w: World, t: nat)
    requires Carrying(w) && Enabled(w, Advance(t))
    ensures Carrying(Do(w, Advance(t)))
  {
    TotalsMove(w, t);
    PendingMoves(w.tasks, t, Next(w, t), Upload);
    PendingMoves(w.tasks, t, Next(w, t), Download);
  }

  lemma StepReads(w: World, t: nat, o: nat)
    requires TotalsOk(w) && Enabled(w, Advance(t)) && o in w.tasks
    ensures TotalsRead(Do(w, Advance(t)), Do(w, Advance(t)).tasks[o])
  {
    NonNegative(AllPending(w.tasks, Upload));
    NonNegative(AllPending(w.tasks, Download));
    assert TotalsRead(w, w.tasks[o]);
  }

  lemma TotalsKept(w: World, a: Action)
    requires TotalsOk(w) && Enabled(w, a)
    ensures TotalsOk(Do(w, a))
  {
    match a
    case Start(t, first) =>
      PendingMoves(w.tasks, t, first, Upload);
      PendingMoves(w.tasks, t, first, Download);
      forall o | o in Do(w, a).tasks ensures TotalsRead(Do(w, a), Do(w, a).tasks[o]) {
        if o != t { assert TotalsRead(w, w.tasks[o]); }
      }
    case Meter(m) =>
      forall o | o in w.tasks ensures TotalsRead(Do(w, a), w.tasks[o]) { assert TotalsRead(w, w.tasks[o]); }
    case Advance(t) =>
      StepCarries(w, t);
      forall o | o in Do(w, a).tasks ensures TotalsRead(Do(w, a), Do(w, a).tasks[o]) { StepReads(w, t, o); }
  }

  lemma {:induction false} RunTotals(w: World, acts: seq<Action>)
    requires Initial(w) && CanRun(w, acts)
    ensures TotalsOk(Run(w, acts)) && Run(w, acts).baseUp == w.baseUp && Run(w, acts).baseDown == w.baseDown
  {
    if |acts| == 0 {
      MapSumZero(AllPending(w.tasks, Upload));
      MapSumZero(AllPending(w.tasks, Download));
    } else {
      RunTotals(w, acts[..|acts| - 1]);
      TotalsKept(Run(w, acts[..|acts| - 1]), acts[|acts| - 1]);
    }
  }

  /**
   In every interleaving, a finished snapshot holds everything recorded before it took the lock: the
   hours settled by then, billed once, plus buckets that are disjoint from them, and lifetime totals that
   include it all. Its billed side can exceed its totals, but by no more than was recorded while it ran.
   */
  lemma SnapshotIsComplete(w: World, acts: seq<Action>, t: nat)
    requires Initial(w) && CanRun(w, acts) && t in Run(w, acts).tasks && Run(w, acts).tasks[t].Snapped?
    ensures var v := Run(w, acts);
      var Snapped(start, saved) := v.tasks[t];
      && saved.settled == w.base + Bills(start.hours)
      && start.up <= Ups(start.hours) + saved.hourUp <= v.recordedUp
      && start.down <= Downs(start.hours) + saved.hourDown <= v.recordedDown
      && w.baseUp + start.up <= saved.upload && w.baseDown + start.down <= saved.download
      && (w.base <= w.baseUp + w.baseDown ==>
            saved.settled + saved.hourUp + saved.hourDown
            <= saved.upload + saved.download + (v.recordedUp - start.up) + (v.recordedDown - start.down))
  {
    RunKept(w, acts);
    RunTotals(w, acts);
    var v := Run(w, acts);
    assert TaskOk(v, v.tasks[t]) && TotalsRead(v, v.tasks[t]);
    BillsWithin(v.tasks[t].start.hours);
  }

  lemma RunNext(w: World, acts: seq<Action>, a: Action)
    requires CanRun(w, acts) && Enabled(Run(w, acts), a)
    ensures CanRun(w, acts + [a]) && Run(w, acts + [a]) == Do(Run(w, acts), a)
  {
    assert (acts + [a])[..|acts|] == acts;
  }

  function With(w: World, t: nat, task: Task): World {
    w.(tasks := w.tasks[t := task])
  }

  /** A step of one task that takes a run from one world to the next. */
  lemma Then(w: World, acts: seq<Action>, now: World, t: nat, next: World) returns (more: seq<Action>)
    requires CanRun(w, acts) && Run(w, acts) == now && Enabled(now, Advance(t)) && Do(now, Advance(t)) == next
    ensures CanRun(w, more) && Run(w, more) == next
  {
    RunNext(w, acts, Advance(t));
    more := acts + [Advance(t)];
  }

  /** Steps that read: the shared state stays and the task goes on. */
  lemma Reads(w: World, t: nat)
    requires t in w.tasks
    requires w.tasks[t].SnapUpload? || w.tasks[t].SnapDownload? || w.tasks[t].SnapSettled? || w.tasks[t].SnapHourUp?
             || w.tasks[t].SnapHourDown? || w.tasks[t].SnapHour? || w.tasks[t].CheckHour?
    ensures Enabled(w, Advance(t)) && Do(w, Advance(t)) == With(w, t, Next(w, t))
  {
  }

  lemma Locks(w: World, t: nat)
    requires t in w.tasks && w.tasks[t].WantSnapshot? && w.lock.None?
    ensures Enabled(w, Advance(t)) && Do(w, Advance(t)) == With(w.(lock := Some(t)), t, Next(w, t))
  {
  }

  lemma Unlocks(w: World, t: nat)
    requires t in w.tasks && w.tasks[t].SnapUnlock?
    ensures Enabled(w, Advance(t)) && Do(w, Advance(t)) == With(w.(lock := None), t, Next(w, t))
  {
  }

  lemma Adds(w: World, t: nat)
    requires t in w.tasks && (w.tasks[t].AddTotal? || w.tasks[t].AddBucket?) && w.tasks[t].job.d.Upload?
    ensures Enabled(w, Advance(t))
    ensures var n := w.tasks[t].job.n;
      Do(w, Advance(t))
      == With(if w.tasks[t].AddTotal? then w.(c := w.c.(upload := w.c.upload + n))
              else w.(c := w.c.(hourUp := w.c.hourUp + n), recordedUp := w.recordedUp + n), t, Next(w, t))
  {
  }

  lemma WithTwice(w: World, t: nat, a: Task, b: Task)
    ensures With(With(w, t, a), t, b) == With(w, t, b)
  {
    assert w.tasks[t := a][t := b] == w.tasks[t := b];
  }

  /** What one read leaves a task with. */
  predicate ReadsTo(c: Saved, a: Task, b: Task) {
    match a
    case SnapUpload(start) => b == SnapDownload(start, c.upload)
    case SnapDownload(start, up) => b == SnapSettled(start, up, c.download)
    case SnapSettled(start, up, down) => b == SnapHourUp(start, up, down, c.settled)
    case SnapHourUp(start, up, down, settled) => b == SnapHourDown(start, up, down, settled, c.hourUp)
    case SnapHourDown(start, up, down, settled, hourUp) =>
      b == SnapHour(start, up, down, settled, hourUp, c.hourDown)
    case SnapHour(start, up, down, settled, hourUp, hourDown) =>
      b == SnapUnlock(start, Saved(up, down, settled, hourUp, hourDown, c.hour))
    case CheckHour(job) => job.at == c.hour && b == AddTotal(job)
    case _ => false
  }

  lemma ThenReads(w: World, acts: seq<Action>, now: World, t: nat, a: Task, b: Task) returns (more: seq<Action>)
    requires CanRun(w, acts) && Run(w, acts) == With(now, t, a) && ReadsTo(now.c, a, b)
    ensures CanRun(w, more) && Run(w, more) == With(now, t, b)
  {
    Reads(With(now, t, a), t);
    WithTwice(now, t, a, b);
    more := Then(w, acts, With(now, t, a), t, With(now, t, b));
  }

  lemma ThenLocks(w: World, acts: seq<Action>, now: World, t: nat) returns (more: seq<Action>)
    requires CanRun(w, acts) && Run(w, acts) == With(now, t, WantSnapshot) && now.lock.None?
    ensures var start := Start.Start(now.recordedUp, now.recordedDown, now.hours, now.c.hour);
      CanRun(w, more) && Run(w, more) == With(now.(lock := Some(t)), t, SnapUpload(start))
  {
    var start := Start.Start(now.recordedUp, now.recordedDown, now.hours, now.c.hour);
    Locks(With(now, t, WantSnapshot), t);
    WithTwice(now.(lock := Some(t)), t, WantSnapshot, SnapUpload(start));
    more := Then(w, acts, With(now, t, WantSnapshot), t, With(now.(lock := Some(t)), t, SnapUpload(start)));
  }

  lemma ThenUnlocks(w: World, acts: seq<Action>, now: World, t: nat, start: Start, saved: Saved)
    returns (more: seq<Action>)
    requires CanRun(w, acts) && Run(w, acts) == With(now, t, SnapUnlock(start, saved))
    ensures CanRun(w, more) && Run(w, more) == With(now.(lock := None), t, Snapped(start, saved))
  {
    Unlocks(With(now, t, SnapUnlock(start, saved)), t);
    WithTwice(now.(lock := None), t, SnapUnlock(start, saved), Snapped(start, saved));
    more := Then(w, acts, With(now, t, SnapUnlock(start, saved)), t, With(now.(lock := None), t, Snapped(start, saved)));
  }

  lemma ThenAddsTotal(w: World, acts: seq<Action>, now: World, t: nat, job: Job) returns (more: seq<Action>)
    requires CanRun(w, acts) && Run(w, acts) == With(now, t, AddTotal(job)) && job.d.Upload?
    ensures var next := now.(c := now.c.(upload := now.c.upload + job.n));
      CanRun(w, more) && Run(w, more) == With(next, t, AddBucket(job))
  {
    var next := now.(c := now.c.(upload := now.c.upload + job.n));
    Adds(With(now, t, AddTotal(job)), t);
    WithTwice(next, t, AddTotal(job), AddBucket(job));
    more := Then(w, acts, With(now, t, AddTotal(job)), t, With(next, t, AddBucket(job)));
  }

  lemma ThenAddsBucket(w: World, acts: seq<Action>, now: World, t: nat, job: Job) returns (more: seq<Action>)
    requires CanRun(w, acts) && Run(w, acts) == With(now, t, AddBucket(job)) && job.d.Upload?
    ensures var next := now.(c := now.c.(hourUp := now.c.hourUp + job.n), recordedUp := now.recordedUp + job.n);
      CanRun(w, more) && Run(w, more) == With(next, t, Idle)
  {
    var next := now.(c := now.c.(hourUp := now.c.hourUp + job.n), recordedUp := now.recordedUp + job.n);
    Adds(With(now, t, AddBucket(job)), t);
    WithTwice(next, t, AddBucket(job), Idle);
    more := Then(w, acts, With(now, t, AddBucket(job)), t, With(next, t, Idle));
  }

  /**
   And it can: bytes recorded between the reads of the total and of the bucket are in the row's bucket
   and not in its total.
   */
  lemma SnapshotCanExceedTotals(n: nat, m: Metering) returns (w: World, acts: seq<Action>)
    ensures Initial(w) && CanRun(w, acts) && 1 in Run(w, acts).tasks && Run(w, acts).tasks[1].Snapped?
    ensures var saved := Run(w, acts).tasks[1].saved;
      saved.settled + saved.hourUp + saved.hourDown == n && saved.upload + saved.download == 0
  {
    var job, start, zero := Job(0, n, Upload), Start.Start(0, 0, [], 0), Saved(0, 0, 0, 0, 0, 0);
    w := World(zero, m, None, map[], 0, 0, 0, 0, 0, []);
    acts := [];
    acts := Starts(w, acts, 1, WantSnapshot);
    acts := ThenLocks(w, acts, w, 1);
    var held := w.(lock := Some(1));
    acts := ThenReads(w, acts, held, 1, SnapUpload(start), SnapDownload(start, 0));
    acts := ThenReads(w, acts, held, 1, SnapDownload(start, 0), SnapSettled(start, 0, 0));
    var reading := With(held, 1, SnapSettled(start, 0, 0));
    acts := Starts(w, acts, 2, CheckHour(job));
    acts := ThenReads(w, acts, reading, 2, CheckHour(job), AddTotal(job));
    acts := ThenAddsTotal(w, acts, reading, 2, job);
    var carried := reading.(c := zero.(upload := n));
    acts := ThenAddsBucket(w, acts, carried, 2, job);
    var recorded := With(carried.(c := zero.(upload := n, hourUp := n), recordedUp := n), 2, Idle);
    acts := LateReads(w, acts, recorded, 1, start);
  }

  lemma LateReads(w: World, acts: seq<Action>, now: World, t: nat, start: Start) returns (more: seq<Action>)
    requires CanRun(w, acts) && Run(w, acts) == now && t in now.tasks && now.tasks[t] == SnapSettled(start, 0, 0)
    ensures var c := now.c;
      CanRun(w, more) && t in Run(w, more).tasks
      && Run(w, more).tasks[t] == Snapped(start, Saved(0, 0, c.settled, c.hourUp, c.hourDown, c.hour))
  {
    var c := now.c;
    var first, second := SnapHourUp(start, 0, 0, c.settled), SnapHourDown(start, 0, 0, c.settled, c.hourUp);
    var third := SnapHour(start, 0, 0, c.settled, c.hourUp, c.hourDown);
    var saved := Saved(0, 0, c.settled, c.hourUp, c.hourDown, c.hour);
    assert now == With(now, t, SnapSettled(start, 0, 0));
    more := ThenReads(w, acts, now, t, SnapSettled(start, 0, 0), first);
    more := ThenReads(w, more, now, t, first, second);
    more := ThenReads(w, more, now, t, second, third);
    more := ThenReads(w, more, now, t, third, SnapUnlock(start, saved));
    more := ThenUnlocks(w, more, now, t, start, saved);
  }

  lemma Starts(w: World, acts: seq<Action>, t: nat, first: Task) returns (more: seq<Action>)
    requires CanRun(w, acts) && t !in Run(w, acts).tasks && (first.CheckHour? || first.WantSnapshot?)
    ensures CanRun(w, more) && Run(w, more) == With(Run(w, acts), t, first)
  {
    RunNext(w, acts, Action.Start(t, first));
    more := acts + [Action.Start(t, first)];
  }
}
