/** What a reader of the usage gets while others record, settle and change the rule. */
module QuotaReads {
  import opened Options
  import opened Quota
  import opened QuotaRace

  /** What `used()` would give if nothing moved. */
  function Now(w: World): nat {
    BilledBytes(w.c, w.metering)
  }

  /** A step that neither restarts the reader `t`, nor settles anything, nor changes the rule. */
  predicate QuietStep(w: World, a: Action, t: nat) {
    match a
    case Meter(_) => false
    case Start(o, _) => o != t
    case Advance(o) => o in w.tasks ==> !w.tasks[o].SwapUp? && !w.tasks[o].SwapDown? && !w.tasks[o].AddSettled?
  }

  predicate Quiet(w: World, acts: seq<Action>, t: nat)
    requires CanRun(w, acts)
  {
    |acts| == 0
    || (Quiet(w, acts[..|acts| - 1], t) && QuietStep(Run(w, acts[..|acts| - 1]), acts[|acts| - 1], t))
  }

  /** A single read: the reader is not started again. */
  predicate OneRead(acts: seq<Action>, t: nat) {
    forall i | 0 <= i < |acts| :: acts[i].Start? ==> acts[i].t != t
  }

  // ---------------------------------------------------------------- quiet reads

  /** Settled hours and rule stay, buckets grow, and the reader has read them in between. */
  predicate Reading(w: World, v: World, t: nat) {
    && v.c.settled == w.c.settled && v.metering == w.metering
    && w.c.hourUp <= v.c.hourUp && w.c.hourDown <= v.c.hourDown
    && t in v.tasks
    && match v.tasks[t]
       case LoadSettled => true
       case LoadMetering(s, _, _) => s == w.c.settled
       case LoadUp(s, m, _, _) => s == w.c.settled && m == w.metering
       case LoadDown(s, m, up, _, _) => s == w.c.settled && m == w.metering && w.c.hourUp <= up <= v.c.hourUp
       case Read(value) => Now(w) <= value <= Now(v)
       case _ => false
  }

  lemma BillGrows(m: Metering, up: nat, down: nat, moreUp: nat, moreDown: nat)
    requires up <= moreUp && down <= moreDown
    ensures Bill(m, up, down) <= Bill(m, moreUp, moreDown)
  {
  }

  lemma OthersStepQuietly(v: World, o: nat)
    requires Enabled(v, Advance(o)) && QuietStep(v, Advance(o), o)
    ensures var u := Do(v, Advance(o));
      && u.c.settled == v.c.settled && u.metering == v.metering
      && v.c.hourUp <= u.c.hourUp && v.c.hourDown <= u.c.hourDown
  {
  }

  lemma QuietKept(w: World, v: World, a: Action, t: nat)
    requires Reading(w, v, t) && Enabled(v, a) && QuietStep(v, a, t)
    ensures Reading(w, Do(v, a), t)
  {
    if a.Advance? {
      OthersStepQuietly(v, a.t);
      var u := Do(v, a);
      BillGrows(v.metering, v.c.hourUp, v.c.hourDown, u.c.hourUp, u.c.hourDown);
      if a.t == t && v.tasks[t].LoadDown? {
        BillGrows(w.metering, w.c.hourUp, w.c.hourDown, v.tasks[t].up, v.c.hourDown);
        BillGrows(w.metering, v.tasks[t].up, v.c.hourDown, v.c.hourUp, v.c.hourDown);
      }
    }
  }

  lemma {:induction false} QuietRuns(w: World, acts: seq<Action>, t: nat)
    requires CanRun(w, acts) && Quiet(w, acts, t) && t in w.tasks && w.tasks[t].LoadSettled?
    ensures Reading(w, Run(w, acts), t)
  {
    if |acts| > 0 {
      QuietRuns(w, acts[..|acts| - 1], t);
      QuietKept(w, Run(w, acts[..|acts| - 1]), acts[|acts| - 1], t);
    }
  }

  /**
   In every interleaving in which nothing is settled and the rule stays between a reader's first and last
   load, it gets at least what was used at the first and at most what was used at the last.
   */
  lemma UsedIsBracketed(w: World, acts: seq<Action>, t: nat)
    requires CanRun(w, acts) && Quiet(w, acts, t) && t in w.tasks && w.tasks[t].LoadSettled?
    requires t in Run(w, acts).tasks && Run(w, acts).tasks[t].Read?
    ensures Now(w) <= Run(w, acts).tasks[t].value <= Now(Run(w, acts))
  {
    QuietRuns(w, acts, t);
  }

  /** On its own a reader gets exactly what the counters say. */
  lemma ReaderAlone(w: World, t: nat)
    requires t in w.tasks && w.tasks[t].LoadSettled?
    ensures var a := Do(w, Advance(t));
      var b := Do(a, Advance(t));
      var c := Do(b, Advance(t));
      var d := Do(c, Advance(t));
      d.c == w.c && t in d.tasks && d.tasks[t] == Read(Now(w))
  {
  }

  // ---------------------------------------------------------------- any read

  predicate AtLeast(w: World, v: World, t: nat) {
    && w.c.settled <= v.c.settled && t in v.tasks
    && match v.tasks[t]
       case LoadSettled => true
       case LoadMetering(s, _, _) => s >= w.c.settled
       case LoadUp(s, _, _, _) => s >= w.c.settled
       case LoadDown(s, _, _, _, _) => s >= w.c.settled
       case Read(value) => value >= w.c.settled
       case _ => false
  }

  lemma AtLeastKept(w: World, v: World, a: Action, t: nat)
    requires AtLeast(w, v, t) && Enabled(v, a) && (a.Start? ==> a.t != t)
    ensures AtLeast(w, Do(v, a), t)
  {
  }

  lemma {:induction false} AtLeastRuns(w: World, acts: seq<Action>, t: nat)
    requires CanRun(w, acts) && OneRead(acts, t) && t in w.tasks && w.tasks[t].LoadSettled?
    ensures AtLeast(w, Run(w, acts), t)
  {
    if |acts| > 0 {
      AtLeastRuns(w, acts[..|acts| - 1], t);
      AtLeastKept(w, Run(w, acts[..|acts| - 1]), acts[|acts| - 1], t);
    }
  }

  /** Whatever comes in between, a reader misses no more than the open hour's bill at its first load. */
  lemma RolloverHidesAtMostTheHour(w: World, acts: seq<Action>, t: nat)
    requires CanRun(w, acts) && OneRead(acts, t) && t in w.tasks && w.tasks[t].LoadSettled?
    requires t in Run(w, acts).tasks && Run(w, acts).tasks[t].Read?
    ensures Run(w, acts).tasks[t].value >= Now(w) - Bill(w.metering, w.c.hourUp, w.c.hourDown)
  {
    AtLeastRuns(w, acts, t);
  }

  // ---------------------------------------------------------------- a rollover that hides the whole hour

  /** The reader loads the settled sum, the hour is settled, and the reader finds the buckets empty. */
  function Stage(n: nat, m: Metering, k: nat): World {
    var job, c := Job(1, 0, Upload), Saved(n, 0, 0, n, 0, 0);
    var w := World(c, m, None, map[], 0, 0, 0, n, 0, []);
    var reading, locked := LoadMetering(0, 0, 0), w.(lock := Some(2));
    var emptied := locked.(c := c.(hourUp := 0));
    var done := emptied.(c := c.(hourUp := 0, settled := Bill(m, n, 0)), hours := [Hour(m, n, 0)]);
    if k == 0 then w
    else if k == 1 then w.(tasks := map[1 := LoadSettled])
    else if k == 2 then w.(tasks := map[1 := reading])
    else if k == 3 then w.(tasks := map[1 := reading, 2 := CheckHour(job)])
    else if k == 4 then w.(tasks := map[1 := reading, 2 := WantLock(job)])
    else if k == 5 then locked.(tasks := map[1 := reading, 2 := Recheck(job)])
    else if k == 6 then locked.(tasks := map[1 := reading, 2 := SwapUp(job)])
    else if k == 7 then emptied.(tasks := map[1 := reading, 2 := SwapDown(job, n)])
    else if k == 8 then emptied.(tasks := map[1 := reading, 2 := BillHour(job, n, 0)])
    else if k == 9 then emptied.(tasks := map[1 := reading, 2 := AddSettled(job, n, 0, m)])
    else if k == 10 then done.(tasks := map[1 := reading, 2 := StoreHour(job)])
    else if k == 11 then done.(tasks := map[1 := LoadUp(0, m, 0, 0), 2 := StoreHour(job)])
    else if k == 12 then done.(tasks := map[1 := LoadDown(0, m, 0, 0, 0), 2 := StoreHour(job)])
    else done.(tasks := map[1 := Read(0), 2 := StoreHour(job)])
  }

  function Move(k: nat): Action {
    if k == 0 then Action.Start(1, LoadSettled)
    else if k == 2 then Action.Start(2, CheckHour(Job(1, 0, Upload)))
    else if k == 1 || k >= 10 then Advance(1)
    else Advance(2)
  }

  ghost predicate Goes(n: nat, m: Metering, k: nat) {
    Enabled(Stage(n, m, k), Move(k)) && Do(Stage(n, m, k), Move(k)) == Stage(n, m, k + 1)
  }

  lemma ReaderStarts(n: nat, m: Metering, k: nat)
    requires k <= 2
    ensures Goes(n, m, k)
  {
  }

  lemma SettlerLocks(n: nat, m: Metering, k: nat)
    requires 3 <= k <= 5
    ensures Goes(n, m, k)
  {
  }

  lemma SettlerSwaps(n: nat, m: Metering, k: nat)
    requires 6 <= k <= 7
    ensures Goes(n, m, k)
  {
  }

  lemma SettlerAdds(n: nat, m: Metering, k: nat)
    requires 8 <= k <= 9
    ensures Goes(n, m, k)
  {
  }

  lemma ReaderLoads(n: nat, m: Metering, k: nat)
    requires 10 <= k <= 11
    ensures Goes(n, m, k)
  {
  }

  lemma ReaderEnds(n: nat, m: Metering)
    ensures Goes(n, m, 12)
  {
  }

  lemma {:induction false} Staged(n: nat, m: Metering, k: nat) returns (acts: seq<Action>)
    requires k <= 13
    ensures CanRun(Stage(n, m, 0), acts) && Run(Stage(n, m, 0), acts) == Stage(n, m, k)
  {
    acts := [];
    if k > 0 {
      acts := Staged(n, m, k - 1);
      if k <= 3 { ReaderStarts(n, m, k - 1); }
      else if k <= 6 { SettlerLocks(n, m, k - 1); }
      else if k <= 8 { SettlerSwaps(n, m, k - 1); }
      else if k <= 10 { SettlerAdds(n, m, k - 1); }
      else if k <= 12 { ReaderLoads(n, m, k - 1); }
      else { ReaderEnds(n, m); }
      RunNext(Stage(n, m, 0), acts, Move(k - 1));
      acts := acts + [Move(k - 1)];
    }
  }

  /** A run in which a reader gets 0, though the hour's bill was there at its start and is there at its end. */
  lemma RolloverHidesTheHour(n: nat, m: Metering) returns (w: World, acts: seq<Action>)
    ensures Initial(w) && CanRun(w, acts) && 1 in Run(w, acts).tasks && Run(w, acts).tasks[1] == Read(0)
    ensures Now(w) == Bill(m, n, 0) == Now(Run(w, acts))
  {
    w := Stage(n, m, 0);
    acts := Staged(n, m, 13);
  }

  // ---------------------------------------------------------------- the hour

  /** What a task in the locked section, or out of it again, knows of the hour. */
  predicate HourRead(w: World, task: Task) {
    match task
    case Unlock(job) => w.c.hour == job.at
    case SnapUpload(start) => start.hour == w.c.hour
    case SnapDownload(start, _) => start.hour == w.c.hour
    case SnapSettled(start, _, _) => start.hour == w.c.hour
    case SnapHourUp(start, _, _, _) => start.hour == w.c.hour
    case SnapHourDown(start, _, _, _, _) => start.hour == w.c.hour
    case SnapHour(start, _, _, _, _, _) => start.hour == w.c.hour
    case SnapUnlock(start, saved) => saved.hour == start.hour
    case Snapped(start, saved) => saved.hour == start.hour
    case _ => true
  }

  predicate HoursOk(w: World) {
    Locked(w) && forall t | t in w.tasks :: HourRead(w, w.tasks[t])
  }

  /** Only the holder of the lock changes the hour. */
  lemma HourKept(w: World, t: nat)
    requires Locked(w) && Enabled(w, Advance(t))
    ensures Do(w, Advance(t)).c.hour == w.c.hour || w.lock == Some(t)
  {
    assert Holds(w.tasks[t]) <==> w.lock == Some(t);
  }

  lemma OwnHour(w: World, t: nat)
    requires HoursOk(w) && Enabled(w, Advance(t))
    ensures HourRead(Do(w, Advance(t)), Next(w, t))
  {
    assert HourRead(w, w.tasks[t]);
  }

  lemma OtherHour(w: World, t: nat, o: nat)
    requires HoursOk(w) && Enabled(w, Advance(t)) && o in w.tasks && o != t
    ensures HourRead(Do(w, Advance(t)), w.tasks[o])
  {
    HourKept(w, t);
    assert HourRead(w, w.tasks[o]);
    assert Holds(w.tasks[o]) <==> w.lock == Some(o);
  }

  lemma {:induction false} RunKeepsHours(w: World, acts: seq<Action>)
    requires Initial(w) && CanRun(w, acts)
    ensures HoursOk(Run(w, acts))
  {
    RunKept(w, acts);
    if |acts| > 0 {
      RunKeepsHours(w, acts[..|acts| - 1]);
      var v, a := Run(w, acts[..|acts| - 1]), acts[|acts| - 1];
      forall o | o in Do(v, a).tasks ensures HourRead(Do(v, a), Do(v, a).tasks[o]) {
        if a.Advance? {
          if o == a.t { OwnHour(v, o); } else { OtherHour(v, a.t, o); }
        } else if o in v.tasks {
          assert HourRead(v, v.tasks[o]);
        }
      }
    }
  }

  /**
   In every interleaving a consumer goes on to record only when the bucket's hour is its own, and a snapshot
   saves the hour its buckets are of.
   */
  lemma HourIsRight(w: World, acts: seq<Action>, t: nat)
    requires Initial(w) && CanRun(w, acts) && t in Run(w, acts).tasks
    ensures var v := Run(w, acts);
      && (Enabled(v, Advance(t)) && Next(v, t).AddTotal? ==> v.c.hour == Next(v, t).job.at)
      && (v.tasks[t].Snapped? ==> v.tasks[t].saved.hour == v.tasks[t].start.hour)
  {
    RunKeepsHours(w, acts);
    assert HourRead(Run(w, acts), Run(w, acts).tasks[t]);
  }
}
