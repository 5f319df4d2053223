/**
 The health flags under concurrency: `mark_down`, `mark_up`, re-arm timers and readers of the active
 index, interleaved at single loads and stores. Flags and index are written under `health_lock` only;
 `mark_up` looks at its flag before it takes the lock, and `pick` takes no lock at all.
 */
module Rearm {
  import opened Options
  import opened Pool

  /** `i` is the target a task works on, `up` which way it turns the flag. */
  datatype Task =
    | Want(i: nat, up: bool)
    | Swap(i: nat, up: bool)
    | Scan(i: nat, up: bool, k: nat)
    | Publish(i: nat, up: bool, next: nat)
    | Store(i: nat, up: bool, next: nat)
    | Unlock(i: nat, up: bool, flipped: bool)
    // the rest of mark_down in a cooldown pool
    | Spawning(i: nat)
    | Sleeping(i: nat)
    // the unlocked test of mark_up
    | Look(i: nat)
    // pick
    | Pick
    | Picked(target: nat)
    | Done

  datatype World = World(healthy: seq<bool>, active: nat, cooldown: bool, lock: Option<nat>, tasks: map<nat, Task>)

  datatype Event = Start(t: nat, first: Task) | Step(t: nat)

  /** The section of a task that runs under `health_lock`. */
  predicate Holds(task: Task) {
    task.Swap? || task.Scan? || task.Publish? || task.Store? || task.Unlock?
  }

  predicate Enabled(w: World, e: Event) {
    match e
    case Start(t, first) =>
      && (t in w.tasks ==> w.tasks[t].Done? || w.tasks[t].Picked?)
      && (first.Pick? || ((first.Look? || (first.Want? && !first.up)) && first.i < |w.healthy|))
    case Step(t) =>
      && t in w.tasks && !w.tasks[t].Done? && !w.tasks[t].Picked?
      && (w.tasks[t].Want? ==> w.lock.None?)
  }

  /** Where a task goes next, and what it remembers. */
  function Next(w: World, t: nat): Task
    requires t in w.tasks
  {
    match w.tasks[t]
    case Want(i, up) => Swap(i, up)
    case Swap(i, up) => if i < |w.healthy| && w.healthy[i] != up then Scan(i, up, 0) else Unlock(i, up, false)
    case Scan(i, up, k) =>
      if k >= |w.healthy| then Publish(i, up, 0)
      else if w.healthy[k] then Publish(i, up, k)
      else Scan(i, up, k + 1)
    case Publish(i, up, next) => if next == w.active then Unlock(i, up, true) else Store(i, up, next)
    case Store(i, up, next) => Unlock(i, up, true)
    case Unlock(i, up, flipped) => if flipped && !up && w.cooldown then Spawning(i) else Done
    case Spawning(i) => Sleeping(i)
    case Sleeping(i) => Look(i)
    case Look(i) => if i < |w.healthy| && w.healthy[i] then Done else Want(i, true)
    case Pick => Picked(w.active)
    case task => task
  }

  /** The shared state after one atomic operation of a task. */
  function Shared(w: World, t: nat): World
    requires t in w.tasks
  {
    match w.tasks[t]
    case Want(_, _) => w.(lock := Some(t))
    case Swap(i, up) => if i < |w.healthy| then w.(healthy := w.healthy[i := up]) else w
    case Store(_, _, next) => w.(active := next)
    case Unlock(_, _, _) => w.(lock := None)
    case _ => w
  }

  function Do(w: World, e: Event): World
    requires Enabled(w, e)
  {
    match e
    case Start(t, first) => w.(tasks := w.tasks[t := first])
    case Step(t) => Shared(w, t).(tasks := w.tasks[t := Next(w, t)])
  }

  predicate CanRun(w: World, es: seq<Event>)
    decreases |es|, 0
  {
    |es| == 0 || (CanRun(w, es[..|es| - 1]) && Enabled(Run(w, es[..|es| - 1]), es[|es| - 1]))
  }

  function Run(w: World, es: seq<Event>): World
    requires CanRun(w, es)
    decreases |es|, 1
  {
    if |es| == 0 then w else Do(Run(w, es[..|es| - 1]), es[|es| - 1])
  }

  function Fresh(targets: nat, cooldown: bool): World {
    World(seq(targets, _ => true), 0, cooldown, None, map[])
  }

  // ---------------------------------------------------------------- what every step keeps

  predicate Locked(w: World) {
    && (forall t | t in w.tasks :: Holds(w.tasks[t]) <==> w.lock == Some(t))
    && (w.lock.Some? ==> w.lock.value in w.tasks)
  }

  predicate HasTarget(task: Task) {
    Holds(task) || task.Want? || task.Spawning? || task.Sleeping? || task.Look?
  }

  predicate TargetOk(w: World, t: nat)
    requires t in w.tasks
  {
    && (HasTarget(w.tasks[t]) ==> w.tasks[t].i < |w.healthy|)
    && (w.tasks[t].Picked? ==> w.tasks[t].target < |w.healthy|)
  }

  /** The flags as they were before the flip a task has made. */
  function Before(healthy: seq<bool>, task: Task): seq<bool> {
    if (task.Scan? || task.Publish? || task.Store?) && task.i < |healthy| then healthy[task.i := !task.up] else healthy
  }

  /** How far a critical section has come: the index lags one flip behind until it is stored. */
  predicate SectionOk(w: World, task: Task) {
    match task
    case Scan(i, up, k) =>
      && i < |w.healthy| && w.healthy[i] == up && k <= |w.healthy| && (forall j | 0 <= j < k :: !w.healthy[j])
      && IsActive(Before(w.healthy, task), w.active)
    case Publish(i, up, next) =>
      && i < |w.healthy| && w.healthy[i] == up && IsActive(w.healthy, next)
      && IsActive(Before(w.healthy, task), w.active)
    case Store(i, up, next) =>
      && i < |w.healthy| && w.healthy[i] == up && IsActive(w.healthy, next)
      && IsActive(Before(w.healthy, task), w.active)
    case _ => IsActive(w.healthy, w.active)
  }

  predicate ActiveOk(w: World) {
    if w.lock.Some? && w.lock.value in w.tasks then SectionOk(w, w.tasks[w.lock.value])
    else IsActive(w.healthy, w.active)
  }

  /** The task has taken target `i` down or found it down, and is on its way to turn it up again. */
  predicate Rearms(task: Task, i: nat) {
    match task
    case Scan(j, up, _) => j == i && !up
    case Publish(j, up, _) => j == i && !up
    case Store(j, up, _) => j == i && !up
    case Unlock(j, up, flipped) => j == i && !up && flipped
    case Spawning(j) => j == i
    case Sleeping(j) => j == i
    case Look(j) => j == i
    case Want(j, up) => j == i && up
    case Swap(j, up) => j == i && up
    case _ => false
  }

  ghost predicate Rearmed(w: World, i: nat) {
    exists t | t in w.tasks :: Rearms(w.tasks[t], i)
  }

  ghost predicate Inv(w: World) {
    && |w.healthy| > 0 && Locked(w) && ActiveOk(w)
    && (forall t | t in w.tasks :: TargetOk(w, t))
    && (w.cooldown ==> forall i | 0 <= i < |w.healthy| && !w.healthy[i] :: Rearmed(w, i))
  }

  lemma StartKept(w: World, t: nat, first: Task)
    requires Inv(w) && Enabled(w, Start(t, first))
    ensures Inv(Do(w, Start(t, first)))
  {
    var v := Do(w, Start(t, first));
    assert t in w.tasks ==> !Holds(w.tasks[t]);
    forall o | o in v.tasks ensures TargetOk(v, o) {
      if o != t { assert TargetOk(w, o); }
    }
    forall i | 0 <= i < |v.healthy| && !v.healthy[i] && v.cooldown ensures Rearmed(v, i) {
      assert Rearmed(w, i);
      var o :| o in w.tasks && Rearms(w.tasks[o], i);
      assert Rearms(v.tasks[o], i);
    }
  }

  lemma LockKept(w: World, t: nat)
    requires Inv(w) && Enabled(w, Step(t))
    ensures Locked(Do(w, Step(t)))
  {
  }

  /** The holder's own steps: flip, scan, compare and store lead from one right index to the next. */
  lemma HolderKept(w: World, t: nat)
    requires Inv(w) && Enabled(w, Step(t)) && Holds(w.tasks[t])
    ensures ActiveOk(Do(w, Step(t)))
  {
    assert w.lock == Some(t) && TargetOk(w, t);
    var task := w.tasks[t];
    if task.Swap? && w.healthy[task.i] != task.up {
      assert w.healthy[task.i := task.up][task.i := !task.up] == w.healthy;
    } else if task.Swap? {
      assert w.healthy[task.i := task.up] == w.healthy;
    }
  }

  /** Everybody else leaves flags and index alone, so the holder's scan sees one set of flags. */
  lemma OthersKept(w: World, t: nat)
    requires Inv(w) && Enabled(w, Step(t)) && !Holds(w.tasks[t])
    ensures ActiveOk(Do(w, Step(t)))
  {
    var v := Do(w, Step(t));
    assert v.healthy == w.healthy && v.active == w.active;
    if w.tasks[t].Want? {
      assert v.lock == Some(t) && v.tasks[t].Swap?;
    } else if w.lock.Some? {
      assert w.lock.value != t && v.tasks[w.lock.value] == w.tasks[w.lock.value];
    }
  }

  lemma TargetsKept(w: World, t: nat)
    requires Inv(w) && Enabled(w, Step(t))
    ensures forall o | o in Do(w, Step(t)).tasks :: TargetOk(Do(w, Step(t)), o)
  {
    var v := Do(w, Step(t));
    IndexKept(w);
    forall o | o in v.tasks ensures TargetOk(v, o) { assert TargetOk(w, o) && TargetOk(w, t); }
  }

  lemma IndexKept(w: World)
    requires Inv(w)
    ensures w.active < |w.healthy|
  {
  }

  lemma RearmKept(w: World, t: nat, i: nat)
    requires Inv(w) && Enabled(w, Step(t)) && w.cooldown
    requires i < |w.healthy| && !Do(w, Step(t)).healthy[i]
    ensures Rearmed(Do(w, Step(t)), i)
  {
    var v, task := Do(w, Step(t)), w.tasks[t];
    assert TargetOk(w, t);
    if w.healthy[i] {
      assert task == Swap(i, false) && Rearms(v.tasks[t], i);
    } else {
      assert Rearmed(w, i);
      var o :| o in w.tasks && Rearms(w.tasks[o], i);
      assert o == t ==> Rearms(Next(w, t), i);
      assert Rearms(v.tasks[o], i);
    }
  }

  lemma StepKept(w: World, t: nat)
    requires Inv(w) && Enabled(w, Step(t))
    ensures Inv(Do(w, Step(t)))
  {
    LockKept(w, t);
    if Holds(w.tasks[t]) { HolderKept(w, t); } else { OthersKept(w, t); }
    TargetsKept(w, t);
    var v := Do(w, Step(t));
    forall i | 0 <= i < |v.healthy| && !v.healthy[i] && v.cooldown ensures Rearmed(v, i) { RearmKept(w, t, i); }
  }

  lemma {:induction false} RunKept(targets: nat, cooldown: bool, es: seq<Event>)
    requires targets > 0 && CanRun(Fresh(targets, cooldown), es)
    ensures var w := Run(Fresh(targets, cooldown), es);
      Inv(w) && |w.healthy| == targets && w.cooldown == cooldown
  {
    if |es| > 0 {
      RunKept(targets, cooldown, es[..|es| - 1]);
      var w, e := Run(Fresh(targets, cooldown), es[..|es| - 1]), es[|es| - 1];
      match e
      case Start(t, first) => StartKept(w, t, first);
      case Step(t) => StepKept(w, t);
    }
  }

  // ---------------------------------------------------------------- theorems

  /** In every interleaving, whenever the lock is free the active index is what a scan would find. */
  lemma ActiveAgreesWithScan(targets: nat, cooldown: bool, es: seq<Event>)
    requires targets > 0 && CanRun(Fresh(targets, cooldown), es)
    ensures var w := Run(Fresh(targets, cooldown), es); w.lock.None? ==> IsActive(w.healthy, w.active)
  {
    RunKept(targets, cooldown, es);
  }

  /**
   In every interleaving, a reader sees the right index for the flags as they are, or, while somebody
   is between turning a flag and storing the index, for the flags as they were before that one flip.
   */
  lemma ReadersLagOneFlip(targets: nat, cooldown: bool, es: seq<Event>)
    requires targets > 0 && CanRun(Fresh(targets, cooldown), es)
    ensures var w := Run(Fresh(targets, cooldown), es);
      || IsActive(w.healthy, w.active)
      || (w.lock.Some? && w.lock.value in w.tasks
          && (var task := w.tasks[w.lock.value];
              && (task.Scan? || task.Publish? || task.Store?)
              && task.i < |w.healthy| && w.healthy[task.i] == task.up
              && IsActive(w.healthy[task.i := !task.up], w.active)))
  {
    RunKept(targets, cooldown, es);
  }

  /** So is the target that `pick` hands out at that moment. */
  lemma PickIsRight(targets: nat, cooldown: bool, es: seq<Event>, t: nat)
    requires targets > 0 && CanRun(Fresh(targets, cooldown), es)
    requires t in Run(Fresh(targets, cooldown), es).tasks && Run(Fresh(targets, cooldown), es).tasks[t].Pick?
    ensures var w := Run(Fresh(targets, cooldown), es);
      var v := Do(w, Step(t));
      && v.healthy == w.healthy && t in v.tasks && v.tasks[t].Picked?
      && (IsActive(w.healthy, v.tasks[t].target)
          || exists i | 0 <= i < |w.healthy| :: InFlip(w, i) && IsActive(w.healthy[i := !w.healthy[i]], v.tasks[t].target))
      && (w.lock.None? ==> IsActive(w.healthy, v.tasks[t].target))
  {
    RunKept(targets, cooldown, es);
    var w := Run(Fresh(targets, cooldown), es);
    if w.lock.Some? && !IsActive(w.healthy, w.active) { assert InFlip(w, w.tasks[w.lock.value].i); }
  }

  /** Somebody has turned the flag of target `i` and not yet stored the index. */
  predicate InFlip(w: World, i: nat) {
    w.lock.Some? && w.lock.value in w.tasks
    && var task := w.tasks[w.lock.value]; (task.Scan? || task.Publish? || task.Store?) && task.i == i
  }

  lemma RunNext(w: World, es: seq<Event>, e: Event)
    requires CanRun(w, es) && Enabled(Run(w, es), e)
    ensures CanRun(w, es + [e]) && Run(w, es + [e]) == Do(Run(w, es), e)
  {
    assert (es + [e])[..|es|] == es;
  }

  /** A stale index is really seen: the first target is down, and a reader still gets it. */
  lemma StaleReadExample(cooldown: bool) returns (es: seq<Event>)
    ensures CanRun(Fresh(2, cooldown), es)
    ensures var w := Run(Fresh(2, cooldown), es);
      |w.healthy| == 2 && !w.healthy[0] && w.healthy[1] && 1 in w.tasks && w.tasks[1] == Picked(0)
  {
    var w := Fresh(2, cooldown);
    es := [];
    var next := [Start(0, Want(0, false)), Step(0), Step(0), Start(1, Pick), Step(1)];
    RunNext(w, es, next[0]); es := es + [next[0]];
    RunNext(w, es, next[1]); es := es + [next[1]];
    RunNext(w, es, next[2]); es := es + [next[2]];
    RunNext(w, es, next[3]); es := es + [next[3]];
    RunNext(w, es, next[4]); es := es + [next[4]];
  }

  /** In every interleaving of a cooldown pool, a target that is down has a re-arm on its way. */
  lemma DownTargetsComeBack(targets: nat, es: seq<Event>, i: nat)
    requires targets > 0 && CanRun(Fresh(targets, true), es) && i < targets
    ensures var w := Run(Fresh(targets, true), es); |w.healthy| == targets && (!w.healthy[i] ==> Rearmed(w, i))
  {
    RunKept(targets, true, es);
  }
}
