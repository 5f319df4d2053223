/**
 The TCP copy loops of all connections and the per-thread pools of idle pipes they share.
 Each direction of a connection is one copy; its source and its sink are the outside world.
 `read`, `delivered`, `charged` and a pipe's `owner` only keep track of what happened.
 */
module TcpCopy {
  import opened Options
  import opened Sums

  type Bytes = seq<bv8>

  const MAX_IDLE: nat := 16

  datatype Owner = Pooled(thread: nat) | Leased(copy: nat)

  datatype Pipe = Pipe(content: Bytes, owner: Owner)

  datatype Stage = Reading | Charging | Draining | Writing | Done

  /** `left` is what the user-space buffer still holds when no pipe is in use. */
  datatype Copy = Copy(stage: Stage, pipe: Option<nat>, buffered: nat, canSplice: bool, left: Bytes,
                       read: Bytes, delivered: Bytes, charged: nat)

  datatype World = World(idle: map<nat, seq<nat>>, pipes: map<nat, Pipe>, copies: map<nat, Copy>, nextPipe: nat)

  /** The quota lets the bytes through, counts them and stops the user, or stops the user uncounted. */
  datatype Verdict = Allowed | CutOff | Refused

  /** `Drop` ends a copy for any reason: end of file, an error, or cancellation at an await. */
  datatype Event =
    | Begin(c: nat)
    | Acquire(c: nat, thread: nat, created: bool)
    | Fill(c: nat, data: Bytes)
    | WouldBlock(c: nat, thread: nat)
    | ReadBuffer(c: nat, data: Bytes)
    | Charge(c: nat, thread: nat, verdict: Verdict)
    | Drain(c: nat, n: nat)
    | Write(c: nat, n: nat)
    | Settled(c: nat)
    | Drop(c: nat, thread: nat)

  const NEW_COPY := Copy(Reading, None, 0, true, [], [], [], 0)

  function IdleOf(w: World, thread: nat): seq<nat> {
    if thread in w.idle then w.idle[thread] else []
  }

  function Put(w: World, c: nat, x: Copy): World {
    w.(copies := w.copies[c := x])
  }

  /** Returns an empty pipe to the pool of the thread the copy runs on; closes any other. */
  function GiveBack(w: World, c: nat, thread: nat, x: Copy): World {
    var y := x.(pipe := None, buffered := 0);
    if x.pipe.None? then Put(w, c, y)
    else
      var p := x.pipe.value;
      if x.buffered == 0 && |IdleOf(w, thread)| < MAX_IDLE && p in w.pipes then
        Put(w, c, y).(idle := w.idle[thread := IdleOf(w, thread) + [p]],
                      pipes := w.pipes[p := w.pipes[p].(owner := Pooled(thread))])
      else
        Put(w, c, y).(pipes := w.pipes - {p})
  }

  function InFlight(w: World, x: Copy): Bytes {
    if x.pipe.Some? && x.pipe.value in w.pipes then w.pipes[x.pipe.value].content else x.left
  }

  predicate Enabled(w: World, e: Event) {
    match e
    case Begin(c) => c !in w.copies
    case Acquire(c, _, _) =>
      c in w.copies && w.copies[c].stage.Reading? && w.copies[c].pipe.None? && w.copies[c].canSplice
    case Fill(c, data) =>
      && data != [] && c in w.copies && w.copies[c].stage.Reading? && w.copies[c].pipe.Some?
      && w.copies[c].pipe.value in w.pipes
    case WouldBlock(c, _) => c in w.copies && w.copies[c].stage.Reading? && w.copies[c].pipe.Some?
    case ReadBuffer(c, data) =>
      data != [] && c in w.copies && w.copies[c].stage.Reading? && w.copies[c].pipe.None? && !w.copies[c].canSplice
    case Charge(c, _, _) => c in w.copies && w.copies[c].stage.Charging?
    case Drain(c, n) =>
      && c in w.copies && w.copies[c].stage.Draining? && w.copies[c].pipe.Some?
      && w.copies[c].pipe.value in w.pipes
      && 0 < n <= w.copies[c].buffered && n <= |w.pipes[w.copies[c].pipe.value].content|
    case Write(c, n) => c in w.copies && w.copies[c].stage.Writing? && 0 < n <= |w.copies[c].left|
    case Settled(c) =>
      c in w.copies && ((w.copies[c].stage.Draining? && w.copies[c].buffered == 0)
                        || (w.copies[c].stage.Writing? && w.copies[c].left == []))
    case Drop(c, _) => c in w.copies && !w.copies[c].stage.Done?
  }

  /** The bytes just read are counted and may go out. */
  function Counted(w: World, c: nat): World
    requires c in w.copies
  {
    var x := w.copies[c];
    var n := if x.pipe.Some? then x.buffered else |x.left|;
    Put(w, c, x.(stage := if x.pipe.Some? then Draining else Writing, charged := x.charged + n))
  }

  function Do(w: World, e: Event): World
    requires Enabled(w, e)
  {
    match e
    case Begin(c) => Put(w, c, NEW_COPY)
    case Acquire(c, thread, created) =>
      var x, idle := w.copies[c], IdleOf(w, thread);
      if |idle| > 0 then
        var p := idle[|idle| - 1];
        var t := Put(w, c, x.(pipe := Some(p))).(idle := w.idle[thread := idle[..|idle| - 1]]);
        if p in w.pipes then t.(pipes := w.pipes[p := w.pipes[p].(owner := Leased(c))]) else t
      else if created then
        Put(w, c, x.(pipe := Some(w.nextPipe))).(pipes := w.pipes[w.nextPipe := Pipe([], Leased(c))],
                                                 nextPipe := w.nextPipe + 1)
      else Put(w, c, x.(canSplice := false))
    case Fill(c, data) =>
      var x := w.copies[c];
      var p := x.pipe.value;
      Put(w, c, x.(stage := Charging, buffered := |data|, read := x.read + data))
        .(pipes := w.pipes[p := w.pipes[p].(content := w.pipes[p].content + data)])
    case WouldBlock(c, thread) => GiveBack(w, c, thread, w.copies[c])
    case ReadBuffer(c, data) =>
      var x := w.copies[c];
      Put(w, c, x.(stage := Charging, left := data, read := x.read + data))
    case Charge(c, thread, verdict) =>
      match verdict {
        case Allowed => Counted(w, c)
        case CutOff => GiveBack(Counted(w, c), c, thread, Counted(w, c).copies[c].(stage := Done))
        case Refused => GiveBack(w, c, thread, w.copies[c].(stage := Done))
      }
    case Drain(c, n) =>
      var x := w.copies[c];
      var p := x.pipe.value;
      var content := w.pipes[p].content;
      Put(w, c, x.(buffered := x.buffered - n, delivered := x.delivered + content[..n]))
        .(pipes := w.pipes[p := w.pipes[p].(content := content[n..])])
    case Write(c, n) =>
      var x := w.copies[c];
      Put(w, c, x.(left := x.left[n..], delivered := x.delivered + x.left[..n]))
    case Settled(c) => Put(w, c, w.copies[c].(stage := Reading))
    case Drop(c, thread) => GiveBack(w, c, thread, w.copies[c].(stage := Done))
  }

  predicate CanRun(w: World, es: seq<Event>)
    decreases |es|, 0
  {
    |es| == 0 || (CanRun(w, es[..|es| - 1]) && Enabled(Run(w, es[..|es| - 1]), es[|es| - 1]))
  }

  function Run(w: World, es: seq<Event>): World
    requires CanRun(w, es)
    decreases |es|, 1
  {
    if |es| == 0 then w else Do(Run(w, es[..|es| - 1]), es[|es| - 1])
  }

  const NOTHING := World(map[], map[], map[], 0)

  // ---------------------------------------------------------------- what every step keeps

  /** The copy's own account: what it read is what it delivered plus what is in flight. */
  predicate Account(x: Copy, flight: Bytes) {
    match x.stage
    case Reading => x.read == x.delivered && flight == [] && x.charged == |x.delivered|
    case Charging => x.read == x.delivered + flight && x.charged == |x.delivered|
    case Draining => x.pipe.Some? && x.read == x.delivered + flight && x.charged == |x.read|
    case Writing => x.pipe.None? && x.read == x.delivered + flight && x.charged == |x.read|
    case Done => x.pipe.None? && x.delivered <= x.read && |x.delivered| <= x.charged <= |x.read|
  }

  predicate CopyOk(w: World, c: nat)
    requires c in w.copies
  {
    var x := w.copies[c];
    && (x.pipe.Some? ==>
          && x.pipe.value in w.pipes && w.pipes[x.pipe.value].owner == Leased(c)
          && x.buffered == |w.pipes[x.pipe.value].content|)
    && (x.pipe.None? ==> x.buffered == 0)
    && (x.pipe.Some? ==> x.canSplice) && (x.canSplice ==> x.left == [])
    && Account(x, InFlight(w, x))
  }

  predicate PipeOk(w: World, p: nat)
    requires p in w.pipes
  {
    && p < w.nextPipe
    && match w.pipes[p].owner
       case Pooled(thread) => w.pipes[p].content == []
       case Leased(c) => c in w.copies && w.copies[c].pipe == Some(p)
  }

  predicate PoolOk(w: World, thread: nat)
    requires thread in w.idle
  {
    && Distinct(w.idle[thread]) && |w.idle[thread]| <= MAX_IDLE
    && forall p | p in w.idle[thread] :: p in w.pipes && w.pipes[p].owner == Pooled(thread)
  }

  predicate Inv(w: World) {
    && (forall c | c in w.copies :: CopyOk(w, c))
    && (forall p | p in w.pipes :: PipeOk(w, p))
    && (forall t | t in w.idle :: PoolOk(w, t))
  }

  /** A step of one copy that touches at most its own pipe leaves every other copy and pool alone. */
  lemma OthersKept(w: World, v: World, c: nat)
    requires Inv(w) && v.idle == w.idle && v.nextPipe == w.nextPipe && v.pipes.Keys == w.pipes.Keys
    requires c in w.copies && c in v.copies && v.copies == w.copies[c := v.copies[c]]
    requires v.copies[c].pipe == w.copies[c].pipe && CopyOk(v, c)
    requires forall p | p in w.pipes ::
               v.pipes[p].owner == w.pipes[p].owner && (v.pipes[p] == w.pipes[p] || w.copies[c].pipe == Some(p))
    ensures Inv(v)
  {
    forall d | d in v.copies ensures CopyOk(v, d) {
      if d != c {
        assert CopyOk(w, d) && CopyOk(w, c);
      }
    }
    forall p | p in v.pipes ensures PipeOk(v, p) {
      assert PipeOk(w, p);
      assert CopyOk(w, c);
    }
    forall t | t in v.idle ensures PoolOk(v, t) { assert PoolOk(w, t); }
  }

  /** A copy outside the pool's reach: only its own record changes. */
  lemma KeepRecord(w: World, c: nat, x: Copy)
    requires Inv(w) && c in w.copies && x.pipe == w.copies[c].pipe
    requires CopyOk(Put(w, c, x), c)
    ensures Inv(Put(w, c, x))
  {
    OthersKept(w, Put(w, c, x), c);
  }

  lemma KeepFill(w: World, c: nat, data: Bytes)
    requires Inv(w) && Enabled(w, Fill(c, data))
    ensures Inv(Do(w, Fill(c, data)))
  {
    assert CopyOk(w, c);
    var x := w.copies[c];
    assert w.pipes[x.pipe.value].content + data == data;
    OthersKept(w, Do(w, Fill(c, data)), c);
  }

  lemma KeepDrain(w: World, c: nat, n: nat)
    requires Inv(w) && Enabled(w, Drain(c, n))
    ensures Inv(Do(w, Drain(c, n)))
  {
    assert CopyOk(w, c);
    var x := w.copies[c];
    var content := w.pipes[x.pipe.value].content;
    assert x.delivered + content == (x.delivered + content[..n]) + content[n..];
    OthersKept(w, Do(w, Drain(c, n)), c);
  }

  lemma KeepBuffer(w: World, e: Event)
    requires Inv(w) && Enabled(w, e) && (e.ReadBuffer? || e.Write? || e.Settled?)
    ensures Inv(Do(w, e))
  {
    assert CopyOk(w, e.c);
    var x, y := w.copies[e.c], Do(w, e).copies[e.c];
    if e.Write? { assert x.delivered + x.left == (x.delivered + x.left[..e.n]) + x.left[e.n..]; }
    if e.Settled? { assert x.delivered + [] == x.delivered; }
    KeepRecord(w, e.c, y);
  }

  lemma KeepCounted(w: World, c: nat)
    requires Inv(w) && c in w.copies && w.copies[c].stage.Charging?
    ensures Inv(Counted(w, c))
  {
    assert CopyOk(w, c);
    KeepRecord(w, c, Counted(w, c).copies[c]);
  }

  lemma KeepBegin(w: World, c: nat)
    requires Inv(w) && c !in w.copies
    ensures Inv(Put(w, c, NEW_COPY))
  {
    var v := Put(w, c, NEW_COPY);
    forall d | d in v.copies ensures CopyOk(v, d) {
      if d != c { assert CopyOk(w, d); }
    }
    forall p | p in v.pipes ensures PipeOk(v, p) { assert PipeOk(w, p); }
    forall t | t in v.idle ensures PoolOk(v, t) { assert PoolOk(w, t); }
  }

  /** Whether a lease ends in the pool or in a closed pipe, the pool stays empty-handed and unshared. */
  lemma KeepGiveBack(w: World, c: nat, thread: nat, x: Copy)
    requires Inv(w) && c in w.copies && (x == w.copies[c] || x == w.copies[c].(stage := Done))
    requires x.stage.Done? || (x.stage.Reading? && x.pipe.Some?)
    ensures Inv(GiveBack(w, c, thread, x))
  {
    assert CopyOk(w, c);
    var v := GiveBack(w, c, thread, x);
    GivenBackCopies(w, c, thread, x);
    forall p | p in v.pipes ensures PipeOk(v, p) { assert PipeOk(w, p); }
    forall t | t in v.idle ensures PoolOk(v, t) { GivenBackPool(w, c, thread, x, t); }
  }

  lemma GivenBackCopies(w: World, c: nat, thread: nat, x: Copy)
    requires Inv(w) && c in w.copies && (x == w.copies[c] || x == w.copies[c].(stage := Done))
    requires x.stage.Done? || (x.stage.Reading? && x.pipe.Some?)
    ensures var v := GiveBack(w, c, thread, x); forall d | d in v.copies :: CopyOk(v, d)
  {
    var v := GiveBack(w, c, thread, x);
    assert CopyOk(w, c);
    forall d | d in v.copies ensures CopyOk(v, d) {
      if d != c { assert CopyOk(w, d); }
    }
  }

  lemma GivenBackPool(w: World, c: nat, thread: nat, x: Copy, t: nat)
    requires Inv(w) && c in w.copies && (x == w.copies[c] || x == w.copies[c].(stage := Done))
    requires t in GiveBack(w, c, thread, x).idle
    ensures PoolOk(GiveBack(w, c, thread, x), t)
  {
    assert CopyOk(w, c);
    if t in w.idle { assert PoolOk(w, t); }
  }

  lemma KeepAcquire(w: World, c: nat, thread: nat, created: bool)
    requires Inv(w) && Enabled(w, Acquire(c, thread, created))
    ensures Inv(Do(w, Acquire(c, thread, created)))
  {
    assert CopyOk(w, c);
    var v := Do(w, Acquire(c, thread, created));
    if thread in w.idle { assert PoolOk(w, thread); }
    AcquiredCopies(w, c, thread, created);
    forall p | p in v.pipes ensures PipeOk(v, p) {
      if p in w.pipes { assert PipeOk(w, p); }
    }
    forall t | t in v.idle ensures PoolOk(v, t) {
      assert PoolOk(w, t);
    }
  }

  lemma AcquiredCopies(w: World, c: nat, thread: nat, created: bool)
    requires Inv(w) && Enabled(w, Acquire(c, thread, created))
    ensures var v := Do(w, Acquire(c, thread, created)); forall d | d in v.copies :: CopyOk(v, d)
  {
    assert CopyOk(w, c);
    var v, idle := Do(w, Acquire(c, thread, created)), IdleOf(w, thread);
    if |idle| > 0 {
      assert PoolOk(w, thread);
      assert idle[|idle| - 1] in idle;
      assert PipeOk(w, idle[|idle| - 1]);
    }
    forall d | d in v.copies ensures CopyOk(v, d) {
      assert CopyOk(w, d);
      if d != c && w.copies[d].pipe.Some? { assert PipeOk(w, w.copies[d].pipe.value); }
    }
  }

  lemma StepKeeps(w: World, e: Event)
    requires Inv(w) && Enabled(w, e)
    ensures Inv(Do(w, e))
  {
    match e
    case Begin(c) => KeepBegin(w, c);
    case Acquire(c, thread, created) => KeepAcquire(w, c, thread, created);
    case Fill(c, data) => KeepFill(w, c, data);
    case WouldBlock(c, thread) => KeepGiveBack(w, c, thread, w.copies[c]);
    case Charge(c, thread, verdict) =>
      if verdict.Refused? {
        KeepGiveBack(w, c, thread, w.copies[c].(stage := Done));
      } else {
        KeepCounted(w, c);
        if verdict.CutOff? {
          KeepGiveBack(Counted(w, c), c, thread, Counted(w, c).copies[c].(stage := Done));
        }
      }
    case Drain(c, n) => KeepDrain(w, c, n);
    case Drop(c, thread) => KeepGiveBack(w, c, thread, w.copies[c].(stage := Done));
    case _ => KeepBuffer(w, e);
  }

  lemma {:induction false} RunKeeps(es: seq<Event>)
    requires CanRun(NOTHING, es)
    ensures Inv(Run(NOTHING, es))
  {
    if |es| > 0 {
      RunKeeps(es[..|es| - 1]);
      StepKeeps(Run(NOTHING, es[..|es| - 1]), es[|es| - 1]);
    }
  }

  // ---------------------------------------------------------------- theorems

  /** In every interleaving a copy delivers only bytes of its own source, in order, each charged first. */
  lemma DeliversOwnBytes(es: seq<Event>, c: nat)
    requires CanRun(NOTHING, es) && c in Run(NOTHING, es).copies
    ensures var x := Run(NOTHING, es).copies[c]; x.delivered <= x.read && |x.delivered| <= x.charged <= |x.read|
  {
    RunKeeps(es);
    var w := Run(NOTHING, es);
    assert CopyOk(w, c);
    AccountMeans(w.copies[c], InFlight(w, w.copies[c]));
  }

  lemma AccountMeans(x: Copy, flight: Bytes)
    requires Account(x, flight)
    ensures x.delivered <= x.read && |x.delivered| <= x.charged <= |x.read|
  {
  }

  /** In every interleaving an idle pipe is empty, in one pool once, and leased by nobody. */
  lemma IdlePipesAreClean(es: seq<Event>, thread: nat, p: nat)
    requires CanRun(NOTHING, es) && p in IdleOf(Run(NOTHING, es), thread)
    ensures var w := Run(NOTHING, es);
      && p in w.pipes && w.pipes[p].content == []
      && |w.idle[thread]| <= MAX_IDLE && Distinct(w.idle[thread])
      && (forall c | c in w.copies :: w.copies[c].pipe != Some(p))
      && (forall t | t != thread :: p !in IdleOf(w, t))
  {
    RunKeeps(es);
    var w := Run(NOTHING, es);
    assert PoolOk(w, thread) && PipeOk(w, p);
    forall c | c in w.copies ensures w.copies[c].pipe != Some(p) { assert CopyOk(w, c); }
    forall t | t != thread ensures p !in IdleOf(w, t) {
      if t in w.idle { assert PoolOk(w, t); }
    }
  }

  /** In every interleaving a leased pipe holds exactly the bytes its one copy has in flight. */
  lemma LeasedPipesAreExclusive(es: seq<Event>, c: nat, d: nat)
    requires CanRun(NOTHING, es) && c in Run(NOTHING, es).copies && d in Run(NOTHING, es).copies
    requires Run(NOTHING, es).copies[c].pipe.Some?
    ensures var w := Run(NOTHING, es);
      var x := w.copies[c];
      && x.pipe.value in w.pipes && x.buffered == |w.pipes[x.pipe.value].content|
      && x.read == x.delivered + w.pipes[x.pipe.value].content
      && (d != c ==> w.copies[d].pipe != x.pipe)
  {
    RunKeeps(es);
    var w := Run(NOTHING, es);
    assert CopyOk(w, c) && CopyOk(w, d);
    var x := w.copies[c];
    assert x.stage.Reading? ==> x.read == x.delivered + [];
  }

  /** Bytes the quota lets through go on to the sink: nothing is dropped, and the copy can write them all. */
  lemma AllowedBytesGoOut(es: seq<Event>, c: nat, thread: nat)
    requires CanRun(NOTHING, es) && c in Run(NOTHING, es).copies && Run(NOTHING, es).copies[c].stage.Charging?
    ensures var w := Run(NOTHING, es);
      var x, v := w.copies[c], Do(w, Charge(c, thread, Allowed));
      var y, flight := v.copies[c], InFlight(w, x);
      && flight != [] && InFlight(v, y) == flight && y.read == x.read && y.delivered == x.delivered
      && y.charged == x.charged + |flight| && (y.stage.Draining? <==> x.pipe.Some?) && (y.stage.Writing? <==> x.pipe.None?)
      && var out := if x.pipe.Some? then Drain(c, |flight|) else Write(c, |flight|);
         && Enabled(v, out) && Do(v, out).copies[c].delivered == x.delivered + flight == x.read
         && Enabled(Do(v, out), Settled(c)) && Do(Do(v, out), Settled(c)).copies[c].stage.Reading?
  {
    RunKeeps(es);
    FlightsStay(es);
    assert CopyOk(Run(NOTHING, es), c) && Flying(Run(NOTHING, es), c);
  }

  /** A copy that waits for the quota has bytes in flight. */
  predicate Flying(w: World, c: nat)
    requires c in w.copies
  {
    w.copies[c].stage.Charging? ==> InFlight(w, w.copies[c]) != []
  }

  lemma FlyingKept(w: World, e: Event)
    requires Inv(w) && Enabled(w, e) && forall c | c in w.copies :: Flying(w, c)
    ensures forall c | c in Do(w, e).copies :: Flying(Do(w, e), c)
  {
    StepKeeps(w, e);
    var v := Do(w, e);
    forall c | c in v.copies ensures Flying(v, c) {
      if c in w.copies {
        assert Flying(w, c) && CopyOk(w, c);
        if e.c in w.copies { assert CopyOk(w, e.c); }
      }
      assert CopyOk(v, c);
    }
  }

  lemma {:induction false} FlightsStay(es: seq<Event>)
    requires CanRun(NOTHING, es)
    ensures forall c | c in Run(NOTHING, es).copies :: Flying(Run(NOTHING, es), c)
  {
    if |es| > 0 {
      FlightsStay(es[..|es| - 1]);
      RunKeeps(es[..|es| - 1]);
      FlyingKept(Run(NOTHING, es[..|es| - 1]), es[|es| - 1]);
    }
  }

  /** An empty pipe goes back to the pool of its thread while there is room; any other is closed. */
  lemma PipesGoBack(es: seq<Event>, c: nat, thread: nat)
    requires CanRun(NOTHING, es) && c in Run(NOTHING, es).copies && !Run(NOTHING, es).copies[c].stage.Done?
    requires Run(NOTHING, es).copies[c].pipe.Some?
    ensures var w := Run(NOTHING, es);
      var p, v := w.copies[c].pipe.value, Do(w, Drop(c, thread));
      && v.copies[c].stage.Done? && v.copies[c].pipe == None && p in w.pipes
      && (if w.pipes[p].content == [] && |IdleOf(w, thread)| < MAX_IDLE then IdleOf(v, thread) == IdleOf(w, thread) + [p]
          else p !in v.pipes && IdleOf(v, thread) == IdleOf(w, thread))
  {
    RunKeeps(es);
    assert CopyOk(Run(NOTHING, es), c);
  }
}
