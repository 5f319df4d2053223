/**
 One shard of the UDP relay: the receive loop, the tasks that open sessions and the tasks that tear
 them down share the session map. Packets of a peer are numbered in order of arrival; `arrived`,
 `forwarded` and the opener named in an opening slot only keep track of what happened.
 */
module Relay {
  import opened Sums

  const MAX_PENDING: nat := 32

  datatype Slot = Opening(pending: seq<nat>, opener: nat) | Open(session: nat)

  datatype Opener =
    | Connecting(peer: string)
    | Taking(peer: string, session: nat)
    | Flushing(peer: string, session: nat, held: seq<nat>)
    | Failing(peer: string)

  datatype Loop =
    | Waiting
    | Forwarding(peer: string, session: nat, packet: nat)
    | Shedding(peer: string, session: nat)

  /** A forward is refused by the quota, taken by the socket, or handed to it and failed. */
  datatype Sent = Refused | Taken | Broken

  datatype Shard = Shard(limit: nat, slots: map<string, Slot>, openers: map<nat, Opener>, loop: Loop,
                         nextOpener: nat, nextSession: nat,
                         arrived: map<string, nat>, forwarded: map<string, seq<nat>>)

  datatype Event =
    | Arrive(peer: string)
    | Discard(peer: string)
    | LoopSent(sent: Sent)
    | LoopShed
    | Connected(o: nat)
    | NotConnected(o: nat)
    | TakePending(o: nat)
    | OpenerSent(o: nat, sent: Sent)
    | OpenerRemove(o: nat)
    | Teardown(peer: string, session: nat)

  function Fwd(s: Shard, peer: string): seq<nat> {
    if peer in s.forwarded then s.forwarded[peer] else []
  }

  function Arrived(s: Shard, peer: string): nat {
    if peer in s.arrived then s.arrived[peer] else 0
  }

  function Counted(s: Shard, peer: string): Shard {
    s.(arrived := s.arrived[peer := Arrived(s, peer) + 1])
  }

  function Log(s: Shard, peer: string, packet: nat): Shard {
    s.(forwarded := s.forwarded[peer := Fwd(s, peer) + [packet]])
  }

  function RemoveOpen(s: Shard, peer: string, session: nat): Shard {
    if peer in s.slots && s.slots[peer] == Open(session) then s.(slots := s.slots - {peer}) else s
  }

  predicate Enabled(s: Shard, e: Event) {
    match e
    case Arrive(_) => s.loop.Waiting?
    case Discard(_) => s.loop.Waiting?
    case LoopSent(_) => s.loop.Forwarding?
    case LoopShed => s.loop.Shedding?
    case Connected(o) => o in s.openers && s.openers[o].Connecting?
    case NotConnected(o) => o in s.openers && s.openers[o].Connecting?
    case TakePending(o) => o in s.openers && s.openers[o].Taking?
    case OpenerSent(o, _) => o in s.openers && s.openers[o].Flushing? && |s.openers[o].held| > 0
    case OpenerRemove(o) => o in s.openers && s.openers[o].Failing?
    case Teardown(_, _) => true
  }

  /** Dispatch under the map's lock. */
  function Dispatch(s: Shard, peer: string, packet: nat): Shard {
    if peer in s.slots then
      match s.slots[peer]
      case Open(session) => s.(loop := Forwarding(peer, session, packet))
      case Opening(pending, o) =>
        if |pending| < MAX_PENDING then s.(slots := s.slots[peer := Opening(pending + [packet], o)]) else s
    else if |s.slots| >= s.limit then s
    else
      s.(slots := s.slots[peer := Opening([packet], s.nextOpener)],
         openers := s.openers[s.nextOpener := Connecting(peer)], nextOpener := s.nextOpener + 1)
  }

  /** The opener has its socket and numbers the new session. */
  function WithSession(s: Shard, o: nat): Shard
    requires o in s.openers
  {
    s.(openers := s.openers[o := Taking(s.openers[o].peer, s.nextSession)], nextSession := s.nextSession + 1)
  }

  function Do(s: Shard, e: Event): Shard
    requires Enabled(s, e)
  {
    match e
    case Arrive(peer) => Dispatch(Counted(s, peer), peer, Arrived(s, peer))
    case Discard(peer) => Counted(s, peer)
    case LoopSent(sent) =>
      var Forwarding(peer, session, packet) := s.loop;
      var t := if sent.Refused? then s else Log(s, peer, packet);
      t.(loop := if sent.Broken? then Shedding(peer, session) else Waiting)
    case LoopShed => RemoveOpen(s, s.loop.peer, s.loop.session).(loop := Waiting)
    case Connected(o) => WithSession(s, o)
    case NotConnected(o) => s.(openers := s.openers[o := Failing(s.openers[o].peer)])
    case TakePending(o) =>
      var Taking(peer, session) := s.openers[o];
      if peer in s.slots && s.slots[peer].Opening? && |s.slots[peer].pending| > 0 then
        s.(slots := s.slots[peer := Opening([], s.slots[peer].opener)],
           openers := s.openers[o := Flushing(peer, session, s.slots[peer].pending)])
      else
        s.(slots := s.slots[peer := Open(session)], openers := s.openers - {o})
    case OpenerSent(o, sent) =>
      var Flushing(peer, session, held) := s.openers[o];
      var t := if sent.Refused? then s else Log(s, peer, held[0]);
      var next := if sent.Broken? then Failing(peer)
                  else if |held| == 1 then Taking(peer, session)
                  else Flushing(peer, session, held[1..]);
      t.(openers := t.openers[o := next])
    case OpenerRemove(o) =>
      s.(slots := s.slots - {s.openers[o].peer}, openers := s.openers - {o})
    case Teardown(peer, session) => RemoveOpen(s, peer, session)
  }

  predicate CanRun(s: Shard, es: seq<Event>)
    decreases |es|, 0
  {
    |es| == 0 || (CanRun(s, es[..|es| - 1]) && Enabled(Run(s, es[..|es| - 1]), es[|es| - 1]))
  }

  function Run(s: Shard, es: seq<Event>): Shard
    requires CanRun(s, es)
    decreases |es|, 1
  {
    if |es| == 0 then s else Do(Run(s, es[..|es| - 1]), es[|es| - 1])
  }

  function Fresh(limit: nat): Shard {
    Shard(limit, map[], map[], Waiting, 0, 0, map[], map[])
  }

  // ---------------------------------------------------------------- what every step keeps

  predicate InOrder(xs: seq<nat>, bound: nat) {
    && (forall i, j | 0 <= i < j < |xs| :: xs[i] < xs[j])
    && (forall i | 0 <= i < |xs| :: xs[i] < bound)
  }

  function Held(op: Opener): seq<nat> {
    if op.Flushing? then op.held else []
  }

  /** An opener owns its peer's opening slot, and its packets come before the ones still pending. */
  predicate OpenerOk(s: Shard, o: nat)
    requires o in s.openers
  {
    var op := s.openers[o];
    && o < s.nextOpener
    && op.peer in s.slots && s.slots[op.peer].Opening? && s.slots[op.peer].opener == o
    && InOrder(Fwd(s, op.peer) + Held(op) + s.slots[op.peer].pending, Arrived(s, op.peer))
  }

  /** An opening slot has a live opener and a bounded queue. */
  predicate SlotOk(s: Shard, peer: string)
    requires peer in s.slots
  {
    s.slots[peer].Opening? ==>
      && s.slots[peer].opener in s.openers && s.openers[s.slots[peer].opener].peer == peer
      && |s.slots[peer].pending| <= MAX_PENDING
  }

  predicate LoopOk(s: Shard) {
    s.loop.Forwarding? ==>
      && InOrder(Fwd(s, s.loop.peer) + [s.loop.packet], Arrived(s, s.loop.peer))
      && (s.loop.peer in s.slots ==> s.slots[s.loop.peer].Open?)
  }

  predicate PeerOk(s: Shard, peer: string) {
    InOrder(Fwd(s, peer), Arrived(s, peer))
  }

  ghost predicate Inv(s: Shard) {
    && |s.slots| <= s.limit
    && (forall o | o in s.openers :: OpenerOk(s, o))
    && (forall peer | peer in s.slots :: SlotOk(s, peer))
    && LoopOk(s)
    && (forall peer :: PeerOk(s, peer))
  }

  lemma Appended(xs: seq<nat>, bound: nat)
    requires InOrder(xs, bound)
    ensures InOrder(xs + [bound], bound + 1) && InOrder(xs, bound + 1)
  {
  }

  lemma Prefix(xs: seq<nat>, ys: seq<nat>, bound: nat)
    requires InOrder(xs + ys, bound)
    ensures InOrder(xs, bound)
  {
    assert forall i | 0 <= i < |xs| :: (xs + ys)[i] == xs[i];
  }

  lemma SlotsShrink(slots: map<string, Slot>, peer: string)
    ensures |slots - {peer}| <= |slots|
  {
    assert (slots - {peer}).Keys == slots.Keys - {peer};
  }

  lemma SlotsGrow(slots: map<string, Slot>, peer: string, slot: Slot)
    ensures |slots[peer := slot]| <= |slots| + 1
    ensures peer in slots ==> |slots[peer := slot]| == |slots|
  {
    assert slots[peer := slot].Keys == slots.Keys + {peer};
    if peer in slots { assert slots.Keys + {peer} == slots.Keys; }
  }

  /** Everything known about an opener survives a step that leaves its peer alone. */
  lemma OpenerFrame(s: Shard, t: Shard, o: nat)
    requires o in s.openers && OpenerOk(s, o)
    requires o in t.openers && t.openers[o] == s.openers[o] && s.nextOpener <= t.nextOpener
    requires var p := s.openers[o].peer;
      p in t.slots && t.slots[p] == s.slots[p] && Fwd(t, p) == Fwd(s, p) && Arrived(t, p) == Arrived(s, p)
    ensures OpenerOk(t, o)
  {
  }

  /** The new packet comes after everything an opener of its peer still has to forward. */
  predicate ComesLast(s: Shard, peer: string, packet: nat, o: nat) {
    o in s.openers && s.openers[o].peer == peer && peer in s.slots && s.slots[peer].Opening? ==>
      InOrder(Fwd(s, peer) + Held(s.openers[o]) + s.slots[peer].pending + [packet], Arrived(s, peer))
  }

  lemma CountedOpener(s: Shard, peer: string, o: nat)
    requires Inv(s) && o in s.openers
    ensures OpenerOk(Counted(s, peer), o) && ComesLast(Counted(s, peer), peer, Arrived(s, peer), o)
  {
    assert OpenerOk(s, o);
    if s.openers[o].peer == peer {
      Appended(Fwd(s, peer) + Held(s.openers[o]) + s.slots[peer].pending, Arrived(s, peer));
    } else {
      OpenerFrame(s, Counted(s, peer), o);
    }
  }

  lemma NewPacket(s: Shard, peer: string)
    requires Inv(s) && s.loop.Waiting?
    ensures Inv(Counted(s, peer))
    ensures InOrder(Fwd(Counted(s, peer), peer) + [Arrived(s, peer)], Arrived(Counted(s, peer), peer))
    ensures forall o | o in s.openers :: ComesLast(Counted(s, peer), peer, Arrived(s, peer), o)
  {
    var t := Counted(s, peer);
    assert PeerOk(s, peer);
    Appended(Fwd(s, peer), Arrived(s, peer));
    forall o | o in s.openers ensures OpenerOk(t, o) && ComesLast(t, peer, Arrived(s, peer), o) {
      CountedOpener(s, peer, o);
    }
    forall p | p in s.slots ensures SlotOk(t, p) { assert SlotOk(s, p); }
    forall p ensures PeerOk(t, p) { assert PeerOk(s, p); }
  }

  lemma KeepDispatch(s: Shard, peer: string, packet: nat)
    requires Inv(s) && s.loop.Waiting?
    requires InOrder(Fwd(s, peer) + [packet], Arrived(s, peer))
    requires forall o | o in s.openers :: ComesLast(s, peer, packet, o)
    ensures Inv(Dispatch(s, peer, packet))
  {
    var t := Dispatch(s, peer, packet);
    if peer in s.slots && s.slots[peer].Opening? {
      KeepQueue(s, peer, packet);
    } else if peer in s.slots {
      KeepAll(s, t);
    } else if |s.slots| < s.limit {
      KeepSpawn(s, peer, packet);
    }
  }

  /** A step that touches neither slots, openers, arrivals nor what was forwarded. */
  lemma KeepAll(s: Shard, t: Shard)
    requires Inv(s) && LoopOk(t) && t.(loop := s.loop, nextSession := s.nextSession) == s
    ensures Inv(t)
  {
    forall o | o in t.openers ensures OpenerOk(t, o) { assert OpenerOk(s, o); }
    forall p | p in t.slots ensures SlotOk(t, p) { assert SlotOk(s, p); }
    forall p ensures PeerOk(t, p) { assert PeerOk(s, p); }
  }

  lemma QueuedOpener(s: Shard, t: Shard, peer: string, packet: nat, o: nat)
    requires o in s.openers && OpenerOk(s, o) && ComesLast(s, peer, packet, o)
    requires peer in s.slots && s.slots[peer].Opening?
    requires t == s.(slots := s.slots[peer := s.slots[peer].(pending := s.slots[peer].pending + [packet])])
    ensures OpenerOk(t, o)
  {
    if s.openers[o].peer == peer {
      assert Fwd(s, peer) + Held(s.openers[o]) + (s.slots[peer].pending + [packet])
          == Fwd(s, peer) + Held(s.openers[o]) + s.slots[peer].pending + [packet];
    } else {
      OpenerFrame(s, t, o);
    }
  }

  lemma KeepQueue(s: Shard, peer: string, packet: nat)
    requires Inv(s) && s.loop.Waiting? && peer in s.slots && s.slots[peer].Opening?
    requires forall o | o in s.openers :: ComesLast(s, peer, packet, o)
    ensures Inv(Dispatch(s, peer, packet))
  {
    var t := Dispatch(s, peer, packet);
    if |s.slots[peer].pending| < MAX_PENDING {
      SlotsGrow(s.slots, peer, t.slots[peer]);
      forall o | o in t.openers ensures OpenerOk(t, o) {
        assert OpenerOk(s, o) && ComesLast(s, peer, packet, o);
        QueuedOpener(s, t, peer, packet, o);
      }
      forall p | p in t.slots ensures SlotOk(t, p) { assert SlotOk(s, p); }
      forall p ensures PeerOk(t, p) { assert PeerOk(s, p); }
    }
  }

  lemma KeepSpawn(s: Shard, peer: string, packet: nat)
    requires Inv(s) && s.loop.Waiting? && peer !in s.slots && |s.slots| < s.limit
    requires InOrder(Fwd(s, peer) + [packet], Arrived(s, peer))
    ensures Inv(Dispatch(s, peer, packet))
  {
    var t := Dispatch(s, peer, packet);
    SlotsGrow(s.slots, peer, t.slots[peer]);
    forall o | o in t.openers ensures OpenerOk(t, o) {
      if o in s.openers {
        assert OpenerOk(s, o);
      }
      if o == s.nextOpener {
        assert Fwd(s, peer) + [] + [packet] == Fwd(s, peer) + [packet];
      }
    }
    forall p | p in t.slots ensures SlotOk(t, p) {
      if p != peer {
        assert SlotOk(s, p);
        if s.slots[p].Opening? { assert OpenerOk(s, s.slots[p].opener); }
      }
    }
    forall p ensures PeerOk(t, p) { assert PeerOk(s, p); }
  }

  lemma KeepRemoveOpen(s: Shard, peer: string, session: nat)
    requires Inv(s)
    ensures Inv(RemoveOpen(s, peer, session))
  {
    var t := RemoveOpen(s, peer, session);
    SlotsShrink(s.slots, peer);
    forall o | o in t.openers ensures OpenerOk(t, o) { assert OpenerOk(s, o); }
    forall p | p in t.slots ensures SlotOk(t, p) { assert SlotOk(s, p); }
    forall p ensures PeerOk(t, p) { assert PeerOk(s, p); }
  }

  lemma KeepLoopSent(s: Shard, sent: Sent)
    requires Inv(s) && s.loop.Forwarding?
    ensures Inv(Do(s, LoopSent(sent)))
  {
    var t := Do(s, LoopSent(sent));
    var peer, packet := s.loop.peer, s.loop.packet;
    forall o | o in t.openers ensures OpenerOk(t, o) {
      assert OpenerOk(s, o);
      assert s.openers[o].peer != peer;
    }
    forall p | p in t.slots ensures SlotOk(t, p) { assert SlotOk(s, p); }
    forall p ensures PeerOk(t, p) { assert PeerOk(s, p); }
  }

  /** Leaving packets out keeps the rest in order. */
  lemma Cut(a: seq<nat>, b: seq<nat>, c: seq<nat>, bound: nat)
    requires InOrder(a + b + c, bound)
    ensures InOrder(a + c, bound)
  {
    var xs, ys := a + b + c, a + c;
    assert forall i | 0 <= i < |a| :: ys[i] == xs[i];
    assert forall i | |a| <= i < |ys| :: ys[i] == xs[i + |b|];
  }

  function Staged(s: Shard, o: nat, next: Opener, log: seq<nat>): Shard {
    s.(openers := s.openers[o := next],
       forwarded := if log == [] then s.forwarded else s.forwarded[next.peer := Fwd(s, next.peer) + log])
  }

  predicate CanStage(s: Shard, o: nat, next: Opener, log: seq<nat>) {
    && o in s.openers && next.peer == s.openers[o].peer && next.peer in s.slots
    && s.slots[next.peer].Opening?
    && InOrder(Fwd(s, next.peer) + log + Held(next) + s.slots[next.peer].pending, Arrived(s, next.peer))
  }

  lemma StagedOpeners(s: Shard, o: nat, next: Opener, log: seq<nat>, q: nat)
    requires Inv(s) && CanStage(s, o, next, log) && q in s.openers
    ensures OpenerOk(Staged(s, o, next, log), q)
  {
    var t := Staged(s, o, next, log);
    assert OpenerOk(s, o) && OpenerOk(s, q);
    if q == o {
      assert Fwd(t, next.peer) == Fwd(s, next.peer) + log;
    } else {
      assert s.openers[q].peer != next.peer;
      OpenerFrame(s, t, q);
    }
  }

  lemma StagedPeers(s: Shard, o: nat, next: Opener, log: seq<nat>, p: string)
    requires Inv(s) && CanStage(s, o, next, log)
    ensures PeerOk(Staged(s, o, next, log), p)
  {
    assert PeerOk(s, p);
    if p == next.peer {
      var fwd, rest := Fwd(s, p) + log, Held(next) + s.slots[p].pending;
      assert fwd + rest == Fwd(s, p) + log + Held(next) + s.slots[p].pending;
      Prefix(fwd, rest, Arrived(s, p));
    }
  }

  /** An opener that changes its own stage, and possibly forwards a packet. */
  lemma KeepOpener(s: Shard, o: nat, next: Opener, log: seq<nat>)
    requires Inv(s) && CanStage(s, o, next, log)
    ensures Inv(Staged(s, o, next, log))
  {
    var t := Staged(s, o, next, log);
    forall q | q in t.openers ensures OpenerOk(t, q) { StagedOpeners(s, o, next, log, q); }
    forall p | p in t.slots ensures SlotOk(t, p) { assert SlotOk(s, p); }
    forall p ensures PeerOk(t, p) { StagedPeers(s, o, next, log, p); }
    if t.loop.Forwarding? {
      assert OpenerOk(s, o);
      assert Fwd(t, t.loop.peer) == Fwd(s, t.loop.peer);
    }
  }

  lemma SentInOrder(fwd: seq<nat>, held: seq<nat>, pending: seq<nat>, bound: nat, sent: Sent)
    requires |held| > 0 && InOrder(fwd + held + pending, bound)
    ensures var log := if sent.Refused? then [] else [held[0]];
      InOrder(fwd + log + (if sent.Broken? then [] else held[1..]) + pending, bound)
  {
    var first, rest := [held[0]], held[1..];
    assert fwd + held + pending == fwd + first + rest + pending;
    match sent {
      case Refused =>
        assert fwd + first + rest + pending == fwd + first + (rest + pending);
        Cut(fwd, first, rest + pending, bound);
        assert fwd + [] + rest + pending == fwd + (rest + pending);
      case Taken =>
      case Broken =>
        Cut(fwd + first, rest, pending, bound);
        assert fwd + first + [] + pending == fwd + first + pending;
    }
  }

  lemma KeepOpenerSent(s: Shard, o: nat, sent: Sent)
    requires Inv(s) && Enabled(s, OpenerSent(o, sent))
    ensures Inv(Do(s, OpenerSent(o, sent)))
  {
    assert OpenerOk(s, o);
    var Flushing(peer, session, held) := s.openers[o];
    var fwd, pending, bound := Fwd(s, peer), s.slots[peer].pending, Arrived(s, peer);
    var next := Do(s, OpenerSent(o, sent)).openers[o];
    var log := if sent.Refused? then [] else [held[0]];
    assert Held(next) == if sent.Broken? then [] else held[1..];
    SentInOrder(fwd, held, pending, bound, sent);
    KeepOpener(s, o, next, log);
    assert Do(s, OpenerSent(o, sent)) == Staged(s, o, next, log);
  }

  lemma KeepStage(s: Shard, o: nat, next: Opener)
    requires Inv(s) && o in s.openers && next.peer == s.openers[o].peer
    requires Held(next) == [] && Held(s.openers[o]) == []
    ensures Inv(s.(openers := s.openers[o := next]))
  {
    assert OpenerOk(s, o);
    assert Fwd(s, next.peer) + [] + [] + s.slots[next.peer].pending
        == Fwd(s, next.peer) + [] + s.slots[next.peer].pending;
    KeepOpener(s, o, next, []);
  }

  lemma TakenOpeners(s: Shard, o: nat, q: nat)
    requires Inv(s) && Enabled(s, TakePending(o)) && q in Do(s, TakePending(o)).openers
    ensures OpenerOk(Do(s, TakePending(o)), q)
  {
    assert OpenerOk(s, o) && OpenerOk(s, q);
    var t, peer := Do(s, TakePending(o)), s.openers[o].peer;
    if q == o {
      assert Fwd(s, peer) + s.slots[peer].pending + [] == Fwd(s, peer) + [] + s.slots[peer].pending;
    } else {
      OpenerFrame(s, t, q);
    }
  }

  /** The pending queue moves into the opener's hands, or the slot opens. */
  lemma KeepTake(s: Shard, o: nat)
    requires Inv(s) && Enabled(s, TakePending(o))
    ensures Inv(Do(s, TakePending(o)))
  {
    assert OpenerOk(s, o);
    var t, peer := Do(s, TakePending(o)), s.openers[o].peer;
    SlotsGrow(s.slots, peer, t.slots[peer]);
    forall q | q in t.openers ensures OpenerOk(t, q) { TakenOpeners(s, o, q); }
    forall p | p in t.slots ensures SlotOk(t, p) {
      if p != peer { assert SlotOk(s, p); }
    }
    forall p ensures PeerOk(t, p) { assert PeerOk(s, p); }
  }

  lemma KeepRemove(s: Shard, o: nat)
    requires Inv(s) && Enabled(s, OpenerRemove(o))
    ensures Inv(Do(s, OpenerRemove(o)))
  {
    assert OpenerOk(s, o);
    var t := Do(s, OpenerRemove(o));
    var peer := s.openers[o].peer;
    SlotsShrink(s.slots, peer);
    forall q | q in t.openers ensures OpenerOk(t, q) { assert OpenerOk(s, q); }
    forall p | p in t.slots ensures SlotOk(t, p) { assert SlotOk(s, p); }
    forall p ensures PeerOk(t, p) { assert PeerOk(s, p); }
  }

  lemma KeepArrive(s: Shard, peer: string)
    requires Inv(s) && Enabled(s, Arrive(peer))
    ensures Inv(Do(s, Arrive(peer)))
  {
    var t := Counted(s, peer);
    NewPacket(s, peer);
    assert t.openers == s.openers && t.loop.Waiting?;
    KeepDispatch(t, peer, Arrived(s, peer));
  }

  lemma KeepShed(s: Shard)
    requires Inv(s) && Enabled(s, LoopShed)
    ensures Inv(Do(s, LoopShed))
  {
    KeepRemoveOpen(s, s.loop.peer, s.loop.session);
    KeepAll(RemoveOpen(s, s.loop.peer, s.loop.session), Do(s, LoopShed));
  }

  lemma LoopStepKeeps(s: Shard, e: Event)
    requires Inv(s) && Enabled(s, e) && (e.Arrive? || e.Discard? || e.LoopSent? || e.LoopShed? || e.Teardown?)
    ensures Inv(Do(s, e))
  {
    match e
    case Arrive(peer) => KeepArrive(s, peer);
    case Discard(peer) => NewPacket(s, peer);
    case LoopSent(sent) => KeepLoopSent(s, sent);
    case LoopShed => KeepShed(s);
    case Teardown(peer, session) => KeepRemoveOpen(s, peer, session);
  }

  lemma KeepNumber(s: Shard, next: nat)
    requires Inv(s)
    ensures Inv(s.(nextSession := next))
  {
    KeepAll(s, s.(nextSession := next));
  }

  lemma KeepConnected(s: Shard, o: nat)
    requires Inv(s) && o in s.openers && s.openers[o].Connecting?
    ensures Inv(WithSession(s, o))
  {
    var mid := s.(openers := s.openers[o := Taking(s.openers[o].peer, s.nextSession)]);
    assert WithSession(s, o) == mid.(nextSession := s.nextSession + 1);
    KeepStage(s, o, mid.openers[o]);
    KeepNumber(mid, s.nextSession + 1);
  }

  lemma OpenerStepKeeps(s: Shard, e: Event)
    requires Inv(s) && Enabled(s, e) && !(e.Arrive? || e.Discard? || e.LoopSent? || e.LoopShed? || e.Teardown?)
    ensures Inv(Do(s, e))
  {
    match e
    case Connected(o) => KeepConnected(s, o);
    case NotConnected(o) =>
      KeepStage(s, o, Failing(s.openers[o].peer));
      assert Do(s, e) == s.(openers := s.openers[o := Failing(s.openers[o].peer)]);
    case TakePending(o) => KeepTake(s, o);
    case OpenerSent(o, sent) => KeepOpenerSent(s, o, sent);
    case OpenerRemove(o) => KeepRemove(s, o);
  }

  lemma {:induction false} RunKeeps(limit: nat, es: seq<Event>)
    requires CanRun(Fresh(limit), es)
    ensures Inv(Run(Fresh(limit), es)) && Run(Fresh(limit), es).limit == limit
  {
    if |es| > 0 {
      RunKeeps(limit, es[..|es| - 1]);
      var s, e := Run(Fresh(limit), es[..|es| - 1]), es[|es| - 1];
      if e.Arrive? || e.Discard? || e.LoopSent? || e.LoopShed? || e.Teardown? {
        LoopStepKeeps(s, e);
      } else {
        OpenerStepKeeps(s, e);
      }
    }
  }

  // ---------------------------------------------------------------- theorems

  /** In every interleaving each opening slot has one live opener, and each live opener such a slot. */
  lemma OneOpenerPerSlot(limit: nat, es: seq<Event>, peer: string, o: nat)
    requires CanRun(Fresh(limit), es)
    ensures var s := Run(Fresh(limit), es);
      && (peer in s.slots && s.slots[peer].Opening? ==>
            (o in s.openers && s.openers[o].peer == peer <==> o == s.slots[peer].opener))
      && (o in s.openers ==> s.openers[o].peer in s.slots && s.slots[s.openers[o].peer].Opening?)
  {
    RunKeeps(limit, es);
    var s := Run(Fresh(limit), es);
    if peer in s.slots { assert SlotOk(s, peer); }
    if o in s.openers { assert OpenerOk(s, o); }
  }

  /** In every interleaving the queues and the map stay within their bounds. */
  lemma Bounded(limit: nat, es: seq<Event>)
    requires CanRun(Fresh(limit), es)
    ensures var s := Run(Fresh(limit), es);
      && |s.slots| <= limit
      && (forall peer | peer in s.slots && s.slots[peer].Opening? :: |s.slots[peer].pending| <= MAX_PENDING)
  {
    RunKeeps(limit, es);
    var s := Run(Fresh(limit), es);
    forall peer | peer in s.slots && s.slots[peer].Opening? ensures |s.slots[peer].pending| <= MAX_PENDING {
      assert SlotOk(s, peer);
    }
  }

  /** In every interleaving the packets forwarded for a peer are arrivals, each at most once and in order. */
  lemma ForwardedInOrder(limit: nat, es: seq<Event>, peer: string)
    requires CanRun(Fresh(limit), es)
    ensures InOrder(Fwd(Run(Fresh(limit), es), peer), Arrived(Run(Fresh(limit), es), peer))
  {
    RunKeeps(limit, es);
    assert PeerOk(Run(Fresh(limit), es), peer);
  }

  // ---------------------------------------------------------------- all shards together

  function PerShard(sessions: nat, shards: nat): nat {
    var n := if shards > 1 then shards else 1;
    (sessions + n - 1) / n
  }

  function Sizes(shards: seq<Shard>): (r: seq<int>)
    ensures |r| == |shards|
  {
    seq(|shards|, i requires 0 <= i < |shards| => |shards[i].slots|)
  }

  lemma {:induction false} SizesWithin(shards: seq<Shard>, each: nat)
    requires forall i | 0 <= i < |shards| :: |shards[i].slots| <= each
    ensures Sum(Sizes(shards)) <= |shards| * each
  {
    var n := |shards| - 1;
    if n >= 0 {
      SizesWithin(shards[..n], each);
      assert Sizes(shards)[..n] == Sizes(shards[..n]);
      assert (n + 1) * each == n * each + each;
    }
  }

  lemma CeilingWithin(sessions: nat, n: nat)
    requires n > 0
    ensures n * ((sessions + n - 1) / n) < sessions + n
  {
    assert n * ((sessions + n - 1) / n) + (sessions + n - 1) % n == sessions + n - 1;
  }

  /** However the shards run, together they hold fewer than `sessions + shards` sessions. */
  lemma ShardsBounded(sessions: nat, histories: seq<seq<Event>>, shards: seq<Shard>)
    requires |histories| == |shards| > 0
    requires forall i | 0 <= i < |shards| ::
               && CanRun(Fresh(PerShard(sessions, |shards|)), histories[i])
               && shards[i] == Run(Fresh(PerShard(sessions, |shards|)), histories[i])
    ensures Sum(Sizes(shards)) < sessions + |shards|
  {
    var each := PerShard(sessions, |shards|);
    forall i | 0 <= i < |shards| ensures |shards[i].slots| <= each { Bounded(each, histories[i]); }
    SizesWithin(shards, each);
    CeilingWithin(sessions, |shards|);
  }
}
