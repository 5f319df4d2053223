/** Where every packet of a shard is: a packet is forwarded, on its way, or lost for a reason. */
module RelayAudit {
  import opened Relay

  datatype Reason = Exhausted | QueueFull | MapFull | QuotaRefused | OpenerFailed

  datatype Loss = Loss(packet: nat, reason: Reason)

  // ---------------------------------------------------------------- losses, by their guards

  function Each(packets: seq<nat>, reason: Reason): (r: seq<Loss>)
    ensures |r| == |packets|
  {
    seq(|packets|, i requires 0 <= i < |packets| => Loss(packets[i], reason))
  }

  /** What an arrival loses: the packet, when its queue or the map is full. */
  function LostOnArrival(s: Shard, peer: string): seq<Loss> {
    var packet := Arrived(s, peer);
    if peer in s.slots then
      if s.slots[peer].Opening? && |s.slots[peer].pending| >= MAX_PENDING then [Loss(packet, QueueFull)] else []
    else if |s.slots| >= s.limit then [Loss(packet, MapFull)]
    else []
  }

  /** What an event loses of one peer's packets. */
  function LossesOf(s: Shard, e: Event, peer: string): seq<Loss>
    requires Enabled(s, e)
  {
    match e
    case Discard(p) => if p == peer then [Loss(Arrived(s, peer), Exhausted)] else []
    case Arrive(p) => if p == peer then LostOnArrival(s, peer) else []
    case LoopSent(sent) =>
      if s.loop.peer == peer && sent.Refused? then [Loss(s.loop.packet, QuotaRefused)] else []
    case OpenerSent(o, sent) =>
      if s.openers[o].peer != peer || sent.Taken? then []
      else if sent.Refused? then [Loss(s.openers[o].held[0], QuotaRefused)]
      else Each(s.openers[o].held[1..], OpenerFailed)
    case OpenerRemove(o) => if s.openers[o].peer == peer then Each(PendingOf(s, peer), OpenerFailed) else []
    case _ => []
  }

  function LostIn(limit: nat, es: seq<Event>, peer: string): seq<Loss>
    requires CanRun(Fresh(limit), es)
  {
    if |es| == 0 then []
    else
      LostIn(limit, es[..|es| - 1], peer) + LossesOf(Run(Fresh(limit), es[..|es| - 1]), es[|es| - 1], peer)
  }

  /** How often a packet is among these. */
  function Among(packets: seq<nat>, k: nat): nat {
    if |packets| == 0 then 0
    else Among(packets[..|packets| - 1], k) + if packets[|packets| - 1] == k then 1 else 0
  }

  function AmongLost(losses: seq<Loss>, k: nat): nat {
    if |losses| == 0 then 0
    else AmongLost(losses[..|losses| - 1], k) + if losses[|losses| - 1].packet == k then 1 else 0
  }

  lemma {:induction false} AmongAppend(a: seq<nat>, b: seq<nat>, k: nat)
    ensures Among(a + b, k) == Among(a, k) + Among(b, k)
  {
    if |b| == 0 {
      assert a + b == a;
    } else {
      assert (a + b)[..|a + b| - 1] == a + b[..|b| - 1];
      AmongAppend(a, b[..|b| - 1], k);
    }
  }

  lemma {:induction false} LostAppend(a: seq<Loss>, b: seq<Loss>, k: nat)
    ensures AmongLost(a + b, k) == AmongLost(a, k) + AmongLost(b, k)
  {
    if |b| == 0 {
      assert a + b == a;
    } else {
      assert (a + b)[..|a + b| - 1] == a + b[..|b| - 1];
      LostAppend(a, b[..|b| - 1], k);
    }
  }

  lemma {:induction false} AmongEach(packets: seq<nat>, reason: Reason, k: nat)
    ensures AmongLost(Each(packets, reason), k) == Among(packets, k)
  {
    var n := |packets| - 1;
    if n >= 0 {
      AmongEach(packets[..n], reason, k);
      assert Each(packets, reason)[..n] == Each(packets[..n], reason);
    }
  }

  lemma AmongOne(x: nat, k: nat)
    ensures Among([x], k) == if x == k then 1 else 0
  {
    assert [x][..0] == [];
  }

  // ---------------------------------------------------------------- places

  /** A peer's packets: forwarded, in the loop's hand, held by the opener, pending. */
  datatype Where = Where(forwarded: seq<nat>, hand: seq<nat>, held: seq<nat>, pending: seq<nat>)

  function InHand(s: Shard, peer: string): seq<nat> {
    if s.loop.Forwarding? && s.loop.peer == peer then [s.loop.packet] else []
  }

  function PendingOf(s: Shard, peer: string): seq<nat> {
    if peer in s.slots && s.slots[peer].Opening? then s.slots[peer].pending else []
  }

  function HeldFor(s: Shard, peer: string): seq<nat> {
    if peer in s.slots && s.slots[peer].Opening? && s.slots[peer].opener in s.openers
    then Held(s.openers[s.slots[peer].opener]) else []
  }

  function WhereIs(s: Shard, peer: string): Where {
    Where(Fwd(s, peer), InHand(s, peer), HeldFor(s, peer), PendingOf(s, peer))
  }

  function Count(w: Where, k: nat): nat {
    Among(w.forwarded, k) + Among(w.hand, k) + Among(w.held, k) + Among(w.pending, k)
  }

  // ---------------------------------------------------------------- where every event moves them

  /** What an event that takes part in a peer's traffic does to its packets. */
  function Moved(w: Where, s: Shard, e: Event, peer: string): Where
    requires Enabled(s, e)
  {
    match e
    case Arrive(p) =>
      if p != peer || LostOnArrival(s, peer) != [] then w
      else if peer in s.slots && s.slots[peer].Open? then w.(hand := [Arrived(s, peer)])
      else w.(pending := w.pending + [Arrived(s, peer)])
    case LoopSent(sent) =>
      if s.loop.peer != peer then w
      else if sent.Refused? then w.(hand := [])
      else w.(hand := [], forwarded := w.forwarded + [s.loop.packet])
    case TakePending(o) =>
      if s.openers[o].peer == peer then w.(held := w.pending, pending := []) else w
    case OpenerSent(o, sent) =>
      if s.openers[o].peer != peer then w
      else
        var held := s.openers[o].held;
        Where(if sent.Refused? then w.forwarded else w.forwarded + [held[0]], w.hand,
              if sent.Broken? then [] else held[1..], w.pending)
    case OpenerRemove(o) => if s.openers[o].peer == peer then w.(held := [], pending := []) else w
    case _ => w
  }

  function Arrivals(s: Shard, e: Event, peer: string): nat {
    if (e.Arrive? || e.Discard?) && e.peer == peer then 1 else 0
  }

  /** The slot of a peer whose opener is at work, and the opener of a peer whose slot is opening. */
  lemma Paired(s: Shard, o: nat, peer: string)
    requires Inv(s) && o in s.openers
    ensures var p := s.openers[o].peer;
      && p in s.slots && s.slots[p].Opening? && s.slots[p].opener == o
      && (peer != p && peer in s.slots && s.slots[peer].Opening? ==> s.slots[peer].opener != o)
  {
    assert OpenerOk(s, o);
    if peer in s.slots { assert SlotOk(s, peer); }
  }

  lemma OthersStay(s: Shard, p: string, peer: string)
    requires Inv(s) && Enabled(s, Arrive(p)) && p != peer
    ensures WhereIs(Do(s, Arrive(p)), peer) == WhereIs(s, peer) && Arrived(Do(s, Arrive(p)), peer) == Arrived(s, peer)
  {
    if peer in s.slots && s.slots[peer].Opening? {
      assert SlotOk(s, peer) && OpenerOk(s, s.slots[peer].opener);
    }
  }

  lemma OwnMoves(s: Shard, peer: string)
    requires Inv(s) && Enabled(s, Arrive(peer))
    ensures WhereIs(Do(s, Arrive(peer)), peer) == Moved(WhereIs(s, peer), s, Arrive(peer), peer)
    ensures Arrived(Do(s, Arrive(peer)), peer) == Arrived(s, peer) + 1
  {
    if peer in s.slots { assert SlotOk(s, peer); }
  }

  lemma ArriveMoves(s: Shard, p: string, peer: string)
    requires Inv(s) && Enabled(s, Arrive(p))
    ensures WhereIs(Do(s, Arrive(p)), peer) == Moved(WhereIs(s, peer), s, Arrive(p), peer)
    ensures Arrived(Do(s, Arrive(p)), peer) == Arrived(s, peer) + Arrivals(s, Arrive(p), peer)
  {
    if p == peer { OwnMoves(s, peer); } else { OthersStay(s, p, peer); }
  }

  lemma OpenerMoves(s: Shard, e: Event, o: nat, peer: string)
    requires Inv(s) && Enabled(s, e)
    requires e == Connected(o) || e == NotConnected(o) || e == TakePending(o) || e == OpenerRemove(o)
    ensures WhereIs(Do(s, e), peer) == Moved(WhereIs(s, peer), s, e, peer)
    ensures Arrived(Do(s, e), peer) == Arrived(s, peer)
  {
    Paired(s, o, peer);
  }

  lemma OpenerSentMoves(s: Shard, o: nat, sent: Sent, peer: string)
    requires Inv(s) && Enabled(s, OpenerSent(o, sent))
    ensures WhereIs(Do(s, OpenerSent(o, sent)), peer) == Moved(WhereIs(s, peer), s, OpenerSent(o, sent), peer)
    ensures Arrived(Do(s, OpenerSent(o, sent)), peer) == Arrived(s, peer)
  {
    Paired(s, o, peer);
  }

  lemma LoopMoves(s: Shard, e: Event, peer: string)
    requires Inv(s) && Enabled(s, e) && (e.Discard? || e.LoopSent? || e.LoopShed? || e.Teardown?)
    ensures WhereIs(Do(s, e), peer) == Moved(WhereIs(s, peer), s, e, peer)
    ensures Arrived(Do(s, e), peer) == Arrived(s, peer) + Arrivals(s, e, peer)
  {
  }

  lemma StepMoves(s: Shard, e: Event, peer: string)
    requires Inv(s) && Enabled(s, e)
    ensures WhereIs(Do(s, e), peer) == Moved(WhereIs(s, peer), s, e, peer)
    ensures Arrived(Do(s, e), peer) == Arrived(s, peer) + Arrivals(s, e, peer)
  {
    match e
    case Arrive(p) => ArriveMoves(s, p, peer);
    case OpenerSent(o, sent) => OpenerSentMoves(s, o, sent, peer);
    case Connected(o) => OpenerMoves(s, e, o, peer);
    case NotConnected(o) => OpenerMoves(s, e, o, peer);
    case TakePending(o) => OpenerMoves(s, e, o, peer);
    case OpenerRemove(o) => OpenerMoves(s, e, o, peer);
    case _ => LoopMoves(s, e, peer);
  }

  // ---------------------------------------------------------------- nothing is lost on the way

  /** An event keeps every packet, but for its losses, and adds its arrival. */
  predicate Balances(s: Shard, e: Event, peer: string, k: nat)
    requires Enabled(s, e)
  {
    Count(Moved(WhereIs(s, peer), s, e, peer), k) + AmongLost(LossesOf(s, e, peer), k)
    == Count(WhereIs(s, peer), k) + if Arrivals(s, e, peer) == 1 && k == Arrived(s, peer) then 1 else 0
  }

  lemma ArriveBalances(s: Shard, p: string, peer: string, k: nat)
    requires Inv(s) && Enabled(s, Arrive(p))
    ensures Balances(s, Arrive(p), peer, k)
  {
    var n := Arrived(s, peer);
    AmongOne(n, k);
    AmongAppend(PendingOf(s, peer), [n], k);
    OneLost(n, QueueFull, k);
    OneLost(n, MapFull, k);
  }

  lemma LoopSentBalances(s: Shard, sent: Sent, peer: string, k: nat)
    requires Inv(s) && Enabled(s, LoopSent(sent))
    ensures Balances(s, LoopSent(sent), peer, k)
  {
    AmongOne(s.loop.packet, k);
    AmongAppend(Fwd(s, peer), [s.loop.packet], k);
    OneLost(s.loop.packet, QuotaRefused, k);
  }

  lemma OpenerBalances(s: Shard, e: Event, o: nat, peer: string, k: nat)
    requires Inv(s) && Enabled(s, e) && (e == TakePending(o) || e == OpenerRemove(o))
    ensures Balances(s, e, peer, k)
  {
    Paired(s, o, peer);
    AmongEach(PendingOf(s, peer), OpenerFailed, k);
  }

  lemma MoveBalances(s: Shard, e: Event, peer: string, k: nat)
    requires Inv(s) && Enabled(s, e)
    ensures Balances(s, e, peer, k)
  {
    match e
    case Arrive(p) => ArriveBalances(s, p, peer, k);
    case Discard(p) => OneLost(Arrived(s, peer), Exhausted, k);
    case LoopSent(sent) => LoopSentBalances(s, sent, peer, k);
    case TakePending(o) => OpenerBalances(s, e, o, peer, k);
    case OpenerSent(o, sent) => SentBalances(s, o, sent, peer, k);
    case OpenerRemove(o) => OpenerBalances(s, e, o, peer, k);
    case _ =>
  }

  lemma OneLost(n: nat, reason: Reason, k: nat)
    ensures AmongLost([Loss(n, reason)], k) == if n == k then 1 else 0
  {
    assert [Loss(n, reason)][..0] == [];
  }

  lemma SentBalances(s: Shard, o: nat, sent: Sent, peer: string, k: nat)
    requires Inv(s) && Enabled(s, OpenerSent(o, sent))
    ensures Balances(s, OpenerSent(o, sent), peer, k)
  {
    var w, held := WhereIs(s, peer), s.openers[o].held;
    Paired(s, o, peer);
    if s.openers[o].peer == peer {
      assert held == [held[0]] + held[1..];
      AmongAppend([held[0]], held[1..], k);
      AmongAppend(w.forwarded, [held[0]], k);
      AmongOne(held[0], k);
      OneLost(held[0], QuotaRefused, k);
      AmongEach(held[1..], OpenerFailed, k);
    }
  }

  /**
   In every interleaving every packet of a peer that has arrived is in exactly one place: forwarded, in the
   loop's hand, held by the opener, pending, or lost for the reason given; and no other packet is anywhere.
   */
  lemma {:induction false} EveryPacketHasOnePlace(limit: nat, es: seq<Event>, peer: string, k: nat)
    requires CanRun(Fresh(limit), es)
    ensures var s := Run(Fresh(limit), es);
      Count(WhereIs(s, peer), k) + AmongLost(LostIn(limit, es, peer), k) == if k < Arrived(s, peer) then 1 else 0
  {
    if |es| > 0 {
      var before, e := Run(Fresh(limit), es[..|es| - 1]), es[|es| - 1];
      EveryPacketHasOnePlace(limit, es[..|es| - 1], peer, k);
      RunKeeps(limit, es[..|es| - 1]);
      StepMoves(before, e, peer);
      MoveBalances(before, e, peer, k);
      LostAppend(LostIn(limit, es[..|es| - 1], peer), LossesOf(before, e, peer), k);
    }
  }

  /** Where an arrival goes, case by case. */
  lemma ArrivalGoes(s: Shard, peer: string, sent: Sent)
    requires Inv(s) && s.loop.Waiting?
    ensures var packet, t := Arrived(s, peer), Do(s, Arrive(peer));
      && Arrived(t, peer) == packet + 1
      && (peer in s.slots && s.slots[peer].Open? ==>
            && t.loop == Forwarding(peer, s.slots[peer].session, packet)
            && (!sent.Refused? ==> Fwd(Do(t, LoopSent(sent)), peer) == Fwd(s, peer) + [packet])
            && (sent.Broken? <==> Do(t, LoopSent(sent)).loop == Shedding(peer, s.slots[peer].session)))
      && (peer in s.slots && s.slots[peer].Opening? && |s.slots[peer].pending| < MAX_PENDING ==>
            PendingOf(t, peer) == PendingOf(s, peer) + [packet] && t.loop.Waiting?)
      && (peer !in s.slots && |s.slots| < s.limit ==>
            PendingOf(t, peer) == [packet] && t.slots[peer].opener in t.openers
            && t.openers[t.slots[peer].opener] == Connecting(peer))
      && ((if peer in s.slots then s.slots[peer].Opening? && |s.slots[peer].pending| >= MAX_PENDING
           else |s.slots| >= s.limit) ==>
            t == Counted(s, peer))
  {
  }

  /** A flushing opener forwards the packets it holds in order, and goes back for more, or opens the slot. */
  lemma OpenersForward(s: Shard, o: nat)
    requires Inv(s) && o in s.openers
    ensures var op := s.openers[o];
      && (op.Flushing? && |op.held| > 0 ==>
            var t := Do(s, OpenerSent(o, Taken));
            Fwd(t, op.peer) == Fwd(s, op.peer) + [op.held[0]] && o in t.openers && Held(t.openers[o]) == op.held[1..])
      && (op.Taking? ==>
            var t := Do(s, TakePending(o));
            if PendingOf(s, op.peer) == [] then t.slots[op.peer] == Open(op.session) && o !in t.openers
            else t.openers[o] == Flushing(op.peer, op.session, PendingOf(s, op.peer)) && PendingOf(t, op.peer) == [])
  {
    assert OpenerOk(s, o);
  }

  /** A teardown takes only its own session; an opening slot and a newer session stay. */
  lemma TeardownSparesOthers(s: Shard, peer: string, session: nat, other: string)
    ensures var t := Do(s, Teardown(peer, session));
      && (other in t.slots <==> other in s.slots && !(other == peer && s.slots[other] == Open(session)))
      && (other in t.slots ==> t.slots[other] == s.slots[other])
  {
  }
}
