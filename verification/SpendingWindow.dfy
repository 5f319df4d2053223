/** Runs in which traffic or a change of rule comes in between, and the plain bound fails. */
module SpendingWindow {
  import opened Options
  import opened Sums
  import opened Ledger
  import opened Spending
  import LG = LedgerGuarantees
  import LR = LedgerRuns
  import Q = Quota
  import QR = QuotaRuns
  import E = Engine
  import A = Apportion

  /** A user with `n` bytes of its offline quota left, and one without a quota. */
  function Giver(n: nat): Q.State {
    Q.State(Q.Saved(0, 0, 0, 0, 0, 0), n, Q.BothDirections, false, false)
  }

  function Taker(): Q.State {
    Q.State(Q.Saved(0, 0, 0, 0, 0, 0), Q.NO_LIMIT, Q.BothDirections, false, false)
  }

  function Two(giver: string, taker: string, n: nat): seq<Member> {
    [Member(giver, 0, Some(n)), Member(taker, 0, None)]
  }

  /** The book once `n` bytes are the giver's, and once they are the taker's. */
  function Split(p: Package, giver: string, taker: string, g: nat, t: nat): Book {
    Book(true, p.available, 1, 0, 0, map[giver := g, taker := t], map[giver := 0, taker := 0],
         map[p.id := Record(p, Some(ByMigration))])
  }

  function FirstSync(p: Package, giver: string, taker: string): LR.Op {
    LR.Sync([p], Two(giver, taker, p.available), Assignments({}, map[], false), 1)
  }

  function GiveAll(p: Package, giver: string, taker: string): LR.Op {
    LR.Move(Two(giver, taker, p.available), giver, taker, p.available, 2)
  }

  lemma TwoShares(n: nat, giver: string, taker: string)
    requires n > 0
    ensures OpeningShares(n, Two(giver, taker, n)) == [n, 0]
  {
    var members := Two(giver, taker, n);
    var weights := OfflineWeights(members);
    assert weights == [n, 0];
    assert weights[0] > 0;
    var shares := OpeningShares(n, members);
    A.ZeroWeight(n, weights, 1);
    LG.OpeningTotal(n, members);
    var ints: seq<int> := shares;
    assert ints[..1][..0] == [] && ints[..1] == [ints[0]] && Sum(ints) == Sum(ints[..1]) + ints[1];
  }

  lemma TwoMaps(p: Package, giver: string, taker: string)
    requires giver != taker
    ensures var members := Two(giver, taker, p.available);
      && SetBalances(map[], Names(members), [p.available, 0]) == map[giver := p.available, taker := 0]
      && SetBaselines(map[], members) == map[giver := 0, taker := 0]
  {
    var members := Two(giver, taker, p.available);
    var names, shares := Names(members), [p.available, 0];
    assert names == [giver, taker] && names[..1] == [giver] && shares[..1] == [p.available];
    assert [giver][..0] == [] && [p.available][..0] == [];
    assert SetBalances(map[], [giver], [p.available]) == map[giver := p.available];
    assert members[..1] == [members[0]] && [members[0]][..0] == [];
    assert SetBaselines(map[], [members[0]]) == map[giver := 0];
  }

  lemma FirstSyncBook(p: Package, giver: string, taker: string)
    requires p.Effective() && p.available > 0 && giver != taker
    ensures var o := E.Proposal(EMPTY, FirstSync(p, giver, taker), true);
      o.Some? && o.value.book == Split(p, giver, taker, p.available, 0)
  {
    LR.SingleRemaining(p);
    TwoShares(p.available, giver, taker);
    TwoMaps(p, giver, taker);
    LR.SingleMaps(giver, 0, Member(giver, 0, None), p);
    assert p in [p];
  }

  lemma GiveAllBook(p: Package, giver: string, taker: string)
    requires p.available > 0 && giver != taker
    ensures var o := E.Proposal(Split(p, giver, taker, p.available, 0), GiveAll(p, giver, taker), false);
      o.Some? && o.value.book == Split(p, giver, taker, 0, p.available)
  {
    var b, members, n := Split(p, giver, taker, p.available, 0), Two(giver, taker, p.available), p.available;
    LG.JoinNothing(b, members);
    assert members[1..][0] == members[1];
    assert FindMember(members, giver) == Some(members[0]) && FindMember(members, taker) == Some(members[1]);
    var es := TransferEntries(giver, taker, n, 2);
    var ps := Postings(es);
    assert ps == [Posting(giver, Minus(n)), Posting(taker, n)] && ps[..1] == [ps[0]] && ps[..1][..0] == [];
    assert Post(b.balances, ps[..1]) == b.balances[giver := 0];
    assert Post(b.balances, ps) == map[giver := 0, taker := n];
  }

  lemma RunNext(w: World, es: seq<Event>, now: World, e: Event, chunk: nat) returns (more: seq<Event>)
    requires CanRun(w, es, chunk) && Run(w, es) == now && Enabled(now, e, chunk)
    ensures CanRun(w, more, chunk) && Run(w, more) == Do(now, e)
  {
    more := es + [e];
    assert more[..|es|] == es;
  }

  function Pair(giver: string, taker: string, g: Q.State, t: Q.State): map<string, Q.State> {
    map[giver := g, taker := t]
  }

  function Notes(giver: string, taker: string, g: Note, t: Note): map<string, Note> {
    map[giver := g, taker := t]
  }

  lemma TwoAsRead(giver: string, taker: string, n: nat, g: Note, t: Note)
    requires giver != taker && g.read == 0 && t.read == 0
    ensures AsRead(Notes(giver, taker, g, t), Two(giver, taker, n))
  {
    var members := Two(giver, taker, n);
    assert members[0] in members && members[1] in members;
    assert Names(members) == [giver, taker];
  }

  /** The giver after a chunk. */
  function Carried(n: nat, chunk: nat): Q.State {
    QR.Apply(Giver(n), QR.Take(chunk, Q.Download, 0))
  }

  function Stopped(): Q.State { Taker().(limit := 0, exhausted := true, watched := true) }

  const FRESH := Note(0, false, 0, 0)
  const HELD := Note(0, true, 0, 0)

  /** The worlds of the run, in order. */
  function Stage(p: Package, giver: string, taker: string, chunk: nat, k: nat): World {
    var n := p.available;
    var mine, theirs := Split(p, giver, taker, n, 0), Split(p, giver, taker, 0, n);
    var g, before, after := Giver(n), Pair(giver, taker, Giver(n), Taker()), Pair(giver, taker, Giver(n), Stopped());
    var carried, settled := Pair(giver, taker, Carried(n, chunk), Stopped()), Notes(giver, taker, HELD, HELD);
    if k == 0 then World(EMPTY, before, Notes(giver, taker, FRESH, FRESH), Idle)
    else if k == 1 then World(EMPTY, before, Notes(giver, taker, FRESH, FRESH), Saving(mine))
    else if k == 2 then World(mine, before, Notes(giver, taker, FRESH, FRESH), Applying({giver, taker}))
    else if k == 3 then World(mine, before, Notes(giver, taker, HELD, FRESH), Applying({taker}))
    else if k == 4 then World(mine, after, settled, Idle)
    else if k == 5 then World(mine, after, settled, Saving(theirs))
    else if k == 6 then World(mine, carried, settled, Saving(theirs))
    else World(theirs, carried, settled, Applying({giver, taker}))
  }

  function Moves(p: Package, giver: string, taker: string, chunk: nat, k: nat): Event {
    if k == 0 then Propose(FirstSync(p, giver, taker), true)
    else if k == 1 then Saved(true)
    else if k == 2 then Apply(giver)
    else if k == 3 then Apply(taker)
    else if k == 4 then Propose(GiveAll(p, giver, taker), false)
    else if k == 5 then Carry(giver, QR.Take(chunk, Q.Download, 0))
    else Saved(true)
  }

  ghost predicate Goes(now: World, e: Event, chunk: nat, next: World) {
    Enabled(now, e, chunk) && Do(now, e) == next
  }

  lemma FirstGoes(p: Package, giver: string, taker: string, chunk: nat)
    requires p.Effective() && 0 < p.available < Q.NO_LIMIT && giver != taker
    ensures Goes(Stage(p, giver, taker, chunk, 0), Moves(p, giver, taker, chunk, 0), chunk, Stage(p, giver, taker, chunk, 1))
  {
    FirstSyncBook(p, giver, taker);
    TwoAsRead(giver, taker, p.available, FRESH, FRESH);
  }

  lemma SaveGoes(p: Package, giver: string, taker: string, chunk: nat, k: nat)
    requires k == 1 || k == 6
    ensures Goes(Stage(p, giver, taker, chunk, k), Moves(p, giver, taker, chunk, k), chunk, Stage(p, giver, taker, chunk, k + 1))
  {
    assert Stage(p, giver, taker, chunk, k).quotas.Keys == {giver, taker};
  }

  lemma GiverGoes(p: Package, giver: string, taker: string, chunk: nat)
    requires 0 < p.available < Q.NO_LIMIT && giver != taker
    ensures Goes(Stage(p, giver, taker, chunk, 2), Moves(p, giver, taker, chunk, 2), chunk, Stage(p, giver, taker, chunk, 3))
  {
    var w, g := Stage(p, giver, taker, chunk, 2), Giver(p.available);
    assert {giver, taker} - {giver} == {taker};
    assert E.LimitFor(w.book, giver, g) == p.available && QR.ApplyLimit(g, p.available) == g;
    assert Applied(FRESH, g, p.available) == HELD;
    assert ApplyOne(w, giver).quotas == w.quotas;
  }

  lemma TakerGoes(p: Package, giver: string, taker: string, chunk: nat)
    requires 0 < p.available < Q.NO_LIMIT && giver != taker
    ensures Goes(Stage(p, giver, taker, chunk, 3), Moves(p, giver, taker, chunk, 3), chunk, Stage(p, giver, taker, chunk, 4))
  {
  }

  lemma TransferGoes(p: Package, giver: string, taker: string, chunk: nat)
    requires 0 < p.available < Q.NO_LIMIT && giver != taker
    ensures Goes(Stage(p, giver, taker, chunk, 4), Moves(p, giver, taker, chunk, 4), chunk, Stage(p, giver, taker, chunk, 5))
  {
    GiveAllBook(p, giver, taker);
    TwoAsRead(giver, taker, p.available, HELD, HELD);
  }

  lemma CarryGoes(p: Package, giver: string, taker: string, chunk: nat)
    requires giver != taker
    ensures Goes(Stage(p, giver, taker, chunk, 5), Moves(p, giver, taker, chunk, 5), chunk, Stage(p, giver, taker, chunk, 6))
  {
  }

  lemma AllGo(p: Package, giver: string, taker: string, chunk: nat, k: nat)
    requires p.Effective() && 0 < p.available < Q.NO_LIMIT && giver != taker && k < 7
    ensures Goes(Stage(p, giver, taker, chunk, k), Moves(p, giver, taker, chunk, k), chunk, Stage(p, giver, taker, chunk, k + 1))
  {
    if k == 0 { FirstGoes(p, giver, taker, chunk); }
    else if k == 1 || k == 6 { SaveGoes(p, giver, taker, chunk, k); }
    else if k == 2 { GiverGoes(p, giver, taker, chunk); }
    else if k == 3 { TakerGoes(p, giver, taker, chunk); }
    else if k == 4 { TransferGoes(p, giver, taker, chunk); }
    else { CarryGoes(p, giver, taker, chunk); }
  }

  /** The stages make a run. */
  lemma {:induction false} Staged(p: Package, giver: string, taker: string, chunk: nat, k: nat) returns (es: seq<Event>)
    requires p.Effective() && 0 < p.available < Q.NO_LIMIT && giver != taker && k <= 7
    ensures var w := Stage(p, giver, taker, chunk, 0);
      CanRun(w, es, chunk) && Run(w, es) == Stage(p, giver, taker, chunk, k)
  {
    es := [];
    if k > 0 {
      es := Staged(p, giver, taker, chunk, k - 1);
      AllGo(p, giver, taker, chunk, k - 1);
      es := RunNext(Stage(p, giver, taker, chunk, 0), es, Stage(p, giver, taker, chunk, k - 1),
                    Moves(p, giver, taker, chunk, k - 1), chunk);
    }
  }

  /** Applying the limit that the transfer leaves the giver. */
  lemma LastApply(p: Package, giver: string, taker: string, chunk: nat)
    requires 0 < p.available < Q.NO_LIMIT && giver != taker && chunk > 0
    ensures var now := Stage(p, giver, taker, chunk, 7);
      && Enabled(now, Apply(giver), chunk)
      && var v := Do(now, Apply(giver));
         && Known(v, giver) && giver in v.book.baselines && !Pending(v, giver)
         && Allowed(v, giver) == 0 && SpentBy(v, giver) == chunk && v.notes[giver].slack == chunk
  {
    assert Q.Used(Carried(p.available, chunk)) == chunk;
  }

  /**
   The plain bound does not hold. A user gives away all it has, and carries a chunk while the transfer is
   saved: its balance is 0 once the new limit is applied, and it has spent the chunk.
   */
  lemma TransferWindowExample(p: Package, giver: string, taker: string, chunk: nat) returns (es: seq<Event>)
    requires p.Effective() && 0 < p.available < Q.NO_LIMIT && giver != taker && chunk > 0
    ensures var w := Opening(Pair(giver, taker, Giver(p.available), Taker()));
      && CanRun(w, es, chunk)
      && var v := Run(w, es);
         && Known(v, giver) && giver in v.book.baselines && !Pending(v, giver)
         && Allowed(v, giver) == 0 && SpentBy(v, giver) == chunk && v.notes[giver].slack == chunk
  {
    var w := Opening(Pair(giver, taker, Giver(p.available), Taker()));
    assert w == Stage(p, giver, taker, chunk, 0);
    es := Staged(p, giver, taker, chunk, 7);
    LastApply(p, giver, taker, chunk);
    es := RunNext(w, es, Stage(p, giver, taker, chunk, 7), Apply(giver), chunk);
  }

  /** Nor against a change of rule: an hour of n bytes each way, within a limit of n + 1, then costs 2n. */
  lemma MeterExample(n: nat, chunk: nat)
    requires n > 0 && n > chunk && n + 1 < Q.NO_LIMIT
    ensures var q := Q.State(Q.Saved(n, n, 0, n, n, 0), n + 1, Q.LargerDirection, false, false);
      && UserOk(q, Note(0, true, 0, 0), chunk)
      && Q.Used(Q.SetMetering(q, Q.BothDirections)) >= Q.LimitOf(q).value + chunk
  {
    var q := Q.State(Q.Saved(n, n, 0, n, n, 0), n + 1, Q.LargerDirection, false, false);
    assert Q.Used(q) == n && Q.Used(Q.SetMetering(q, Q.BothDirections)) == n + n;
  }
}
