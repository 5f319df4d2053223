/**
 Users and the ledger together. The engine reads what the members have used, works out an operation on a
 copy of the book, waits for the copy to be saved and only then applies the new limits, user by user;
 traffic, metering changes and restarts come in between. A user's `Note` only keeps track of what happened.
 */
module Spending {
  import opened Options
  import opened Sums
  import opened Ledger
  import LG = LedgerGuarantees
  import LL = LedgerLaws
  import LW = LedgerWho
  import LR = LedgerRuns
  import Q = Quota
  import QR = QuotaRuns
  import E = Engine

  datatype Phase = Idle | Saving(next: Book) | Applying(todo: set<string>)

  /**
   `read` is the use the engine last read, `held` says whether the book's limit has ever been applied, `at`
   is the use when a limit or rule was last applied, and `slack` what was billed, from reading to applying,
   around the last operation that lowered the limit, and by changes of the metering rule since.
   */
  datatype Note = Note(read: nat, held: bool, at: nat, slack: nat)

  datatype World = World(book: Book, quotas: map<string, Q.State>, notes: map<string, Note>, phase: Phase)

  datatype Event =
    | Carry(name: string, use: QR.Op)
    | Look(name: string)
    | Propose(op: LR.Op, anybody: bool)
    | Saved(ok: bool)
    | Apply(name: string)
    | Meter(name: string, rule: Q.Metering)
    | Restart(hour: int)

  /** The members of an operation are the users, with the use that was read of each. */
  predicate AsRead(notes: map<string, Note>, members: seq<Member>) {
    && Distinct(Names(members))
    && (forall m | m in members :: m.name in notes && m.used == notes[m.name].read)
    && (forall name | name in notes :: exists m | m in members :: m.name == name)
  }

  /** Limits stay below the value that stands for "unlimited". */
  predicate Small(b: Book) {
    forall name | name in b.baselines :: Limit(b, name).value < Q.NO_LIMIT
  }

  ghost predicate Enabled(w: World, e: Event, chunk: nat) {
    match e
    case Carry(name, use) => name in w.quotas && (use.Roll? || (use.Take? && use.n <= chunk))
    case Look(name) => name in w.quotas && w.phase.Idle?
    case Propose(op, anybody) =>
      && w.phase.Idle? && AsRead(w.notes, op.members)
      && var p := E.Proposal(w.book, op, anybody); (p.Some? ==> Small(p.value.book))
    case Saved(_) => w.phase.Saving?
    case Apply(name) => name in w.quotas && w.phase.Applying? && name in w.phase.todo
    case Meter(name, _) => name in w.quotas
    case Restart(_) => true
  }

  function Over(used: nat, mark: nat): nat {
    if used > mark then used - mark else 0
  }

  /** A user's note once its limit has been applied. */
  function Applied(note: Note, q: Q.State, limit: nat): Note {
    if note.held && Q.LimitOf(q).Some? && Q.LimitOf(q).value <= limit then note.(at := Q.Used(q))
    else Note(note.read, true, Q.Used(q), Over(Q.Used(q), note.read))
  }

  function ApplyOne(w: World, name: string): World
    requires name in w.quotas && name in w.notes
  {
    var q := w.quotas[name];
    var limit := E.LimitFor(w.book, name, q);
    w.(quotas := w.quotas[name := QR.ApplyLimit(q, limit)], notes := w.notes[name := Applied(w.notes[name], q, limit)])
  }

  function MeterOne(w: World, name: string, rule: Q.Metering): World
    requires name in w.quotas && name in w.notes
  {
    var q, note := w.quotas[name], w.notes[name];
    var metered := Q.SetMetering(q, rule);
    w.(quotas := w.quotas[name := metered],
       notes := w.notes[name := note.(at := Q.Used(metered), slack := note.slack + Over(Q.Used(metered), Q.Used(q)))])
  }

  /** A quota restored from its row, held to the book once that has migrated. */
  function Restored(b: Book, name: string, q: Q.State, hour: int): Q.State {
    Q.Restore(q.saved, if b.migrated then Some(E.LimitFor(b, name, q)) else Q.LimitOf(q), q.metering, hour)
  }

  /** A restart forgets an operation that was not saved, and applies every limit. */
  function RestartAll(w: World, hour: int): World {
    World(w.book, map name | name in w.quotas :: Restored(w.book, name, w.quotas[name], hour),
          if w.book.migrated
          then map name | name in w.notes && name in w.quotas ::
            Applied(w.notes[name], w.quotas[name], E.LimitFor(w.book, name, w.quotas[name]))
          else w.notes, Idle)
  }

  predicate Known(w: World, name: string) {
    name in w.quotas && name in w.notes
  }

  ghost function Do(w: World, e: Event): World {
    match e
    case Carry(name, use) =>
      if name in w.quotas then w.(quotas := w.quotas[name := QR.Apply(w.quotas[name], use)]) else w
    case Look(name) =>
      if Known(w, name) then w.(notes := w.notes[name := w.notes[name].(read := Q.Used(w.quotas[name]))]) else w
    case Propose(op, anybody) =>
      var p := E.Proposal(w.book, op, anybody);
      if p.Some? then w.(phase := Saving(p.value.book)) else w
    case Saved(ok) =>
      if w.phase.Saving? && ok then w.(book := w.phase.next, phase := Applying(w.quotas.Keys))
      else w.(phase := Idle)
    case Apply(name) =>
      if Known(w, name) && w.phase.Applying? then
        ApplyOne(w, name).(phase := if w.phase.todo <= {name} then Idle else Applying(w.phase.todo - {name}))
      else w
    case Meter(name, rule) => if Known(w, name) then MeterOne(w, name, rule) else w
    case Restart(hour) => RestartAll(w, hour)
  }

  ghost function Run(w: World, es: seq<Event>): World {
    if |es| == 0 then w else Do(Run(w, es[..|es| - 1]), es[|es| - 1])
  }

  ghost predicate CanRun(w: World, es: seq<Event>, chunk: nat) {
    |es| == 0 || (CanRun(w, es[..|es| - 1], chunk) && Enabled(Run(w, es[..|es| - 1]), es[|es| - 1], chunk))
  }

  /** Nothing is known of the users but what they have used. */
  function Opening(quotas: map<string, Q.State>): World {
    World(EMPTY, quotas, map name | name in quotas :: Note(Q.Used(quotas[name]), false, Q.Used(quotas[name]), 0), Idle)
  }

  // ---------------------------------------------------------------- what an operation does to a limit

  /** A member's new limit is no less than its use as read, or no less than its old limit. */
  predicate Covers(b: Book, c: Book, name: string, used: nat) {
    name in c.baselines
    && (used <= Limit(c, name).value || (name in b.baselines && Limit(b, name).value <= Limit(c, name).value))
  }

  /** The members whose limit an operation may lower. */
  predicate MayLower(op: LR.Op, name: string) {
    op.Sync? || (op.Move? && op.from == name)
  }

  lemma SyncCovers(b: Book, op: LR.Op, m: Member)
    requires op.Sync? && Distinct(Names(op.members)) && m in op.members
    ensures var c := Reconcile(b, op.ps, op.members, op.a, op.now).book;
      m.name in c.baselines && m.used <= Limit(c, m.name).value
  {
    if b.migrated {
      LG.BaselinesSet(Join(b, op.members).baselines, op.members);
    } else {
      LG.BaselinesSet(b.baselines, op.members);
    }
  }

  /** Joining gives a newcomer its use as baseline and leaves the others' limits alone. */
  lemma JoinCovers(b: Book, members: seq<Member>, m: Member)
    requires Distinct(Names(members)) && m in members
    ensures var c := Join(b, members);
      && m.name in c.baselines
      && (if m.name in b.baselines then Limit(c, m.name) == Limit(b, m.name) else m.used <= Limit(c, m.name).value)
  {
    LL.JoinKeeps(b, members, m.name);
    if m.name !in b.baselines { LW.JoinedBaseline(b, members, m); }
  }

  lemma Raised(b: Book, c: Book, name: string)
    requires name in b.baselines && c.baselines == b.baselines && Get(b.balances, name) <= Get(c.balances, name)
    ensures Limit(b, name).value <= Limit(c, name).value
  {
  }

  lemma MoveCovers(b: Book, op: LR.Op, anybody: bool, m: Member)
    requires op.Move? && E.Proposal(b, op, anybody).Some? && Distinct(Names(op.members)) && m in op.members
    ensures var c := E.Proposal(b, op, anybody).value.book;
      && m.name in c.baselines
      && (m.name == op.from || m.name !in b.baselines ==> m.used <= Limit(c, m.name).value)
      && (m.name != op.from && m.name in b.baselines ==> Limit(b, m.name).value <= Limit(c, m.name).value)
  {
    var c := E.Proposal(b, op, anybody).value.book;
    LG.TransferMoves(b, op.members, op.from, op.to, op.amount, op.now, m.name);
    LL.JoinKeeps(b, op.members, m.name);
    JoinCovers(b, op.members, m);
    if m.name == op.from {
      LG.MemberFound(op.members, op.from);
      OneMember(op.members, m, FindMember(op.members, op.from).value);
    } else {
      Raised(Join(b, op.members), c, m.name);
    }
  }

  lemma OneMember(members: seq<Member>, m: Member, o: Member)
    requires Distinct(Names(members)) && m in members && o in members && m.name == o.name
    ensures m == o
  {
    var i :| 0 <= i < |members| && members[i] == m;
    var j :| 0 <= j < |members| && members[j] == o;
    assert Names(members)[i] == Names(members)[j];
  }

  lemma GiveCovers(b: Book, op: LR.Op, anybody: bool, m: Member)
    requires op.Give? && E.Proposal(b, op, anybody).Some? && Distinct(Names(op.members)) && m in op.members
    ensures var c := E.Proposal(b, op, anybody).value.book;
      && m.name in c.baselines
      && (if m.name in b.baselines then Limit(b, m.name).value <= Limit(c, m.name).value
          else m.used <= Limit(c, m.name).value)
  {
    var joined, o := Join(b, op.members), E.Proposal(b, op, anybody).value;
    JoinCovers(b, op.members, m);
    LL.PostTo(joined.balances, Postings(o.entries), m.name);
    NothingTaken(Postings(o.entries), m.name);
    Raised(joined, o.book, m.name);
  }

  lemma {:induction false} NothingTaken(ps: seq<Posting>, name: string)
    requires forall i | 0 <= i < |ps| :: ps[i].amount >= 0
    ensures LL.To(ps, name) >= 0
  {
    if |ps| > 0 { NothingTaken(ps[..|ps| - 1], name); }
  }

  /**
   Whatever the engine commits, only a sync and a transfer's giver can have a limit lowered, and then not
   below the use that was read.
   */
  lemma CommitCovers(b: Book, op: LR.Op, anybody: bool, m: Member)
    requires E.Proposal(b, op, anybody).Some? && Distinct(Names(op.members)) && m in op.members
    ensures var c := E.Proposal(b, op, anybody).value.book;
      && Covers(b, c, m.name, m.used)
      && (MayLower(op, m.name) || m.name !in b.baselines ==> m.used <= Limit(c, m.name).value)
      && (!MayLower(op, m.name) && m.name in b.baselines ==> Limit(b, m.name).value <= Limit(c, m.name).value)
  {
    match op
    case Sync(_, _, _, _) => SyncCovers(b, op, m);
    case Move(_, _, _, _, _) => MoveCovers(b, op, anybody, m);
    case Give(_, _, _, _) => GiveCovers(b, op, anybody, m);
  }

  // ---------------------------------------------------------------- one user

  /**
   A user held to a limit uses less than one chunk more, but for the slack; and if it was over by more than
   that when the limit was applied, it has used nothing since.
   */
  predicate HeldOk(q: Q.State, note: Note, chunk: nat) {
    && Q.LimitOf(q).Some? && Q.Used(q) < Q.LimitOf(q).value + chunk + note.slack
    && (if note.at < Q.LimitOf(q).value + chunk then Q.Used(q) < Q.LimitOf(q).value + chunk else Q.Used(q) == note.at)
  }

  predicate UserOk(q: Q.State, note: Note, chunk: nat) {
    Q.Exact(q) && (note.held ==> HeldOk(q, note, chunk))
  }

  /** The book's limit has been applied. */
  predicate Settled(b: Book, name: string, q: Q.State, note: Note) {
    note.held && name in b.baselines && Q.LimitOf(q) == Limit(b, name)
  }

  /** The book's limit is about to be applied. */
  predicate Due(b: Book, name: string, q: Q.State, note: Note) {
    name in b.baselines
    && (note.read <= Limit(b, name).value
        || (note.held && Q.LimitOf(q).Some? && Q.LimitOf(q).value <= Limit(b, name).value))
  }

  lemma ApplyKept(b: Book, name: string, q: Q.State, note: Note, chunk: nat)
    requires UserOk(q, note, chunk) && Due(b, name, q, note) && Limit(b, name).value < Q.NO_LIMIT && chunk > 0
    ensures var limit := E.LimitFor(b, name, q);
      && UserOk(QR.ApplyLimit(q, limit), Applied(note, q, limit), chunk)
      && Settled(b, name, QR.ApplyLimit(q, limit), Applied(note, q, limit))
  {
  }

  lemma SettledIsDue(b: Book, name: string, q: Q.State, note: Note)
    requires Settled(b, name, q, note)
    ensures Due(b, name, q, note)
  {
  }

  lemma RestoreKept(b: Book, name: string, q: Q.State, note: Note, chunk: nat, hour: int)
    requires UserOk(q, note, chunk) && chunk > 0
    requires b.migrated ==> Due(b, name, q, note) && Limit(b, name).value < Q.NO_LIMIT
    ensures var r := Restored(b, name, q, hour);
      var after := if b.migrated then Applied(note, q, E.LimitFor(b, name, q)) else note;
      UserOk(r, after, chunk) && (b.migrated ==> Settled(b, name, r, after)) && Q.LimitOf(r) == (if b.migrated then Limit(b, name) else Q.LimitOf(q))
  {
    if b.migrated { ApplyKept(b, name, q, note, chunk); }
  }

  lemma CarryKept(q: Q.State, note: Note, use: QR.Op, chunk: nat)
    requires UserOk(q, note, chunk) && (use.Roll? || (use.Take? && use.n <= chunk))
    ensures UserOk(QR.Apply(q, use), note, chunk) && Q.LimitOf(QR.Apply(q, use)) == Q.LimitOf(q)
  {
    if use.Take? && Q.LimitOf(q).Some? { QR.Overshoot(q, use.n, use.d, use.at); }
  }

  lemma MeterKept(q: Q.State, note: Note, rule: Q.Metering, chunk: nat)
    requires UserOk(q, note, chunk)
    ensures var r := Q.SetMetering(q, rule);
      UserOk(r, note.(at := Q.Used(r), slack := note.slack + Over(Q.Used(r), Q.Used(q))), chunk)
      && Q.LimitOf(r) == Q.LimitOf(q)
  {
  }

  // ---------------------------------------------------------------- all users

  predicate PhaseOk(w: World, name: string)
    requires name in w.quotas && name in w.notes
  {
    var q, note := w.quotas[name], w.notes[name];
    match w.phase
    case Idle => w.book.migrated ==> Settled(w.book, name, q, note)
    case Saving(next) => (w.book.migrated ==> Settled(w.book, name, q, note)) && Due(next, name, q, note)
    case Applying(todo) => if name in todo then Due(w.book, name, q, note) else Settled(w.book, name, q, note)
  }

  predicate BooksOk(w: World) {
    && (w.book.migrated ==> Small(w.book))
    && (w.phase.Saving? ==> w.phase.next.migrated && Small(w.phase.next))
    && (w.phase.Applying? ==> w.book.migrated)
  }

  predicate Inv(w: World, chunk: nat) {
    && w.notes.Keys == w.quotas.Keys && BooksOk(w)
    && (forall name | name in w.quotas :: UserOk(w.quotas[name], w.notes[name], chunk) && PhaseOk(w, name))
  }

  /** Only one user changes, and the books and the phase do not. */
  lemma OneUser(w: World, v: World, name: string, chunk: nat)
    requires Inv(w, chunk) && name in w.quotas && v.book == w.book && v.phase == w.phase
    requires name in v.quotas && name in v.notes
    requires v.quotas == w.quotas[name := v.quotas[name]] && v.notes == w.notes[name := v.notes[name]]
    requires UserOk(v.quotas[name], v.notes[name], chunk) && PhaseOk(v, name)
    ensures Inv(v, chunk)
  {
    forall o | o in v.quotas ensures UserOk(v.quotas[o], v.notes[o], chunk) && PhaseOk(v, o) {
      if o != name { assert PhaseOk(w, o); }
    }
  }

  lemma CarryStep(w: World, name: string, use: QR.Op, chunk: nat)
    requires Inv(w, chunk) && Enabled(w, Carry(name, use), chunk)
    ensures Inv(Do(w, Carry(name, use)), chunk)
  {
    var v := Do(w, Carry(name, use));
    assert PhaseOk(w, name);
    CarryKept(w.quotas[name], w.notes[name], use, chunk);
    assert v.notes == w.notes[name := w.notes[name]];
    OneUser(w, v, name, chunk);
  }

  lemma MeterStep(w: World, name: string, rule: Q.Metering, chunk: nat)
    requires Inv(w, chunk) && name in w.quotas
    ensures Inv(Do(w, Meter(name, rule)), chunk)
  {
    assert PhaseOk(w, name);
    MeterKept(w.quotas[name], w.notes[name], rule, chunk);
    OneUser(w, Do(w, Meter(name, rule)), name, chunk);
  }

  lemma LookStep(w: World, name: string, chunk: nat)
    requires Inv(w, chunk) && Enabled(w, Look(name), chunk)
    ensures Inv(Do(w, Look(name)), chunk)
  {
    var v := Do(w, Look(name));
    assert PhaseOk(w, name);
    assert v.quotas == w.quotas[name := w.quotas[name]];
    OneUser(w, v, name, chunk);
  }

  lemma ProposeStep(w: World, op: LR.Op, anybody: bool, chunk: nat)
    requires Inv(w, chunk) && Enabled(w, Propose(op, anybody), chunk)
    ensures Inv(Do(w, Propose(op, anybody)), chunk)
  {
    var v, p := Do(w, Propose(op, anybody)), E.Proposal(w.book, op, anybody);
    if p.Some? {
      CommitMigrates(w.book, op, anybody);
      forall name | name in v.quotas ensures PhaseOk(v, name) {
        assert PhaseOk(w, name);
        var m :| m in op.members && m.name == name;
        CommitCovers(w.book, op, anybody, m);
        if !w.book.migrated { FirstCovers(w.book, op, anybody, m); }
      }
    }
  }

  lemma CommitMigrates(b: Book, op: LR.Op, anybody: bool)
    requires E.Proposal(b, op, anybody).Some?
    ensures E.Proposal(b, op, anybody).value.book.migrated
    ensures !b.migrated ==> op.Sync?
  {
    LL.JoinKeeps(b, op.members, "");
  }

  lemma FirstCovers(b: Book, op: LR.Op, anybody: bool, m: Member)
    requires E.Proposal(b, op, anybody).Some? && Distinct(Names(op.members)) && m in op.members && !b.migrated
    ensures var c := E.Proposal(b, op, anybody).value.book;
      m.name in c.baselines && m.used <= Limit(c, m.name).value
  {
    CommitMigrates(b, op, anybody);
    CommitCovers(b, op, anybody, m);
  }

  lemma SavedStep(w: World, ok: bool, chunk: nat)
    requires Inv(w, chunk) && w.phase.Saving?
    ensures Inv(Do(w, Saved(ok)), chunk)
  {
    var v := Do(w, Saved(ok));
    forall name | name in v.quotas ensures PhaseOk(v, name) { assert PhaseOk(w, name); }
  }

  lemma ApplyStep(w: World, name: string, chunk: nat)
    requires Inv(w, chunk) && Enabled(w, Apply(name), chunk) && chunk > 0
    ensures Inv(Do(w, Apply(name)), chunk)
  {
    var v, q, note := Do(w, Apply(name)), w.quotas[name], w.notes[name];
    assert PhaseOk(w, name);
    assert Limit(w.book, name).value < Q.NO_LIMIT;
    ApplyKept(w.book, name, q, note, chunk);
    forall o | o in v.quotas ensures UserOk(v.quotas[o], v.notes[o], chunk) && PhaseOk(v, o) {
      if o != name { assert PhaseOk(w, o); }
    }
  }

  lemma RestartStep(w: World, hour: int, chunk: nat)
    requires Inv(w, chunk) && chunk > 0
    ensures Inv(Do(w, Restart(hour)), chunk)
  {
    var v := Do(w, Restart(hour));
    forall name | name in v.quotas ensures UserOk(v.quotas[name], v.notes[name], chunk) && PhaseOk(v, name) {
      assert PhaseOk(w, name);
      var q, note := w.quotas[name], w.notes[name];
      if w.book.migrated {
        if Settled(w.book, name, q, note) { SettledIsDue(w.book, name, q, note); }
        assert Limit(w.book, name).value < Q.NO_LIMIT;
      }
      RestoreKept(w.book, name, q, note, chunk, hour);
    }
  }

  lemma StepKept(w: World, e: Event, chunk: nat)
    requires Inv(w, chunk) && Enabled(w, e, chunk) && chunk > 0
    ensures Inv(Do(w, e), chunk)
  {
    match e
    case Carry(name, use) => CarryStep(w, name, use, chunk);
    case Look(name) => LookStep(w, name, chunk);
    case Propose(op, anybody) => ProposeStep(w, op, anybody, chunk);
    case Saved(ok) => SavedStep(w, ok, chunk);
    case Apply(name) => ApplyStep(w, name, chunk);
    case Meter(name, rule) => MeterStep(w, name, rule, chunk);
    case Restart(hour) => RestartStep(w, hour, chunk);
  }

  lemma {:induction false} RunKept(w: World, es: seq<Event>, chunk: nat)
    requires Inv(w, chunk) && CanRun(w, es, chunk) && chunk > 0
    ensures Inv(Run(w, es), chunk)
  {
    if |es| > 0 {
      RunKept(w, es[..|es| - 1], chunk);
      StepKept(Run(w, es[..|es| - 1]), es[|es| - 1], chunk);
    }
  }

  lemma DoKeys(w: World, e: Event)
    requires w.notes.Keys == w.quotas.Keys
    ensures Do(w, e).notes.Keys == Do(w, e).quotas.Keys == w.quotas.Keys
  {
  }

  /** The users stay the same. */
  lemma {:induction false} RunKeys(w: World, es: seq<Event>)
    requires w.notes.Keys == w.quotas.Keys
    ensures Run(w, es).notes.Keys == Run(w, es).quotas.Keys == w.quotas.Keys
  {
    if |es| > 0 {
      RunKeys(w, es[..|es| - 1]);
      DoKeys(Run(w, es[..|es| - 1]), es[|es| - 1]);
    }
  }

  // ---------------------------------------------------------------- theorems

  /** What a user has used since its last settlement. */
  function SpentBy(w: World, name: string): int
    requires name in w.quotas && name in w.book.baselines
  {
    Q.Used(w.quotas[name]) - w.book.baselines[name]
  }

  /** What its balance allows. */
  function Allowed(w: World, name: string): nat {
    if Get(w.book.balances, name) > 0 then Get(w.book.balances, name) else 0
  }

  predicate Pending(w: World, name: string) {
    w.phase.Applying? && name in w.phase.todo
  }

  /**
   Over every run of traffic, syncs, transfers, allocations, metering changes and restarts, a user whose
   limit has been applied has spent less than its positive balance, one chunk and the slack. It has spent
   less than the balance and one chunk if and only if it had when its limit or rule was last applied; if it
   had not, it is stopped and has used nothing since.
   */
  lemma NobodyOutspends(quotas: map<string, Q.State>, es: seq<Event>, chunk: nat, name: string)
    requires (forall n | n in quotas :: Q.Exact(quotas[n])) && chunk > 0
    requires CanRun(Opening(quotas), es, chunk)
    ensures var w := Run(Opening(quotas), es);
      w.book.migrated && name in quotas && !Pending(w, name) ==>
        && Known(w, name) && name in w.book.baselines
        && SpentBy(w, name) < Allowed(w, name) + chunk + w.notes[name].slack
        && (SpentBy(w, name) < Allowed(w, name) + chunk
            <==> w.notes[name].at - w.book.baselines[name] < Allowed(w, name) + chunk)
        && (SpentBy(w, name) >= Allowed(w, name) + chunk ==>
              w.quotas[name].exhausted && Q.Used(w.quotas[name]) == w.notes[name].at)
  {
    RunKept(Opening(quotas), es, chunk);
    RunKeys(Opening(quotas), es);
    var w := Run(Opening(quotas), es);
    if name in w.quotas { assert PhaseOk(w, name); }
  }

  /** The same while the new limit is still to be applied, against the limit that is in force. */
  lemma OldLimitStillHolds(quotas: map<string, Q.State>, es: seq<Event>, chunk: nat, name: string)
    requires (forall n | n in quotas :: Q.Exact(quotas[n])) && chunk > 0
    requires CanRun(Opening(quotas), es, chunk) && name in quotas
    ensures var w := Run(Opening(quotas), es);
      Known(w, name) && (w.notes[name].held ==>
        && Q.LimitOf(w.quotas[name]).Some?
        && Q.Used(w.quotas[name]) < Q.LimitOf(w.quotas[name]).value + chunk + w.notes[name].slack)
  {
    RunKept(Opening(quotas), es, chunk);
    RunKeys(Opening(quotas), es);
  }

  // ---------------------------------------------------------------- when nothing comes in between

  /** No traffic while the engine is at work, fresh readings, and one metering rule. */
  ghost predicate Calm(w: World, e: Event) {
    match e
    case Carry(_, _) => w.phase.Idle?
    case Meter(_, _) => false
    case Propose(_, _) => forall name | name in w.quotas && Known(w, name) :: w.notes[name].read == Q.Used(w.quotas[name])
    case _ => true
  }

  ghost predicate CalmRun(w: World, es: seq<Event>) {
    |es| == 0 || (CalmRun(w, es[..|es| - 1]) && Calm(Run(w, es[..|es| - 1]), es[|es| - 1]))
  }

  predicate NoSlack(w: World) {
    forall name | name in w.quotas && Known(w, name) ::
      w.notes[name].slack == 0 && (!w.phase.Idle? ==> w.notes[name].read == Q.Used(w.quotas[name]))
  }

  lemma RestoredUses(b: Book, name: string, q: Q.State, hour: int)
    ensures Q.Used(Restored(b, name, q, hour)) == Q.Used(q)
  {
  }

  lemma CalmStep(w: World, e: Event, chunk: nat)
    requires Inv(w, chunk) && Enabled(w, e, chunk) && Calm(w, e) && NoSlack(w)
    ensures NoSlack(Do(w, e))
  {
    if e.Restart? {
      forall name | name in w.quotas ensures Do(w, e).notes[name].slack == 0 { RestartCalm(w, name); }
    }
  }

  lemma RestartCalm(w: World, name: string)
    requires w.notes.Keys == w.quotas.Keys && NoSlack(w) && name in w.quotas && PhaseOk(w, name)
    ensures w.book.migrated ==> Applied(w.notes[name], w.quotas[name], E.LimitFor(w.book, name, w.quotas[name])).slack == 0
  {
  }

  lemma {:induction false} CalmRunsHaveNoSlack(quotas: map<string, Q.State>, es: seq<Event>, chunk: nat)
    requires (forall n | n in quotas :: Q.Exact(quotas[n])) && chunk > 0
    requires CanRun(Opening(quotas), es, chunk) && CalmRun(Opening(quotas), es)
    ensures NoSlack(Run(Opening(quotas), es))
  {
    if |es| > 0 {
      CalmRunsHaveNoSlack(quotas, es[..|es| - 1], chunk);
      RunKept(Opening(quotas), es[..|es| - 1], chunk);
      CalmStep(Run(Opening(quotas), es[..|es| - 1]), es[|es| - 1], chunk);
    }
  }

  /** Then the plain bound holds: a user has spent less than its positive balance and one chunk. */
  lemma CalmRunsStayBounded(quotas: map<string, Q.State>, es: seq<Event>, chunk: nat, name: string)
    requires (forall n | n in quotas :: Q.Exact(quotas[n])) && chunk > 0
    requires CanRun(Opening(quotas), es, chunk) && CalmRun(Opening(quotas), es)
    ensures var w := Run(Opening(quotas), es);
      w.book.migrated && name in quotas && !Pending(w, name) ==>
        Known(w, name) && name in w.book.baselines && SpentBy(w, name) < Allowed(w, name) + chunk
  {
    NobodyOutspends(quotas, es, chunk, name);
    CalmRunsHaveNoSlack(quotas, es, chunk);
  }
}
