/** The accounting engine: the book in memory, the newest lines, and their copies in the database. */
module Engine {
  import opened Options
  import opened Sums
  import opened Ledger
  import opened StateDb
  import LL = LedgerLaws
  import LR = LedgerRuns
  import LedgerBook
  import LG = LedgerGuarantees
  import Q = Quota
  import Config
  import Runtime

  /** How many lines the status page keeps. */
  const RECENT: nat := 500

  datatype Storage = Storage(book: Option<Book>, rows: seq<Row>)

  /** Without a state file there is no storage. */
  datatype State = State(book: Book, ring: seq<Entry>, storage: Option<Storage>)

  /**
   What an operation would commit; refused ones and a first sync with nothing to share commit nothing.
   `anybody` says whether there were users before the fetch: the members are listed again after it.
   */
  ghost function Proposal(b: Book, op: LR.Op, anybody: bool): Option<Outcome> {
    match op
    case Sync(ps, members, a, now) =>
      if !b.migrated && (!anybody || forall p | p in ps :: !p.Effective()) then None
      else Some(Reconcile(b, ps, members, a, now))
    case Move(members, from, to, amount, now) =>
      var r := Transfer(b, members, from, to, amount, now);
      if r.Ok? then Some(r.outcome) else None
    case Give(members, receiver, wanted, now) =>
      var r := Allocate(b, members, receiver, wanted, now);
      if r.Ok? then Some(r.outcome) else None
  }

  function Committed(s: State, o: Outcome): State {
    State(o.book, Last(s.ring + o.entries, RECENT),
          if s.storage.None? then None
          else Some(Storage(Some(o.book), s.storage.value.rows + RowsOf(o.entries))))
  }

  ghost predicate Commits(s: State, op: LR.Op, anybody: bool, saves: bool) {
    Proposal(s.book, op, anybody).Some? && (s.storage.Some? ==> saves)
  }

  ghost function Attempt(s: State, op: LR.Op, anybody: bool, saves: bool): State {
    if Commits(s, op, anybody, saves) then Committed(s, Proposal(s.book, op, anybody).value) else s
  }

  /** What a new process finds. */
  function Booted(storage: Option<Storage>): State {
    if storage.None? then State(EMPTY, [], None)
    else State(if storage.value.book.Some? then storage.value.book.value else EMPTY,
               ParsedAll(Last(storage.value.rows, RECENT)), storage)
  }

  // ---------------------------------------------------------------- whole runs

  datatype Event = Attempted(op: LR.Op, anybody: bool, saves: bool) | Rebooted

  ghost function Next(s: State, e: Event): State {
    match e
    case Attempted(op, anybody, saves) => Attempt(s, op, anybody, saves)
    case Rebooted => Booted(s.storage)
  }

  /** A state and the operations that made it, the failed and refused ones left out. */
  datatype Trace = Trace(state: State, done: seq<LR.Op>)

  ghost function Played(persistent: bool, events: seq<Event>): Trace {
    if |events| == 0 then Trace(Booted(if persistent then Some(Storage(None, [])) else None), [])
    else
      var before, e := Played(persistent, events[..|events| - 1]), events[|events| - 1];
      Trace(Next(before.state, e),
            match e
            case Attempted(op, anybody, saves) =>
              if Commits(before.state, op, anybody, saves) then before.done + [op] else before.done
            case Rebooted => if persistent then before.done else [])
  }

  /** Memory and storage both hold the history of the committed operations. */
  ghost predicate Agrees(persistent: bool, t: Trace) {
    var h := LR.Run(t.done);
    && t.state.book == h.book
    && t.state.ring == Last(h.journal, RECENT)
    && (t.state.storage.Some? <==> persistent)
    && (persistent ==> t.state.storage.value.rows == RowsOf(h.journal))
    && (persistent ==> t.state.storage.value.book == if t.done == [] then None else Some(h.book))
  }

  lemma LastOfLast<T>(s: seq<T>, more: seq<T>, n: nat)
    ensures Last(Last(s, n) + more, n) == Last(s + more, n)
  {
  }

  lemma RowsAppend(x: seq<Entry>, y: seq<Entry>)
    ensures RowsOf(x + y) == RowsOf(x) + RowsOf(y)
  {
  }

  lemma CommitAgrees(persistent: bool, t: Trace, op: LR.Op, anybody: bool, saves: bool)
    requires Agrees(persistent, t) && Commits(t.state, op, anybody, saves)
    ensures Agrees(persistent, Trace(Attempt(t.state, op, anybody, saves), t.done + [op]))
  {
    var o := Proposal(t.state.book, op, anybody).value;
    var h := LR.Run(t.done);
    assert o == LR.Perform(h.book, op);
    assert (t.done + [op])[..|t.done|] == t.done;
    LastOfLast(h.journal, o.entries, RECENT);
    RowsAppend(h.journal, o.entries);
  }

  lemma RebootAgrees(persistent: bool, t: Trace)
    requires Agrees(persistent, t)
    ensures persistent ==> Booted(t.state.storage) == t.state
    ensures !persistent ==> Agrees(persistent, Trace(Booted(t.state.storage), []))
  {
    NewestRoundTrip(LR.Run(t.done).journal, RECENT);
  }

  /**
   * After every run of operations, refusals, failed saves and restarts, memory and storage agree with
   * the history of what was committed: the book, the newest lines and all the stored lines.
   */
  lemma {:induction false} RunAgrees(persistent: bool, events: seq<Event>)
    ensures Agrees(persistent, Played(persistent, events))
  {
    var n := |events| - 1;
    if n >= 0 {
      var before, e := Played(persistent, events[..n]), events[n];
      RunAgrees(persistent, events[..n]);
      if e.Rebooted? {
        RebootAgrees(persistent, before);
      } else if Commits(before.state, e.op, e.anybody, e.saves) {
        CommitAgrees(persistent, before, e.op, e.anybody, e.saves);
      }
    }
  }

  /** With a state file, a restart anywhere changes neither the book nor the newest lines. */
  lemma RestartIsInvisible(events: seq<Event>)
    ensures Booted(Played(true, events).state.storage) == Played(true, events).state
  {
    RunAgrees(true, events);
    RebootAgrees(true, Played(true, events));
  }

  ghost predicate WellFormed(events: seq<Event>) {
    forall e | e in events :: e.Attempted? ==> LR.WellFormed(e.op)
  }

  lemma {:induction false} DoneIsWellFormed(persistent: bool, events: seq<Event>)
    requires WellFormed(events)
    ensures forall op | op in Played(persistent, events).done :: LR.WellFormed(op)
  {
    var n := |events| - 1;
    if n >= 0 {
      DoneIsWellFormed(persistent, events[..n]);
      assert events[n] in events;
    }
  }

  /**
   * The stored book is explained by the stored lines: every balance is the sum of the user's rows, as
   * they read back, plus the charges and unlogged sweeps of the committed syncs.
   */
  lemma StorageIsAudited(events: seq<Event>, user: string)
    requires WellFormed(events)
    ensures var t := Played(true, events);
      var h := LR.Run(t.done);
      && t.state.storage.Some?
      && Get(t.state.book.balances, user)
         == LL.To(Postings(ParsedAll(t.state.storage.value.rows)), user) + LL.To(h.charges, user)
            + LL.To(h.unlogged, user)
  {
    RunAgrees(true, events);
    DoneIsWellFormed(true, events);
    LR.RunIsSound(Played(true, events).done);
    RowsRoundTrip(LR.Run(Played(true, events).done).journal);
  }

  /**
   The first sync shares everything out exactly when the users it saw before the fetch are still there
   after it, or there is nothing to share: an emptied list migrates with all of it unallocated.
   */
  lemma FirstSyncSharesOut(op: LR.Op, anybody: bool)
    requires op.Sync? && Proposal(EMPTY, op, anybody).Some? && Distinct(Names(op.members))
    ensures var b := Proposal(EMPTY, op, anybody).value.book;
      && anybody && b.migrated && b.remaining == Remaining(op.ps)
      && Unallocated(b) == (if op.members == [] then Remaining(op.ps) else 0)
  {
    if op.members == [] {
      MapSumZero(EMPTY.balances);
    } else {
      LG.MigrationHandsOutEverything(EMPTY, op.ps, op.members, op.a, op.now);
    }
  }

  // ---------------------------------------------------------------- the engine in place

  class Engine {
    const db: Database?
    var book: LedgerBook.LiveBook
    var ring: seq<Entry>

    ghost function View(): State
      reads this, book, db
    {
      State(book.View(), ring, if db == null then None else Some(Storage(db.book, db.rows)))
    }

    ghost predicate Valid()
      reads this
    {
      |ring| <= RECENT
    }

    constructor (db: Database?)
      ensures this.db == db && Valid() && fresh(book)
      ensures View() == Booted(if db == null then None else Some(Storage(db.book, db.rows)))
    {
      var start, recent := EMPTY, [];
      if db != null {
        if db.book.Some? { start := db.book.value; }
        recent := db.RecentEntries(RECENT);
        ParsedShrinks(Last(db.rows, RECENT));
      }
      this.db := db;
      book := new LedgerBook.LiveBook(start);
      ring := recent;
    }

    /** The copy becomes the book only once it is saved; the ring drops its oldest lines. */
    method Commit(next: LedgerBook.LiveBook, entries: seq<Entry>, saves: bool) returns (ok: bool)
      requires Valid()
      modifies this`book, this`ring, db
      ensures Valid()
      ensures ok == (db == null || saves)
      ensures ok ==> book == next && View() == Committed(old(View()), Outcome(next.View(), entries))
      ensures !ok ==> book == old(book) && View() == old(View())
      ensures db != null ==> db.usage == old(db.usage) && db.lastFlushed == old(db.lastFlushed)
    {
      if db != null {
        var saved := db.SaveBook(next.View(), entries, saves);
        if !saved { return false; }
      }
      book := next;
      for i := 0 to |entries|
        invariant |ring| <= RECENT && book == next
        invariant ring == Last(old(ring) + entries[..i], RECENT)
        invariant db != null ==> db.book == Some(next.View()) && db.rows == old(db.rows) + RowsOf(entries)
                                 && db.usage == old(db.usage) && db.lastFlushed == old(db.lastFlushed)
      {
        LastPush(old(ring), entries, i);
        if |ring| == RECENT { ring := ring[1..]; }
        ring := ring + [entries[i]];
      }
      assert entries[..|entries|] == entries;
      return true;
    }

    method CommitProposal(ghost op: LR.Op, ghost anybody: bool, copy: LedgerBook.LiveBook, entries: seq<Entry>, saves: bool)
      requires Valid() && Proposal(book.View(), op, anybody) == Some(Outcome(copy.View(), entries))
      modifies this`book, this`ring, db
      ensures Valid() && View() == Attempt(old(View()), op, anybody, saves)
    {
      var _ := Commit(copy, entries, saves);
    }

    method SyncWith(anybody: bool, ps: seq<Package>, members: seq<Member>, a: Assignments, now: int, saves: bool)
      requires Valid()
      modifies this`book, this`ring, db
      ensures Valid() && View() == Attempt(old(View()), LR.Sync(ps, members, a, now), anybody, saves)
    {
      if !book.migrated && !anybody { return; }
      var found := AnyEffective(ps);
      if !book.migrated && !found { return; }
      var copy := new LedgerBook.LiveBook(book.View());
      var entries := copy.ReconcileWith(ps, members, a, now);
      CommitProposal(LR.Sync(ps, members, a, now), anybody, copy, entries, saves);
    }

    method Transfer(members: seq<Member>, from: string, to: string, amount: nat, now: int, saves: bool)
      requires Valid()
      modifies this`book, this`ring, db
      ensures Valid() && View() == Attempt(old(View()), LR.Move(members, from, to, amount, now), false, saves)
    {
      var copy := new LedgerBook.LiveBook(book.View());
      var ok, entries := copy.TransferBetween(members, from, to, amount, now);
      if ok { CommitProposal(LR.Move(members, from, to, amount, now), false, copy, entries, saves); }
    }

    method Allocate(members: seq<Member>, to: Option<string>, amount: Option<nat>, now: int, saves: bool)
      requires Valid()
      modifies this`book, this`ring, db
      ensures Valid() && View() == Attempt(old(View()), LR.Give(members, to, amount, now), false, saves)
    {
      var copy := new LedgerBook.LiveBook(book.View());
      var ok, entries := copy.AllocateTo(members, to, amount, now);
      assert Proposal(book.View(), LR.Give(members, to, amount, now), false)
          == if ok then Some(Outcome(copy.View(), entries)) else None;
      if ok { CommitProposal(LR.Give(members, to, amount, now), false, copy, entries, saves); }
    }
  }

  method AnyEffective(ps: seq<Package>) returns (found: bool)
    ensures found <==> exists p | p in ps :: p.Effective()
  {
    for i := 0 to |ps|
      invariant forall j | 0 <= j < i :: !ps[j].Effective()
    {
      if ps[i].Effective() { return true; }
    }
    return false;
  }

  lemma {:induction false} ParsedShrinks(rows: seq<Row>)
    ensures |ParsedAll(rows)| <= |rows|
  {
    if |rows| > 0 { ParsedShrinks(rows[1..]); }
  }

  lemma LastPush(ring: seq<Entry>, entries: seq<Entry>, i: nat)
    requires |ring| <= RECENT && i < |entries|
    ensures var now := Last(ring + entries[..i], RECENT);
      Last(ring + entries[..i + 1], RECENT) == (if |now| == RECENT then now[1..] else now) + [entries[i]]
  {
    assert ring + entries[..i + 1] == ring + entries[..i] + [entries[i]];
  }

  // ---------------------------------------------------------------- limits

  /** The limit the book gives a user; one the book does not know gets no more than was used. */
  function LimitFor(b: Book, name: string, s: Q.State): nat {
    match Limit(b, name)
    case Some(limit) => limit
    case None => Q.Used(s)
  }

  /** What the runtime is told when it reloads. */
  function LimitsOf(b: Book): map<string, nat> {
    map name | name in b.baselines :: b.baselines[name] + if Get(b.balances, name) > 0 then Get(b.balances, name) else 0
  }

  /** A reload and the engine give a user the same limit. */
  lemma ReloadAgrees(c: Config.Config, u: Config.User, b: Book, q: Q.State)
    ensures Runtime.WantedLimit(c, u, Some(LimitsOf(b)), q) == Some(LimitFor(b, u.name, q))
  {
  }

  /**
   Once the book has migrated, its limits are there for the next reload; while remote accounting is on,
   every quota is held to them as well.
   */
  method ApplyLimits(b: Book, remoteOn: bool, known: Option<map<string, nat>>, names: seq<string>,
                     quotas: seq<Q.UserQuota>)
    returns (limits: Option<map<string, nat>>)
    requires |names| == |quotas| && Distinct(quotas)
    requires forall q | q in quotas :: Q.Exact(q.View())
    modifies set q | q in quotas
    ensures limits == if b.migrated then Some(LimitsOf(b)) else known
    ensures b.migrated && remoteOn ==> forall i | 0 <= i < |quotas| ::
              quotas[i].View() == Q.SetLimit(old(quotas[i].View()), Some(LimitFor(b, names[i], old(quotas[i].View()))))
    ensures !(b.migrated && remoteOn) ==> forall q | q in quotas :: q.View() == old(q.View())
  {
    if !b.migrated { return known; }
    limits := Some(LimitsOf(b));
    if !remoteOn { return; }
    for i := 0 to |quotas|
      invariant forall j | 0 <= j < i ::
        quotas[j].View() == Q.SetLimit(old(quotas[j].View()), Some(LimitFor(b, names[j], old(quotas[j].View()))))
      invariant forall j | i <= j < |quotas| :: quotas[j].View() == old(quotas[j].View())
    {
      var q := quotas[i];
      var limit := LimitFor(b, names[i], q.View());
      if Q.LimitOf(q.View()) != Some(limit) {
        q.ChangeLimit(Some(limit));
      }
    }
  }

  /** A user is cut off exactly when nothing positive is left of its balance. */
  lemma AppliedLimitCutsOff(b: Book, name: string, s: Q.State)
    ensures var t := Q.SetLimit(s, Some(LimitFor(b, name, s)));
      t.exhausted <==> name !in b.baselines
                       || Q.Used(s) - b.baselines[name] >= (if Get(b.balances, name) > 0 then Get(b.balances, name) else 0)
  {
  }
}
