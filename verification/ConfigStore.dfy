/** The configuration file and the panel's saved edits: which of the two is live, and what a restart brings back. */
module ConfigStore {
  import opened Options
  import Config

  datatype Remote = Remote(secretKey: string, settings: string)

  datatype Accounting = Accounting(remote: Option<Remote>, settings: string)

  /**
   * A configuration. The panel edits the first four fields; `panel` is where an enabled panel keeps its
   * edits and `fixed` stands for the settings that need a restart.
   */
  datatype Document = Document(totalQuota: Option<nat>, accounting: Accounting, singleUser: bool,
                               users: seq<Config.User>, panel: Option<string>, fixed: string)

  /** The panel's edits as saved, with the text of the file they were made on. */
  datatype Store = Store(base: string, totalQuota: Option<nat>, accounting: Option<Accounting>,
                         singleUser: Option<bool>, users: seq<Config.User>)

  datatype Edit = Edit(revision: nat, totalQuota: Option<nat>, accounting: Option<Accounting>,
                       singleUser: bool, users: seq<Config.User>)

  /** What a path holds: a store that loads, or bytes that do not. */
  datatype Slot = Loadable(store: Store) | Garbage(bytes: string)

  datatype Live = Live(config: Document, revision: nat, fromPanel: bool)

  /** The process keeps the store path it started with. */
  datatype Process = Process(storePath: Option<string>, fileRaw: string, live: Live)

  datatype World = World(disk: map<string, Slot>, process: Option<Process>)

  datatype Saved = Published(revision: nat) | Conflict | Invalid | Failed

  /** How texts parse and which configurations pass the checks; parsing ends with the checks. */
  datatype Rules = Rules(parse: string -> Option<Document>, check: Document -> bool)

  ghost predicate Lawful(rules: Rules) {
    forall raw :: rules.parse(raw).Some? ==> rules.check(rules.parse(raw).value)
  }

  function KeepSecret(edited: Accounting, current: Accounting): Accounting {
    match (edited.remote, current.remote)
    case (Some(remote), Some(previous)) =>
      if remote.secretKey == "" then edited.(remote := Some(remote.(secretKey := previous.secretKey))) else edited
    case _ => edited
  }

  /** A file with a store's edits laid over it. */
  function Overlaid(file: Document, store: Store): Document {
    file.(totalQuota := store.totalQuota,
          accounting := if store.accounting.Some? then store.accounting.value else file.accounting,
          singleUser := if store.singleUser.Some? then store.singleUser.value else file.singleUser,
          users := store.users)
  }

  function AccountingOf(current: Document, edit: Edit): Accounting {
    KeepSecret(if edit.accounting.Some? then edit.accounting.value else current.accounting, current.accounting)
  }

  function Edited(current: Document, edit: Edit): Document {
    current.(totalQuota := edit.totalQuota, accounting := AccountingOf(current, edit),
             singleUser := edit.singleUser, users := edit.users)
  }

  function StoreOf(base: string, current: Document, edit: Edit): Store {
    Store(base, edit.totalQuota, Some(AccountingOf(current, edit)), Some(edit.singleUser), edit.users)
  }

  predicate HasStore(disk: map<string, Slot>, path: Option<string>) {
    path.Some? && path.value in disk && disk[path.value].Loadable?
  }

  function StoreAt(disk: map<string, Slot>, path: Option<string>): Store
    requires HasStore(disk, path)
  {
    disk[path.value].store
  }

  /** The store is for this very text and its edits still pass the checks. */
  predicate Usable(rules: Rules, file: Document, raw: string, disk: map<string, Slot>)
  {
    && HasStore(disk, file.panel)
    && StoreAt(disk, file.panel).base == raw
    && rules.check(Overlaid(file, StoreAt(disk, file.panel)))
  }

  // ---------------------------------------------------------------- one step, on values

  function StartTo(rules: Rules, w: World, raw: string, applies: bool): World {
    if rules.parse(raw).None? then w.(process := None)
    else
      var file := rules.parse(raw).value;
      var usable := Usable(rules, file, raw, w.disk);
      var disk := if HasStore(w.disk, file.panel) && !usable then w.disk - {file.panel.value} else w.disk;
      var config := if usable then Overlaid(file, StoreAt(w.disk, file.panel)) else file;
      World(disk, if applies then Some(Process(file.panel, raw, Live(config, 0, usable))) else None)
  }

  function ReloadTo(rules: Rules, w: World, raw: string, applies: bool): World {
    if w.process.None? then w
    else
      var p := w.process.value;
      var next := rules.parse(raw);
      if next.None? || !applies then w.(process := Some(p.(fileRaw := raw)))
      else
        World(if p.storePath.Some? && p.live.fromPanel then w.disk - {p.storePath.value} else w.disk,
              Some(Process(p.storePath, raw, Live(next.value, p.live.revision + 1, false))))
  }

  function SaveTo(rules: Rules, w: World, edit: Edit, writes: bool, applies: bool): (World, Saved) {
    if w.process.None? || w.process.value.storePath.None? then (w, Failed)
    else
      var p := w.process.value;
      var next := Edited(p.live.config, edit);
      if edit.revision != p.live.revision then (w, Conflict)
      else if !rules.check(next) then (w, Invalid)
      else if !writes then (w, Failed)
      else if !applies then (w, Invalid)
      else
        (World(w.disk[p.storePath.value := Loadable(StoreOf(p.fileRaw, p.live.config, edit))],
               Some(p.(live := Live(next, p.live.revision + 1, true)))),
         Published(p.live.revision + 1))
  }

  // ---------------------------------------------------------------- the select loop

  /** The process and the files it owns; each method is one turn of the loop. */
  class Supervisor {
    const rules: Rules
    var disk: map<string, Slot>
    var running: bool
    var storePath: Option<string>
    var fileRaw: string
    var live: Live

    constructor (rules: Rules, disk: map<string, Slot>)
      ensures this.rules == rules && State() == World(disk, None)
    {
      this.rules, this.disk, running, storePath, fileRaw := rules, disk, false, None, "";
      live := Live(Document(None, Accounting(None, ""), false, [], None, ""), 0, false);
    }

    function State(): World
      reads this
    {
      World(disk, if running then Some(Process(storePath, fileRaw, live)) else None)
    }

    method RemoveStore(path: string)
      modifies this`disk
      ensures disk == old(disk) - {path}
    {
      disk := disk - {path};
    }

    method Restore(file: Document, raw: string, path: string) returns (r: Option<Document>)
      requires file.panel == Some(path)
      modifies this`disk
      ensures r == if Usable(rules, file, raw, old(disk)) then Some(Overlaid(file, StoreAt(old(disk), file.panel))) else None
      ensures disk == if HasStore(old(disk), file.panel) && r.None? then old(disk) - {path} else old(disk)
    {
      if path !in disk || disk[path].Garbage? {
        return None;
      }
      var store := disk[path].store;
      if store.base != raw {
        RemoveStore(path);
        return None;
      }
      var edited := Overlaid(file, store);
      if rules.check(edited) {
        return Some(edited);
      }
      RemoveStore(path);
      return None;
    }

    method Start(raw: string, applies: bool)
      modifies this
      ensures State() == StartTo(rules, old(State()), raw, applies)
    {
      running := false;
      var config := rules.parse(raw);
      if config.None? {
        return;
      }
      storePath := config.value.panel;
      var stored: Option<Document> := None;
      if storePath.Some? {
        stored := Restore(config.value, raw, storePath.value);
      }
      if !applies {
        return;
      }
      live := Live(if stored.Some? then stored.value else config.value, 0, stored.Some?);
      fileRaw := raw;
      running := true;
    }

    method Publish(config: Document, fromPanel: bool) returns (revision: nat)
      modifies this`live
      ensures live == Live(config, old(live).revision + 1, fromPanel)
      ensures revision == live.revision
    {
      revision := live.revision + 1;
      live := Live(config, revision, fromPanel);
    }

    method Reload(raw: string, applies: bool)
      modifies this
      ensures State() == ReloadTo(rules, old(State()), raw, applies)
    {
      if !running {
        return;
      }
      fileRaw := raw;
      var next := rules.parse(raw);
      if next.Some? && applies {
        if storePath.Some? && live.fromPanel {
          RemoveStore(storePath.value);
        }
        var _ := Publish(next.value, false);
      }
    }

    /** The store is written before the runtime takes the edit and put back when it does not. */
    method Save(edit: Edit, writes: bool, applies: bool) returns (r: Saved)
      modifies this
      ensures (State(), r) == SaveTo(rules, old(State()), edit, writes, applies)
    {
      if !running || storePath.None? {
        return Failed;
      }
      var path := storePath.value;
      if edit.revision != live.revision {
        return Conflict;
      }
      var accounting := if edit.accounting.Some? then edit.accounting.value else live.config.accounting;
      accounting := KeepSecret(accounting, live.config.accounting);
      var store := Store(fileRaw, edit.totalQuota, Some(accounting), Some(edit.singleUser), edit.users);
      var next := live.config.(totalQuota := store.totalQuota, accounting := accounting,
                               singleUser := edit.singleUser, users := store.users);
      if !rules.check(next) {
        return Invalid;
      }
      var previous := if path in disk then Some(disk[path]) else None;
      if !writes {
        return Failed;
      }
      disk := disk[path := Loadable(store)];
      if !applies {
        match previous {
          case Some(bytes) => disk := disk[path := bytes];
          case None => RemoveStore(path);
        }
        assert disk == old(disk);
        return Invalid;
      }
      var revision := Publish(next, true);
      return Published(revision);
    }
  }

  // ---------------------------------------------------------------- whole runs

  datatype Event =
    | FileChanged(raw: string, applies: bool)
    | EditSent(edit: Edit, writes: bool, applies: bool)
    | Restarted(raw: string, applies: bool)

  /**
   * A world with what led to it: the configurations the running process has published, in order,
   * whether the file text it holds was accepted, and the last text that was, as it parsed.
   */
  datatype History = History(world: World, published: seq<Document>, accepted: bool, based: Document)

  function Grown(published: seq<Document>, before: World, after: World): seq<Document> {
    if before.process.Some? && after.process.Some?
       && after.process.value.live.revision != before.process.value.live.revision
    then published + [after.process.value.live.config]
    else published
  }

  function Advance(rules: Rules, h: History, e: Event): History {
    match e
    case FileChanged(raw, applies) =>
      var w, taken := ReloadTo(rules, h.world, raw, applies), rules.parse(raw).Some? && applies;
      if h.world.process.None? then h.(world := w)
      else History(w, Grown(h.published, h.world, w), taken, if taken then rules.parse(raw).value else h.based)
    case EditSent(edit, writes, applies) =>
      var w := SaveTo(rules, h.world, edit, writes, applies).0;
      h.(world := w, published := Grown(h.published, h.world, w))
    case Restarted(raw, applies) =>
      var w := StartTo(rules, h.world, raw, applies);
      History(w, if w.process.Some? then [w.process.value.live.config] else [], true,
              if rules.parse(raw).Some? then rules.parse(raw).value else h.based)
  }

  function Play(rules: Rules, h: History, events: seq<Event>): History {
    if |events| == 0 then h
    else Advance(rules, Play(rules, h, events[..|events| - 1]), events[|events| - 1])
  }

  const BLANK := Document(None, Accounting(None, ""), false, [], None, "")

  /** Before the first start: nothing runs, and the disk holds anything at all. */
  function Fresh(disk: map<string, Slot>): History {
    History(World(disk, None), [], true, BLANK)
  }

  /** The live configuration is the accepted file, with the store's edits when it came from the panel. */
  predicate Settled(rules: Rules, disk: map<string, Slot>, p: Process) {
    && rules.parse(p.fileRaw).Some?
    && (var file := rules.parse(p.fileRaw).value;
        if p.live.fromPanel
        then HasStore(disk, p.storePath) && StoreAt(disk, p.storePath).base == p.fileRaw
             && p.live.config == Overlaid(file, StoreAt(disk, p.storePath))
        else p.live.config == file)
  }

  ghost predicate Sound(rules: Rules, h: History) {
    h.world.process.Some? ==>
      var p := h.world.process.value;
      && |h.published| == p.live.revision + 1
      && h.published[p.live.revision] == p.live.config
      && rules.check(p.live.config)
      && (p.live.fromPanel <==> HasStore(h.world.disk, p.storePath))
      && (h.accepted ==> Settled(rules, h.world.disk, p) && rules.parse(p.fileRaw) == Some(h.based))
      && p.live.config == (if HasStore(h.world.disk, p.storePath)
                           then Overlaid(h.based, StoreAt(h.world.disk, p.storePath)) else h.based)
  }

  lemma AdvanceKeeps(rules: Rules, h: History, e: Event)
    requires Lawful(rules) && Sound(rules, h)
    ensures Sound(rules, Advance(rules, h, e))
  {
  }

  /**
   * Over every run: the revision counts the configurations published, a store loads at the process's
   * path exactly when the live configuration came from the panel, and the live configuration is the
   * accepted file with the stored edits.
   */
  lemma {:induction false} RunKeepsStore(rules: Rules, disk: map<string, Slot>, events: seq<Event>)
    requires Lawful(rules)
    ensures Sound(rules, Play(rules, Fresh(disk), events))
  {
    if |events| > 0 {
      RunKeepsStore(rules, disk, events[..|events| - 1]);
      AdvanceKeeps(rules, Play(rules, Fresh(disk), events[..|events| - 1]), events[|events| - 1]);
    }
  }

  predicate SameProcess(events: seq<Event>) {
    forall i | 0 <= i < |events| :: !events[i].Restarted?
  }

  /** Publications are only added, and while there is none the live configuration stays. */
  predicate Follows(h: History, n: History) {
    && h.world.process.Some? && n.world.process.Some? && h.published <= n.published
    && n.world.process.value.storePath == h.world.process.value.storePath
    && (|n.published| == |h.published| ==> n.world.process.value.live == h.world.process.value.live)
  }

  lemma AdvanceFollows(rules: Rules, h: History, e: Event)
    requires Sound(rules, h) && h.world.process.Some? && !e.Restarted?
    ensures Follows(h, Advance(rules, h, e))
  {
  }

  /** While one process runs, a revision never means two configurations. */
  lemma {:induction false} RevisionsGrow(rules: Rules, h: History, events: seq<Event>)
    requires Lawful(rules) && Sound(rules, h) && h.world.process.Some? && SameProcess(events)
    ensures Sound(rules, Play(rules, h, events)) && Follows(h, Play(rules, h, events))
  {
    if |events| > 0 {
      var before, e := Play(rules, h, events[..|events| - 1]), events[|events| - 1];
      RevisionsGrow(rules, h, events[..|events| - 1]);
      AdvanceKeeps(rules, before, e);
      AdvanceFollows(rules, before, e);
    }
  }

  /**
   * A page loaded at `h` and sent after any further events is turned away with a conflict exactly when
   * something was published in between; when it is taken, it edits the configuration the page showed.
   */
  lemma NoLostUpdate(rules: Rules, h: History, events: seq<Event>, edit: Edit, writes: bool, applies: bool)
    requires Lawful(rules) && Sound(rules, h) && h.world.process.Some? && SameProcess(events)
    requires edit.revision == h.world.process.value.live.revision
    requires h.world.process.value.storePath.Some?
    ensures var shown := h.world.process.value.live.config;
            var now := Play(rules, h, events);
            var (w, r) := SaveTo(rules, now.world, edit, writes, applies);
            && (r.Conflict? <==> |now.published| > |h.published|)
            && (r.Published? <==> |now.published| == |h.published| && rules.check(Edited(shown, edit))
                                  && writes && applies)
            && (r.Published? ==> w.process.value.live == Live(Edited(shown, edit), r.revision, true)
                                 && r.revision > edit.revision)
            && (!r.Published? ==> w == now.world)
  {
    RevisionsGrow(rules, h, events);
  }

  /**
   * A save that is taken is the edit: the live configuration has the edit's quota, single-user flag and
   * users, its accounting but for a blank secret, and everything else as before; the store says the same.
   */
  lemma SavedIsTheEdit(rules: Rules, w: World, edit: Edit, writes: bool, applies: bool)
    requires SaveTo(rules, w, edit, writes, applies).1.Published?
    ensures var (v, r) := SaveTo(rules, w, edit, writes, applies);
            var was, now := w.process.value.live.config, v.process.value.live.config;
            && now.totalQuota == edit.totalQuota && now.singleUser == edit.singleUser && now.users == edit.users
            && now.panel == was.panel && now.fixed == was.fixed
            && (edit.accounting.None? ==> now.accounting == was.accounting)
            && (edit.accounting.Some? ==>
                  && now.accounting.settings == edit.accounting.value.settings
                  && (edit.accounting.value.remote.None? <==> now.accounting.remote.None?)
                  && (edit.accounting.value.remote.Some? ==>
                        now.accounting.remote.value.settings == edit.accounting.value.remote.value.settings))
            && v.process.value.live.fromPanel && v.process.value.live.revision == r.revision
            && HasStore(v.disk, v.process.value.storePath)
            && var store := StoreAt(v.disk, v.process.value.storePath);
               && store.base == w.process.value.fileRaw && store.totalQuota == edit.totalQuota
               && store.singleUser == Some(edit.singleUser) && store.users == edit.users
               && store.accounting == Some(now.accounting)
  {
  }

  /** A blank secret sent by the panel keeps the one in force. */
  lemma BlankSecretKeepsSecret(current: Document, edit: Edit)
    requires current.accounting.remote.Some?
    requires edit.accounting.Some? ==> edit.accounting.value.remote.Some?
    ensures var sent := if edit.accounting.Some? then edit.accounting.value.remote.value.secretKey else "";
            var kept := Edited(current, edit).accounting.remote;
            kept.Some? && kept.value.secretKey == if sent == "" then current.accounting.remote.value.secretKey else sent
  {
  }

  /** The file the running process holds, which its history says it accepted. */
  predicate HoldsFile(rules: Rules, h: History) {
    h.world.process.Some? && h.accepted && rules.parse(h.world.process.value.fileRaw).Some?
  }

  function FileOf(rules: Rules, h: History): Document
    requires HoldsFile(rules, h)
  {
    rules.parse(h.world.process.value.fileRaw).value
  }

  lemma RestartInPlace(rules: Rules, h: History)
    requires Lawful(rules) && Sound(rules, h) && HoldsFile(rules, h)
    requires FileOf(rules, h).panel == h.world.process.value.storePath
    ensures StartTo(rules, h.world, h.world.process.value.fileRaw, true)
         == World(h.world.disk,
                  Some(h.world.process.value.(live := h.world.process.value.live.(revision := 0))))
  {
  }

  /**
   * After every run, restarting on the text the process last accepted brings back the same live
   * configuration, from the same place, and touches no file, as long as that text does not move the
   * panel's store.
   */
  lemma RestartReproduces(rules: Rules, disk: map<string, Slot>, events: seq<Event>)
    requires Lawful(rules)
    requires var h := Play(rules, Fresh(disk), events);
             HoldsFile(rules, h) && FileOf(rules, h).panel == h.world.process.value.storePath
    ensures var w := Play(rules, Fresh(disk), events).world;
            var n := StartTo(rules, w, w.process.value.fileRaw, true);
            && n.disk == w.disk
            && n.process == Some(w.process.value.(live := w.process.value.live.(revision := 0)))
  {
    RunKeepsStore(rules, disk, events);
    RestartInPlace(rules, Play(rules, Fresh(disk), events));
  }

  /** What the panel can edit, as a file and perhaps a store say. */
  datatype Edits = Edits(totalQuota: Option<nat>, accounting: Accounting, singleUser: bool, users: seq<Config.User>)

  function EditsIn(file: Document, store: Option<Store>): Edits {
    match store
    case None => Edits(file.totalQuota, file.accounting, file.singleUser, file.users)
    case Some(o) =>
      Edits(o.totalQuota, if o.accounting.Some? then o.accounting.value else file.accounting,
            if o.singleUser.Some? then o.singleUser.value else file.singleUser, o.users)
  }

  /** The store behind the live configuration. */
  function LiveStore(h: History): Option<Store>
    requires h.world.process.Some?
  {
    var p := h.world.process.value;
    if p.live.fromPanel && HasStore(h.world.disk, p.storePath) then Some(StoreAt(h.world.disk, p.storePath)) else None
  }

  /** The store a new process would use on the text the old one holds. */
  function NextStore(rules: Rules, h: History): Option<Store>
    requires h.world.process.Some? && rules.parse(h.world.process.value.fileRaw).Some?
  {
    var raw := h.world.process.value.fileRaw;
    var file := rules.parse(raw).value;
    if Usable(rules, file, raw, h.world.disk) then Some(StoreAt(h.world.disk, file.panel)) else None
  }

  /**
   * After every run, restarting on the text the process last accepted reproduces the live configuration
   * if and only if the text leaves the panel's store where it is, or the store a new process finds at the
   * new path, if any, says the same as the one behind the live configuration, if any. The old path's store
   * is lost when nothing usable sits at the new path, and a store left there earlier comes back.
   */
  lemma RestartReproducesExactly(rules: Rules, disk: map<string, Slot>, events: seq<Event>)
    requires Lawful(rules) && HoldsFile(rules, Play(rules, Fresh(disk), events))
    ensures var h := Play(rules, Fresh(disk), events);
            var p, file := h.world.process.value, FileOf(rules, h);
            var n := StartTo(rules, h.world, p.fileRaw, true).process;
            && n.Some? && n.value.storePath == file.panel && n.value.live.revision == 0
            && n.value.live.fromPanel == NextStore(rules, h).Some?
            && (n.value.live.config == p.live.config <==>
                file.panel == p.storePath || EditsIn(file, NextStore(rules, h)) == EditsIn(file, LiveStore(h)))
  {
    RunKeepsStore(rules, disk, events);
    var h := Play(rules, Fresh(disk), events);
    if FileOf(rules, h).panel == h.world.process.value.storePath { RestartInPlace(rules, h); }
  }

  /**
   * After every run, whether the text the process holds was accepted or not, restarting on it reproduces
   * the live configuration if and only if it parses, says the same outside the panel's fields as the text
   * last accepted, and the edits are the same: those of the store a new process uses, laid over this text,
   * and those of the store in use, laid over the accepted one. A store that stays in place is used exactly
   * when it was saved while the process held this text and still passes.
   */
  lemma RestartOnAnyText(rules: Rules, disk: map<string, Slot>, events: seq<Event>)
    requires Lawful(rules) && Play(rules, Fresh(disk), events).world.process.Some?
    ensures var h := Play(rules, Fresh(disk), events);
            var p := h.world.process.value;
            var n := StartTo(rules, h.world, p.fileRaw, true).process;
            && (n.Some? && n.value.live.config == p.live.config <==>
                rules.parse(p.fileRaw).Some?
                && var file := rules.parse(p.fileRaw).value;
                   file.panel == h.based.panel && file.fixed == h.based.fixed
                   && EditsIn(file, NextStore(rules, h)) == EditsIn(h.based, LiveStore(h)))
            && (rules.parse(p.fileRaw).Some? && LiveStore(h).Some?
                && rules.parse(p.fileRaw).value.panel == p.storePath ==>
                  NextStore(rules, h) == if LiveStore(h).value.base == p.fileRaw
                                            && rules.check(Overlaid(rules.parse(p.fileRaw).value, LiveStore(h).value))
                                         then LiveStore(h) else None)
  {
    RunKeepsStore(rules, disk, events);
  }

  /** Starting a process starts its publications. */
  lemma StartPublishes(rules: Rules, h: History, raw: string)
    requires Lawful(rules) && rules.parse(raw).Some?
    ensures var n := Advance(rules, h, Restarted(raw, true));
            && Sound(rules, n) && n.world.process.Some? && n.world.process.value.live.revision == 0
            && n.published == [n.world.process.value.live.config]
  {
  }

  /**
   * After any run, restarts included, a page is taken exactly when a panel is there, the page carries the
   * revision of the present process, its text passes and the writes succeed; it then edits what this
   * process published under that revision.
   */
  lemma PageIsTaken(rules: Rules, disk: map<string, Slot>, events: seq<Event>, edit: Edit, writes: bool, applies: bool)
    requires Lawful(rules)
    ensures var now := Play(rules, Fresh(disk), events);
            var (w, r) := SaveTo(rules, now.world, edit, writes, applies);
            && (r.Published? <==>
                && now.world.process.Some? && now.world.process.value.storePath.Some?
                && edit.revision + 1 == |now.published|
                && rules.check(Edited(now.published[edit.revision], edit)) && writes && applies)
            && (r.Published? ==>
                w.process.value.live == Live(Edited(now.published[edit.revision], edit), edit.revision + 1, true))
  {
    RunKeepsStore(rules, disk, events);
  }

  /**
   * Revisions start over with the process. A page loaded in one process and sent to the next, whatever
   * happened before and since the restart, is taken exactly when its revision is the number of
   * publications since the restart; that publication is what it edits. With none since, it edits what the
   * restart brought up, which after a restart in place is what was live before it: the configuration the
   * page showed if and only if that was still the live one.
   */
  lemma RestartForgetsRevisions(rules: Rules, h: History, before: seq<Event>, raw: string, after: seq<Event>,
                                edit: Edit, writes: bool, applies: bool)
    requires Lawful(rules) && Sound(rules, h) && h.world.process.Some? && SameProcess(before) && SameProcess(after)
    requires edit.revision == h.world.process.value.live.revision && rules.parse(raw).Some?
    ensures var shown := h.world.process.value.live.config;
            var last := Play(rules, h, before);
            var up := Advance(rules, last, Restarted(raw, true));
            var now := Play(rules, up, after);
            var (w, r) := SaveTo(rules, now.world, edit, writes, applies);
            && now.world.process.Some? && last.world.process.Some? && up.world.process.Some?
            && (r.Published? <==>
                && now.world.process.value.storePath.Some? && edit.revision + 1 == |now.published|
                && rules.check(Edited(now.published[edit.revision], edit)) && writes && applies)
            && (r.Published? ==> w.process.value.live.config == Edited(now.published[edit.revision], edit))
            && |now.published| > 0 && now.published[0] == up.world.process.value.live.config
            && (HoldsFile(rules, last) && raw == last.world.process.value.fileRaw
                && FileOf(rules, last).panel == last.world.process.value.storePath ==>
                  (now.published[0] == shown <==> last.world.process.value.live.config == shown))
  {
    RevisionsGrow(rules, h, before);
    var last := Play(rules, h, before);
    StartPublishes(rules, last, raw);
    RevisionsGrow(rules, Advance(rules, last, Restarted(raw, true)), after);
    if HoldsFile(rules, last) && FileOf(rules, last).panel == last.world.process.value.storePath {
      RestartInPlace(rules, last);
    }
  }

  /** Two file texts that differ in where the panel keeps its edits; every configuration passes. */
  function TwoTexts(file: Document, here: string, there: string): Rules {
    Rules((raw: string) => Some(file.(panel := Some(if raw == "first" then here else there))), (d: Document) => true)
  }

  function Opened(file: Document, here: string, there: string): History {
    Advance(TwoTexts(file, here, there), Fresh(map[]), Restarted("first", true))
  }

  /** Start, save, restart: the page loaded before the save is then published over it. */
  lemma StalePageExample(file: Document, here: string, first: Edit, stale: Edit)
    requires first.revision == 0 && stale.revision == 0
    ensures var rules := TwoTexts(file, here, here);
            var h := Opened(file, here, here);
            var saved := Advance(rules, h, EditSent(first, true, true));
            var again := Advance(rules, saved, Restarted("first", true));
            && h.world.process.Some? && h.world.process.value.live.config == file.(panel := Some(here))
            && SaveTo(rules, saved.world, stale, true, true).1 == Conflict
            && SaveTo(rules, again.world, stale, true, true).1 == Published(1)
            && again.world.process.value.live.config == Edited(file.(panel := Some(here)), first)
  {
  }

  /** Start, reload a text that moves the store, save, restart: the saved edit is gone. */
  lemma MovedStoreExample(file: Document, here: string, there: string, edit: Edit)
    requires here != there && edit.revision == 1 && edit.users != file.users
    ensures var rules := TwoTexts(file, here, there);
            var moved := Advance(rules, Opened(file, here, there), FileChanged("second", true));
            var saved := Advance(rules, moved, EditSent(edit, true, true));
            var again := Advance(rules, saved, Restarted("second", true));
            && saved.accepted && saved.world.process.Some? && again.world.process.Some?
            && saved.world.process.value.live.config.users == edit.users
            && again.world.process.value.live.config.users == file.users
  {
  }

  /** Start, save, a reload that is refused, restart on its text: the edit was made on another text and goes. */
  lemma RefusedTextExample(file: Document, here: string, edit: Edit)
    requires edit.revision == 0 && edit.users != file.users
    ensures var rules := TwoTexts(file, here, here);
            var saved := Advance(rules, Opened(file, here, here), EditSent(edit, true, true));
            var refused := Advance(rules, saved, FileChanged("second", false));
            var again := Advance(rules, refused, Restarted("second", true));
            && refused.world.process.Some? && !refused.accepted && again.world.process.Some?
            && refused.world.process.value.live.config.users == edit.users
            && again.world.process.value.live.config.users == file.users
  {
  }

  /** An old store at the new path: the panel never saved, and a restart brings back other users. */
  lemma LeftoverStoreExample(file: Document, here: string, there: string, past: Store)
    requires here != there && past.base == "second" && past.users != file.users
    ensures var rules := TwoTexts(file, here, there);
            var up := Advance(rules, Fresh(map[there := Loadable(past)]), Restarted("first", true));
            var moved := Advance(rules, up, FileChanged("second", true));
            var again := Advance(rules, moved, Restarted("second", true));
            && moved.accepted && moved.world.process.Some? && !moved.world.process.value.live.fromPanel
            && moved.world.process.value.live.config.users == file.users
            && again.world.process.Some? && again.world.process.value.live.config.users == past.users
  {
  }
}
