/** Applying a configuration to a running system: all of it or nothing. */
module Runtime {
  import opened Options
  import opened Sums
  import opened Config
  import Q = Quota
  import QR = QuotaRuns

  datatype Wire = TcpWire | UdpWire

  datatype Bind = Bind(wire: Wire, listen: string)

  /** A running rule: its target pool and the sockets it serves, by identity. */
  datatype Running = Running(pool: nat, tcp: Option<nat>, udp: Option<nat>)

  datatype Prepared = Prepared(spec: Spec, tcp: Option<nat>, udp: Option<nat>)

  type Rules = map<Spec, Running>

  type Key = (string, Protocol)

  predicate Uses(s: Spec, w: Wire) {
    if w.TcpWire? then s.protocol.UsesTcp() else s.protocol.UsesUdp()
  }

  predicate Overlap(s: Spec, t: Spec) {
    s.listen == t.listen
    && ((s.protocol.UsesTcp() && t.protocol.UsesTcp()) || (s.protocol.UsesUdp() && t.protocol.UsesUdp()))
  }

  /** Every rule serves what its protocol asks for, and no two serve the same address and protocol. */
  predicate RulesOk(rules: Rules) {
    && (forall s | s in rules ::
          && (rules[s].tcp.Some? <==> s.protocol.UsesTcp())
          && (rules[s].udp.Some? <==> s.protocol.UsesUdp()))
    && (forall s, t | s in rules && t in rules && s != t :: !Overlap(s, t))
  }

  ghost predicate Held(rules: Rules, b: Bind) {
    exists s | s in rules :: s.listen == b.listen && Uses(s, b.wire)
  }

  // ---------------------------------------------------------------- which binds are made

  function Listens(specs: seq<Spec>): set<string> {
    set s | s in specs :: s.listen
  }

  function Added(rules: Rules, specs: seq<Spec>): seq<Spec> {
    if |specs| == 0 then []
    else
      var s := specs[|specs| - 1];
      Added(rules, specs[..|specs| - 1]) + if s in rules then [] else [s]
  }

  function BindsFor(s: Spec, tcp: set<string>, udp: set<string>): seq<Bind> {
    (if s.protocol.UsesTcp() && s.listen !in tcp then [Bind(TcpWire, s.listen)] else [])
    + (if s.protocol.UsesUdp() && s.listen !in udp then [Bind(UdpWire, s.listen)] else [])
  }

  /** A new rule takes the spare sockets of its address off the list, whether it uses them or not. */
  function BindsOf(added: seq<Spec>, tcp: set<string>, udp: set<string>): seq<Bind> {
    if |added| == 0 then []
    else
      var before := added[..|added| - 1];
      BindsOf(before, tcp, udp)
      + BindsFor(added[|added| - 1], tcp - Listens(before), udp - Listens(before))
  }

  function Spares(rules: Rules, specs: seq<Spec>, w: Wire): set<string> {
    set s | s in rules && s !in specs && Uses(s, w) :: s.listen
  }

  lemma {:induction false} AddedAre(rules: Rules, specs: seq<Spec>, s: Spec)
    ensures s in Added(rules, specs) <==> s in specs && s !in rules
  {
    if |specs| > 0 {
      AddedAre(rules, specs[..|specs| - 1], s);
      assert specs == specs[..|specs| - 1] + [specs[|specs| - 1]];
    }
  }

  /** An address a new rule needs is free or on the spare list of a rule that goes away. */
  lemma HeldMeansSpare(rules: Rules, specs: seq<Spec>, s: Spec, w: Wire)
    requires RulesOk(rules) && Separate(specs) && s in specs && s !in rules && Uses(s, w)
    ensures Held(rules, Bind(w, s.listen)) <==> s.listen in Spares(rules, specs, w)
  {
    if Held(rules, Bind(w, s.listen)) {
      var o :| o in rules && o.listen == s.listen && Uses(o, w);
      assert o !in specs;
    }
  }

  /** The binds made for the `j`-th new rule. */
  function BindsAt(added: seq<Spec>, tcp: set<string>, udp: set<string>, j: nat): seq<Bind>
    requires j < |added|
  {
    BindsFor(added[j], tcp - Listens(added[..j]), udp - Listens(added[..j]))
  }

  lemma {:induction false} BindsListed(added: seq<Spec>, tcp: set<string>, udp: set<string>, b: Bind)
    ensures b in BindsOf(added, tcp, udp) <==> exists j | 0 <= j < |added| :: b in BindsAt(added, tcp, udp, j)
  {
    var n := |added| - 1;
    if n >= 0 {
      var before := added[..n];
      BindsListed(before, tcp, udp, b);
      assert forall j | 0 <= j < n :: before[..j] == added[..j];
      assert BindsOf(added, tcp, udp) == BindsOf(before, tcp, udp) + BindsAt(added, tcp, udp, n);
      if b in BindsOf(before, tcp, udp) {
        var j :| 0 <= j < n && b in BindsAt(before, tcp, udp, j);
        assert b in BindsAt(added, tcp, udp, j);
      }
      if exists j | 0 <= j < |added| :: b in BindsAt(added, tcp, udp, j) {
        var j :| 0 <= j < |added| && b in BindsAt(added, tcp, udp, j);
        if j < n { assert b in BindsAt(before, tcp, udp, j); }
      }
    }
  }

  /**
   An address that the runtime already holds is bound again exactly when an earlier new rule has the
   same address and so took the spare socket off the list.
   */
  lemma RebindsExactly(rules: Rules, specs: seq<Spec>, j: nat, w: Wire)
    requires RulesOk(rules) && Separate(specs) && j < |Added(rules, specs)| && Uses(Added(rules, specs)[j], w)
    requires Held(rules, Bind(w, Added(rules, specs)[j].listen))
    ensures var added := Added(rules, specs);
      Bind(w, added[j].listen) in BindsAt(added, Spares(rules, specs, TcpWire), Spares(rules, specs, UdpWire), j)
      <==> exists i | 0 <= i < j :: added[i].listen == added[j].listen
  {
    var added := Added(rules, specs);
    AddedAre(rules, specs, added[j]);
    assert added[j] in added;
    HeldMeansSpare(rules, specs, added[j], w);
    var taken := Listens(added[..j]);
    assert added[j].listen in taken <==> exists i | 0 <= i < j :: added[i].listen == added[j].listen by {
      if exists i | 0 <= i < j :: added[i].listen == added[j].listen {
        var i :| 0 <= i < j && added[i].listen == added[j].listen;
        assert added[..j][i] in added[..j];
      }
    }
  }

  /** When no two new rules share an address, a reload never binds an address it already holds. */
  lemma NeverRebinds(rules: Rules, specs: seq<Spec>, b: Bind)
    requires RulesOk(rules) && Separate(specs)
    requires forall i, j | 0 <= i < j < |Added(rules, specs)| ::
               Added(rules, specs)[i].listen != Added(rules, specs)[j].listen
    requires b in AllBinds(rules, specs)
    ensures !Held(rules, b)
  {
    var added := Added(rules, specs);
    var tcp, udp := Spares(rules, specs, TcpWire), Spares(rules, specs, UdpWire);
    BindsListed(added, tcp, udp, b);
    var j :| 0 <= j < |added| && b in BindsAt(added, tcp, udp, j);
    if Held(rules, b) { RebindsExactly(rules, specs, j, b.wire); }
  }

  lemma TwoAdded(rules: Rules, first: Spec, second: Spec)
    requires first !in rules && second !in rules
    ensures Added(rules, [first, second]) == [first, second]
  {
    var specs, one := [first, second], [first];
    assert specs[..1] == one && one[..0] == [];
    assert Added(rules, one) == [first];
  }

  /** Splitting a rule for both protocols in two, UDP first, makes the reload bind a held TCP address. */
  lemma SplitRuleRebinds(rules: Rules, both: Spec, running: Running, udpOnly: Spec, tcpOnly: Spec)
    requires both.protocol == Both && rules == map[both := running] && running.tcp.Some? && running.udp.Some?
    requires udpOnly == both.(protocol := Udp) && tcpOnly == both.(protocol := Tcp)
    ensures RulesOk(rules) && Separate([udpOnly, tcpOnly])
    ensures Held(rules, Bind(TcpWire, both.listen))
    ensures var specs := [udpOnly, tcpOnly];
      Added(rules, specs) == specs
      && Bind(TcpWire, both.listen)
         in BindsAt(Added(rules, specs), Spares(rules, specs, TcpWire), Spares(rules, specs, UdpWire), 1)
  {
    var specs := [udpOnly, tcpOnly];
    TwoAdded(rules, udpOnly, tcpOnly);
    assert both in rules && Uses(both, TcpWire);
    RebindsExactly(rules, specs, 1, TcpWire);
  }

  // ---------------------------------------------------------------- quotas

  /** The limit a user gets: the ledger's when remote accounting is on, else the configured one. */
  function WantedLimit(c: Config, u: User, remote: Option<map<string, nat>>, q: Q.State): Option<nat> {
    if remote.Some? then Some(if u.name in remote.value then remote.value[u.name] else Q.Used(q))
    else QuotaFor(c, u)
  }

  function Limited(q: Q.State, limit: Option<nat>): Q.State {
    if Q.LimitOf(q) != limit then Q.SetLimit(q, limit) else q
  }

  function NextQuota(c: Config, u: User, current: Option<Q.State>, saved: Q.Saved, hour: int,
                     remote: Option<map<string, nat>>): Q.State
  {
    var q := match current
             case Some(q) => if q.metering != c.metering then Q.SetMetering(q, c.metering) else q
             case None => Q.Restore(saved, QuotaFor(c, u), c.metering, hour);
    Limited(q, WantedLimit(c, u, remote, q))
  }

  /** A reload leaves every quota exact, under the new rule and the wanted limit. */
  lemma ReloadedQuota(c: Config, u: User, current: Option<Q.State>, saved: Q.Saved, hour: int,
                      remote: Option<map<string, nat>>)
    requires match current
             case Some(q) => Q.Exact(q) && QR.Covered(q.saved) && QR.Carried(q.saved) < Q.NO_LIMIT
             case None => QR.Covered(saved) && QR.Carried(saved) < Q.NO_LIMIT
    ensures var q := NextQuota(c, u, current, saved, hour, remote);
      && Q.Exact(q) && q.metering == c.metering
      && (current.Some? ==> q.saved == current.value.saved)
      && var wanted := WantedLimit(c, u, remote, q);
         Q.LimitOf(q) == if wanted == Some(Q.NO_LIMIT) then None else wanted
  {
  }

  // ---------------------------------------------------------------- preparing sockets

  predicate PreparedOk(p: Prepared, s: Spec) {
    p.spec == s && (p.tcp.Some? <==> s.protocol.UsesTcp()) && (p.udp.Some? <==> s.protocol.UsesUdp())
  }

  /** Sockets for one new rule: a spare of the same address, or a new one. */
  method PrepareOne(s: Spec, tcp: map<string, nat>, udp: map<string, nat>, canBind: Bind -> bool, next: nat)
    returns (ok: bool, p: Prepared, binds: seq<Bind>)
    ensures binds <= BindsFor(s, tcp.Keys, udp.Keys)
    ensures ok ==> binds == BindsFor(s, tcp.Keys, udp.Keys) && PreparedOk(p, s) && AllBindable(binds, canBind)
    ensures ok ==> HandedTo(p, s, tcp, udp) && Sourced(p, s, tcp, udp, next)
    ensures !ok ==> |binds| > 0 && !canBind(binds[|binds| - 1])
  {
    binds, p := [], Prepared(s, None, None);
    if s.protocol.UsesTcp() {
      if s.listen in tcp {
        p := p.(tcp := Some(tcp[s.listen]));
      } else {
        binds := [Bind(TcpWire, s.listen)];
        if !canBind(binds[0]) { return false, p, binds; }
        p := p.(tcp := Some(next));
      }
    }
    if s.protocol.UsesUdp() {
      if s.listen in udp {
        p := p.(udp := Some(udp[s.listen]));
      } else {
        binds := binds + [Bind(UdpWire, s.listen)];
        if !canBind(binds[|binds| - 1]) { return false, p, binds; }
        p := p.(udp := Some(next + 1));
      }
    }
    ok := true;
  }

  ghost predicate AllBindable(binds: seq<Bind>, canBind: Bind -> bool) {
    forall b | b in binds :: canBind(b)
  }

  predicate AllPrepared(prepared: seq<Prepared>, added: seq<Spec>) {
    |prepared| == |added| && forall k | 0 <= k < |prepared| :: PreparedOk(prepared[k], added[k])
  }

  /** Sockets for every new rule in turn; the first bind that fails ends it. */
  method Prepare(added: seq<Spec>, spareTcp: map<string, nat>, spareUdp: map<string, nat>,
                 canBind: Bind -> bool, first: nat)
    returns (ok: bool, prepared: seq<Prepared>, binds: seq<Bind>, next: nat)
    ensures binds <= BindsOf(added, spareTcp.Keys, spareUdp.Keys)
    ensures ok ==> binds == BindsOf(added, spareTcp.Keys, spareUdp.Keys) && AllPrepared(prepared, added)
    ensures ok ==> Handed(prepared, added, spareTcp, spareUdp) && AllBindable(binds, canBind)
    ensures ok ==> AllSourced(prepared, added, spareTcp, spareUdp, first) && next == first + 2 * |added|
    ensures !ok ==> |binds| > 0 && !canBind(binds[|binds| - 1])
  {
    var tcp, udp := spareTcp, spareUdp;
    prepared, binds, next := [], [], first;
    assert Progress(added, 0, spareTcp, spareUdp, tcp, udp, prepared, binds) by {
      assert spareTcp == spareTcp - Listens([]) && spareUdp == spareUdp - Listens([]);
    }
    for i := 0 to |added|
      invariant Progress(added, i, spareTcp, spareUdp, tcp, udp, prepared, binds)
      invariant Handed(prepared, added, spareTcp, spareUdp)
      invariant AllSourced(prepared, added, spareTcp, spareUdp, first) && next == first + 2 * i
      invariant AllBindable(binds, canBind)
    {
      var p, more;
      ok, p, more := PrepareOne(added[i], tcp, udp, canBind, next);
      next := next + 2;
      if !ok {
        Stopped(added, i, spareTcp, spareUdp, tcp, udp, prepared, binds, more);
        return false, prepared, binds + more, next;
      }
      Progresses(added, i, spareTcp, spareUdp, tcp, udp, prepared, binds, p, more);
      HandedNext(prepared, added, spareTcp, spareUdp, p);
      SourcedNext(prepared, added, spareTcp, spareUdp, first, p);
      tcp, udp := tcp - {added[i].listen}, udp - {added[i].listen};
      prepared, binds := prepared + [p], binds + more;
    }
    assert added[..|added|] == added;
    ok := true;
  }

  /** A new rule takes over the spare sockets of its address that it can use. */
  predicate HandedTo(p: Prepared, s: Spec, tcp: map<string, nat>, udp: map<string, nat>) {
    && (s.protocol.UsesTcp() && s.listen in tcp ==> p.tcp == Some(tcp[s.listen]))
    && (s.protocol.UsesUdp() && s.listen in udp ==> p.udp == Some(udp[s.listen]))
  }

  predicate HandedAt(prepared: seq<Prepared>, added: seq<Spec>, tcp: map<string, nat>, udp: map<string, nat>,
                     k: nat)
    requires k < |prepared| <= |added|
  {
    HandedTo(prepared[k], added[k], tcp - Listens(added[..k]), udp - Listens(added[..k]))
  }

  predicate Handed(prepared: seq<Prepared>, added: seq<Spec>, tcp: map<string, nat>, udp: map<string, nat>) {
    |prepared| <= |added| && forall k | 0 <= k < |prepared| :: HandedAt(prepared, added, tcp, udp, k)
  }

  lemma HandedNext(prepared: seq<Prepared>, added: seq<Spec>, tcp: map<string, nat>, udp: map<string, nat>,
                   p: Prepared)
    requires |prepared| < |added| && Handed(prepared, added, tcp, udp)
    requires var n := |prepared|; HandedTo(p, added[n], tcp - Listens(added[..n]), udp - Listens(added[..n]))
    ensures Handed(prepared + [p], added, tcp, udp)
  {
    forall k | 0 <= k < |prepared| ensures HandedAt(prepared + [p], added, tcp, udp, k) {
      assert HandedAt(prepared, added, tcp, udp, k);
    }
  }

  /** The sockets of a prepared rule are spare ones of its address or numbered `id` and `id + 1`. */
  predicate Sourced(p: Prepared, s: Spec, tcp: map<string, nat>, udp: map<string, nat>, id: nat) {
    && (p.tcp.Some? ==> p.tcp.value == id || (s.listen in tcp && p.tcp.value == tcp[s.listen]))
    && (p.udp.Some? ==> p.udp.value == id + 1 || (s.listen in udp && p.udp.value == udp[s.listen]))
  }

  predicate AllSourced(prepared: seq<Prepared>, added: seq<Spec>, tcp: map<string, nat>, udp: map<string, nat>,
                       first: nat)
  {
    |prepared| <= |added|
    && forall k | 0 <= k < |prepared| :: Sourced(prepared[k], added[k], tcp, udp, first + 2 * k)
  }

  lemma SourcedNext(prepared: seq<Prepared>, added: seq<Spec>, tcp: map<string, nat>, udp: map<string, nat>,
                    first: nat, p: Prepared)
    requires |prepared| < |added| && AllSourced(prepared, added, tcp, udp, first)
    requires var n := |prepared|;
      Sourced(p, added[n], tcp - Listens(added[..n]), udp - Listens(added[..n]), first + 2 * n)
    ensures AllSourced(prepared + [p], added, tcp, udp, first)
  {
    forall k | 0 <= k < |prepared| ensures Sourced((prepared + [p])[k], added[k], tcp, udp, first + 2 * k) {
      assert Sourced(prepared[k], added[k], tcp, udp, first + 2 * k);
    }
  }

  /** The first `i` new rules have their sockets. */
  predicate Progress(added: seq<Spec>, i: nat, spareTcp: map<string, nat>, spareUdp: map<string, nat>,
                     tcp: map<string, nat>, udp: map<string, nat>, prepared: seq<Prepared>, binds: seq<Bind>)
    requires i <= |added|
  {
    && tcp == spareTcp - Listens(added[..i]) && udp == spareUdp - Listens(added[..i])
    && binds == BindsOf(added[..i], spareTcp.Keys, spareUdp.Keys)
    && AllPrepared(prepared, added[..i])
  }

  lemma Progresses(added: seq<Spec>, i: nat, spareTcp: map<string, nat>, spareUdp: map<string, nat>,
                   tcp: map<string, nat>, udp: map<string, nat>, prepared: seq<Prepared>, binds: seq<Bind>,
                   p: Prepared, more: seq<Bind>)
    requires i < |added| && Progress(added, i, spareTcp, spareUdp, tcp, udp, prepared, binds)
    requires more == BindsFor(added[i], tcp.Keys, udp.Keys) && PreparedOk(p, added[i])
    ensures Progress(added, i + 1, spareTcp, spareUdp, tcp - {added[i].listen}, udp - {added[i].listen},
                     prepared + [p], binds + more)
  {
    assert added[..i + 1] == added[..i] + [added[i]];
    BindsStep(added[..i], added[i], spareTcp, spareUdp);
    ListensGrow(added[..i], added[i], spareTcp, spareUdp);
  }

  lemma Stopped(added: seq<Spec>, i: nat, spareTcp: map<string, nat>, spareUdp: map<string, nat>,
                tcp: map<string, nat>, udp: map<string, nat>, prepared: seq<Prepared>, binds: seq<Bind>,
                more: seq<Bind>)
    requires i < |added| && Progress(added, i, spareTcp, spareUdp, tcp, udp, prepared, binds)
    requires more <= BindsFor(added[i], tcp.Keys, udp.Keys)
    ensures binds + more <= BindsOf(added, spareTcp.Keys, spareUdp.Keys)
  {
    var rest := BindsFor(added[i], tcp.Keys, udp.Keys);
    BindsSoFar(added, i, spareTcp, spareUdp);
    PrefixOf(binds, more, rest, BindsOf(added, spareTcp.Keys, spareUdp.Keys));
  }

  lemma BindsSoFar(added: seq<Spec>, i: nat, tcp: map<string, nat>, udp: map<string, nat>)
    requires i < |added|
    ensures BindsOf(added[..i], tcp.Keys, udp.Keys)
            + BindsFor(added[i], (tcp - Listens(added[..i])).Keys, (udp - Listens(added[..i])).Keys)
         <= BindsOf(added, tcp.Keys, udp.Keys)
  {
    BindsGrow(added, i + 1, tcp.Keys, udp.Keys);
    BindsUpTo(added, i, tcp, udp);
  }

  lemma BindsUpTo(added: seq<Spec>, i: nat, tcp: map<string, nat>, udp: map<string, nat>)
    requires i < |added|
    ensures BindsOf(added[..i + 1], tcp.Keys, udp.Keys)
         == BindsOf(added[..i], tcp.Keys, udp.Keys)
            + BindsFor(added[i], (tcp - Listens(added[..i])).Keys, (udp - Listens(added[..i])).Keys)
  {
    assert added[..i + 1] == added[..i] + [added[i]];
    BindsStep(added[..i], added[i], tcp, udp);
  }

  lemma PrefixOf(done: seq<Bind>, more: seq<Bind>, rest: seq<Bind>, all: seq<Bind>)
    requires more <= rest && done + rest <= all
    ensures done + more <= all
  {
    assert done + more <= done + rest;
  }

  lemma BindsStep(before: seq<Spec>, s: Spec, tcp: map<string, nat>, udp: map<string, nat>)
    ensures BindsOf(before + [s], tcp.Keys, udp.Keys)
         == BindsOf(before, tcp.Keys, udp.Keys)
            + BindsFor(s, (tcp - Listens(before)).Keys, (udp - Listens(before)).Keys)
  {
    assert (before + [s])[..|before|] == before;
    assert (tcp - Listens(before)).Keys == tcp.Keys - Listens(before);
    assert (udp - Listens(before)).Keys == udp.Keys - Listens(before);
  }

  lemma ListensGrow(before: seq<Spec>, s: Spec, tcp: map<string, nat>, udp: map<string, nat>)
    ensures tcp - Listens(before) - {s.listen} == tcp - Listens(before + [s])
    ensures udp - Listens(before) - {s.listen} == udp - Listens(before + [s])
  {
    assert Listens(before + [s]) == Listens(before) + {s.listen};
  }

  lemma {:induction false} BindsGrow(added: seq<Spec>, i: nat, tcp: set<string>, udp: set<string>)
    requires i <= |added|
    ensures BindsOf(added[..i], tcp, udp) <= BindsOf(added, tcp, udp)
    decreases |added| - i
  {
    if i == |added| {
      assert added[..i] == added;
    } else {
      BindsGrow(added, i + 1, tcp, udp);
      assert added[..i + 1][..i] == added[..i];
    }
  }

  /** The sockets of the rules that go away, by address. */
  method Spare(rules: Rules, specs: seq<Spec>, w: Wire) returns (spare: map<string, nat>)
    requires RulesOk(rules)
    ensures SparesOf(rules, specs, w, spare)
  {
    spare := map s | s in rules && s !in specs && Uses(s, w) ::
      s.listen := if w.TcpWire? then rules[s].tcp.value else rules[s].udp.value;
  }

  /** The running rules once the new ones are started, each with a target pool of its own. */
  function Started(rules: Rules, prepared: seq<Prepared>, pool: nat): Rules {
    if |prepared| == 0 then rules
    else
      var n := |prepared| - 1;
      var p := prepared[n];
      Started(rules, prepared[..n], pool)[p.spec := Running(pool + n, p.tcp, p.udp)]
  }

  lemma {:induction false} StartedAt(rules: Rules, prepared: seq<Prepared>, pool: nat, s: Spec)
    ensures s in Started(rules, prepared, pool) <==>
              s in rules || exists k | 0 <= k < |prepared| :: prepared[k].spec == s
    ensures s in Started(rules, prepared, pool) && (forall k | 0 <= k < |prepared| :: prepared[k].spec != s) ==>
              Started(rules, prepared, pool)[s] == rules[s]
    ensures s in Started(rules, prepared, pool) && s !in rules
            && (forall k | 0 <= k < |prepared| :: PreparedOk(prepared[k], prepared[k].spec)) ==>
              var r := Started(rules, prepared, pool)[s];
              (r.tcp.Some? <==> s.protocol.UsesTcp()) && (r.udp.Some? <==> s.protocol.UsesUdp())
  {
    var n := |prepared| - 1;
    if n >= 0 {
      StartedAt(rules, prepared[..n], pool, s);
      assert forall k | 0 <= k < n :: prepared[..n][k] == prepared[k];
    }
  }

  lemma {:induction false} StartedTakes(rules: Rules, prepared: seq<Prepared>, pool: nat, k: nat)
    requires k < |prepared|
    requires forall i, j | 0 <= i < j < |prepared| :: prepared[i].spec != prepared[j].spec
    ensures var now := Started(rules, prepared, pool);
      var p := prepared[k];
      p.spec in now && now[p.spec] == Running(pool + k, p.tcp, p.udp)
  {
    var n := |prepared| - 1;
    if k < n { StartedTakes(rules, prepared[..n], pool, k); }
  }

  lemma {:induction false} AddedOnce(rules: Rules, specs: seq<Spec>)
    requires Separate(specs)
    ensures Distinct(Added(rules, specs))
  {
    var n := |specs| - 1;
    if n >= 0 {
      AddedOnce(rules, specs[..n]);
      AddedAre(rules, specs[..n], specs[n]);
    }
  }

  /**
   A new rule serves the very socket of the rule it replaces at its address, unless an earlier new rule
   of that address was in line for it.
   */
  ghost predicate HandedOver(was: Rules, now: Rules, specs: seq<Spec>) {
    var added := Added(was, specs);
    forall k, s | 0 <= k < |added| && s in was && s !in specs ::
      TakesOver(was, now, added, k, s)
  }

  predicate TakesOver(was: Rules, now: Rules, added: seq<Spec>, k: nat, s: Spec)
    requires k < |added| && s in was
  {
    var heir := added[k];
    s.listen == heir.listen && heir.listen !in Listens(added[..k]) ==>
      && heir in now
      && (s.protocol.UsesTcp() && heir.protocol.UsesTcp() ==> now[heir].tcp == was[s].tcp)
      && (s.protocol.UsesUdp() && heir.protocol.UsesUdp() ==> now[heir].udp == was[s].udp)
  }

  /** The spare sockets of one protocol are those of the rules that go away. */
  predicate SparesOf(rules: Rules, specs: seq<Spec>, w: Wire, spare: map<string, nat>)
    requires RulesOk(rules)
  {
    && spare.Keys == Spares(rules, specs, w)
    && forall s | s in rules && s !in specs && Uses(s, w) ::
         s.listen in spare && spare[s.listen] == (if w.TcpWire? then rules[s].tcp.value else rules[s].udp.value)
  }

  lemma SocketsHandedOver(rules: Rules, specs: seq<Spec>, tcp: map<string, nat>, udp: map<string, nat>,
                          prepared: seq<Prepared>, pool: nat)
    requires RulesOk(rules) && Separate(specs)
    requires SparesOf(rules, specs, TcpWire, tcp) && SparesOf(rules, specs, UdpWire, udp)
    requires var added := Added(rules, specs); AllPrepared(prepared, added) && Handed(prepared, added, tcp, udp)
    ensures HandedOver(rules, Started(Kept(rules, specs), prepared, pool), specs)
  {
    var added, now := Added(rules, specs), Started(Kept(rules, specs), prepared, pool);
    AddedOnce(rules, specs);
    forall k, s | 0 <= k < |added| && s in rules && s !in specs ensures TakesOver(rules, now, added, k, s) {
      assert PreparedOk(prepared[k], added[k]) && HandedAt(prepared, added, tcp, udp, k);
      assert forall i | 0 <= i < |prepared| :: PreparedOk(prepared[i], added[i]);
      StartedTakes(Kept(rules, specs), prepared, pool, k);
    }
  }

  function Kept(rules: Rules, specs: seq<Spec>): Rules {
    map s | s in rules && s in specs :: rules[s]
  }

  /** Exactly the wanted rules run, and those that ran before were not touched. */
  ghost predicate Reloaded(was: Rules, now: Rules, specs: seq<Spec>) {
    && (forall s :: s in now <==> s in specs)
    && (forall s | s in was && s in specs :: now[s] == was[s])
  }

  function KeyOf(s: Spec): Key { (s.listen, s.protocol) }

  /** The published pools are those of the running rules, one key each. */
  ghost predicate Published(rules: Rules, pools: map<Key, nat>) {
    && (forall s | s in rules :: KeyOf(s) in pools && pools[KeyOf(s)] == rules[s].pool)
    && (forall s, t | s in rules && t in rules && s != t :: KeyOf(s) != KeyOf(t))
    && (forall k | k in pools :: exists s | s in rules :: k == KeyOf(s))
  }

  function AllBinds(rules: Rules, specs: seq<Spec>): seq<Bind> {
    BindsOf(Added(rules, specs), Spares(rules, specs, TcpWire), Spares(rules, specs, UdpWire))
  }

  /** What a successful reload leaves running. */
  lemma RulesAfter(rules: Rules, specs: seq<Spec>, prepared: seq<Prepared>, pool: nat)
    requires RulesOk(rules) && Separate(specs) && AllPrepared(prepared, Added(rules, specs))
    ensures var now := Started(Kept(rules, specs), prepared, pool); Reloaded(rules, now, specs) && RulesOk(now)
  {
    var kept := Kept(rules, specs);
    var now, added := Started(kept, prepared, pool), Added(rules, specs);
    forall s
      ensures s in now <==> s in specs
      ensures s in rules && s in specs ==> now[s] == rules[s]
      ensures s in now ==>
                (now[s].tcp.Some? <==> s.protocol.UsesTcp()) && (now[s].udp.Some? <==> s.protocol.UsesUdp())
    {
      StartedAt(kept, prepared, pool, s);
      AddedAre(rules, specs, s);
      if s in added {
        var k :| 0 <= k < |added| && added[k] == s;
        assert prepared[k].spec == s;
      }
      forall k | 0 <= k < |prepared| && prepared[k].spec == s ensures s in added {
        assert added[k] in added;
      }
    }
    forall s, t | s in now && t in now && s != t ensures !Overlap(s, t) { Apart(specs, s, t); }
  }

  lemma Apart(specs: seq<Spec>, s: Spec, t: Spec)
    requires Separate(specs) && s in specs && t in specs && s != t
    ensures !Overlap(s, t)
  {
    var i :| 0 <= i < |specs| && specs[i] == s;
    var j :| 0 <= j < |specs| && specs[j] == t;
  }

  // ---------------------------------------------------------------- nothing is shared

  predicate Below(r: Running, n: nat) {
    r.pool < n && (r.tcp.Some? ==> r.tcp.value < n) && (r.udp.Some? ==> r.udp.value < n)
  }

  predicate Apartness(a: Running, b: Running) {
    a.pool != b.pool && (a.tcp.Some? ==> a.tcp != b.tcp) && (a.udp.Some? ==> a.udp != b.udp)
  }

  /** Every pool and socket has a number below `n`, and no two rules share one. */
  predicate Unshared(rules: Rules, n: nat) {
    && (forall s | s in rules :: Below(rules[s], n))
    && (forall s, t | s in rules && t in rules && s != t :: Apartness(rules[s], rules[t]))
  }

  /** A new rule's sockets are fresh, or those of a rule of its address that goes away. */
  ghost predicate Origin(rules: Rules, specs: seq<Spec>, s: Spec, p: Prepared, id: nat) {
    && (p.tcp.Some? && p.tcp.value != id ==>
          exists o | o in rules && o !in specs :: o.listen == s.listen && rules[o].tcp == p.tcp)
    && (p.udp.Some? && p.udp.value != id + 1 ==>
          exists o | o in rules && o !in specs :: o.listen == s.listen && rules[o].udp == p.udp)
  }

  lemma SourceIsOrigin(rules: Rules, specs: seq<Spec>, tcp: map<string, nat>, udp: map<string, nat>, s: Spec,
                       p: Prepared, id: nat)
    requires RulesOk(rules) && SparesOf(rules, specs, TcpWire, tcp) && SparesOf(rules, specs, UdpWire, udp)
    requires Sourced(p, s, tcp, udp, id)
    ensures Origin(rules, specs, s, p, id)
  {
    if p.tcp.Some? && p.tcp.value != id {
      var o :| o in rules && o !in specs && Uses(o, TcpWire) && o.listen == s.listen;
      assert rules[o].tcp == p.tcp;
    }
    if p.udp.Some? && p.udp.value != id + 1 {
      var o :| o in rules && o !in specs && Uses(o, UdpWire) && o.listen == s.listen;
      assert rules[o].udp == p.udp;
    }
  }

  lemma KeptAndNew(rules: Rules, specs: seq<Spec>, first: nat, kept: Spec, s: Spec, p: Prepared, id: nat, pool: nat)
    requires Unshared(rules, first) && kept in rules && kept in specs && first <= id && first <= pool
    requires Origin(rules, specs, s, p, id)
    ensures Apartness(rules[kept], Running(pool, p.tcp, p.udp)) && Apartness(Running(pool, p.tcp, p.udp), rules[kept])
  {
    assert Below(rules[kept], first);
    if p.tcp.Some? && p.tcp.value != id {
      var o :| o in rules && o !in specs && o.listen == s.listen && rules[o].tcp == p.tcp;
      assert Apartness(rules[o], rules[kept]);
    }
    if p.udp.Some? && p.udp.value != id + 1 {
      var o :| o in rules && o !in specs && o.listen == s.listen && rules[o].udp == p.udp;
      assert Apartness(rules[o], rules[kept]);
    }
  }

  lemma NewSocketsApart(rules: Rules, specs: seq<Spec>, first: nat, s: Spec, p: Prepared, i: nat, t: Spec,
                        q: Prepared, j: nat)
    requires Unshared(rules, first) && !Overlap(s, t) && PreparedOk(p, s) && PreparedOk(q, t)
    requires first <= i && i + 2 <= j
    requires Origin(rules, specs, s, p, i) && Origin(rules, specs, t, q, j)
    ensures (p.tcp.Some? ==> p.tcp != q.tcp) && (p.udp.Some? ==> p.udp != q.udp)
  {
    if p.tcp.Some? && q.tcp.Some? && p.tcp.value != i && q.tcp.value != j {
      var o :| o in rules && o !in specs && o.listen == s.listen && rules[o].tcp == p.tcp;
      var r :| r in rules && r !in specs && r.listen == t.listen && rules[r].tcp == q.tcp;
      assert Apartness(rules[o], rules[r]);
    } else {
      assert forall o | o in rules :: Below(rules[o], first);
    }
    if p.udp.Some? && q.udp.Some? && p.udp.value != i + 1 && q.udp.value != j + 1 {
      var o :| o in rules && o !in specs && o.listen == s.listen && rules[o].udp == p.udp;
      var r :| r in rules && r !in specs && r.listen == t.listen && rules[r].udp == q.udp;
      assert Apartness(rules[o], rules[r]);
    } else {
      assert forall o | o in rules :: Below(rules[o], first);
    }
  }

  /** Where a rule that runs after a reload comes from. */
  ghost predicate KeptOrNew(rules: Rules, specs: seq<Spec>, prepared: seq<Prepared>, pool: nat, s: Spec, r: Running) {
    || (s in rules && s in specs && r == rules[s])
    || exists k | 0 <= k < |prepared| :: prepared[k].spec == s && r == Running(pool + k, prepared[k].tcp, prepared[k].udp)
  }

  lemma StartedFrom(rules: Rules, specs: seq<Spec>, prepared: seq<Prepared>, pool: nat, s: Spec)
    requires Separate(specs) && AllPrepared(prepared, Added(rules, specs))
    requires s in Started(Kept(rules, specs), prepared, pool)
    ensures KeptOrNew(rules, specs, prepared, pool, s, Started(Kept(rules, specs), prepared, pool)[s])
  {
    var kept, added := Kept(rules, specs), Added(rules, specs);
    StartedAt(kept, prepared, pool, s);
    if exists k | 0 <= k < |prepared| :: prepared[k].spec == s {
      var k :| 0 <= k < |prepared| && prepared[k].spec == s;
      AddedOnce(rules, specs);
      assert forall i | 0 <= i < |prepared| :: PreparedOk(prepared[i], added[i]);
      StartedTakes(kept, prepared, pool, k);
    }
  }

  /** What the sockets found for the new rules guarantee about them. */
  ghost predicate WellSourced(rules: Rules, specs: seq<Spec>, prepared: seq<Prepared>, first: nat) {
    AllPrepared(prepared, Added(rules, specs))
    && forall k | 0 <= k < |prepared| :: Origin(rules, specs, prepared[k].spec, prepared[k], first + 2 * k)
  }

  lemma OriginBelow(rules: Rules, specs: seq<Spec>, first: nat, s: Spec, p: Prepared, id: nat, n: nat)
    requires Unshared(rules, first) && Origin(rules, specs, s, p, id) && first <= n && id + 1 < n
    ensures (p.tcp.Some? ==> p.tcp.value < n) && (p.udp.Some? ==> p.udp.value < n)
  {
    assert forall o | o in rules :: Below(rules[o], first);
  }

  lemma NewApart(rules: Rules, specs: seq<Spec>, prepared: seq<Prepared>, first: nat, pool: nat, j: nat, k: nat)
    requires Unshared(rules, first) && Separate(specs) && WellSourced(rules, specs, prepared, first)
    requires j < |prepared| && k < |prepared| && j != k
    ensures Apartness(Running(pool + j, prepared[j].tcp, prepared[j].udp),
                      Running(pool + k, prepared[k].tcp, prepared[k].udp))
  {
    var added := Added(rules, specs);
    AddedOnce(rules, specs);
    assert PreparedOk(prepared[j], added[j]) && PreparedOk(prepared[k], added[k]);
    assert added[j] in added && added[k] in added;
    AddedAre(rules, specs, added[j]);
    AddedAre(rules, specs, added[k]);
    Apart(specs, added[j], added[k]);
    if j < k {
      NewSocketsApart(rules, specs, first, added[j], prepared[j], first + 2 * j, added[k], prepared[k], first + 2 * k);
    } else {
      NewSocketsApart(rules, specs, first, added[k], prepared[k], first + 2 * k, added[j], prepared[j], first + 2 * j);
    }
  }

  /** A reload keeps every pool and socket with one rule only. */
  lemma StaysUnshared(rules: Rules, specs: seq<Spec>, prepared: seq<Prepared>, first: nat, pool: nat, end: nat)
    requires Unshared(rules, first) && Separate(specs) && WellSourced(rules, specs, prepared, first)
    requires pool == first + 2 * |prepared| && end == pool + |prepared|
    ensures Unshared(Started(Kept(rules, specs), prepared, pool), end)
  {
    var now := Started(Kept(rules, specs), prepared, pool);
    forall s | s in now ensures KeptOrNew(rules, specs, prepared, pool, s, now[s]) {
      StartedFrom(rules, specs, prepared, pool, s);
    }
    forall s | s in now ensures Below(now[s], end) {
      StaysBelow(rules, specs, prepared, first, s, now[s]);
    }
    forall s, t | s in now && t in now && s != t ensures Apartness(now[s], now[t]) {
      PairApart(rules, specs, prepared, first, pool, s, now[s], t, now[t]);
    }
  }

  lemma StaysBelow(rules: Rules, specs: seq<Spec>, prepared: seq<Prepared>, first: nat, s: Spec, r: Running)
    requires Unshared(rules, first) && WellSourced(rules, specs, prepared, first)
    requires KeptOrNew(rules, specs, prepared, first + 2 * |prepared|, s, r)
    ensures Below(r, first + 2 * |prepared| + |prepared|)
  {
    var pool := first + 2 * |prepared|;
    if s in rules && s in specs && r == rules[s] {
      assert Below(rules[s], first);
    } else {
      var k :| 0 <= k < |prepared| && prepared[k].spec == s && r == Running(pool + k, prepared[k].tcp, prepared[k].udp);
      OriginBelow(rules, specs, first, s, prepared[k], first + 2 * k, pool + |prepared|);
    }
  }

  lemma PairApart(rules: Rules, specs: seq<Spec>, prepared: seq<Prepared>, first: nat, pool: nat, s: Spec, a: Running,
                  t: Spec, b: Running)
    requires Unshared(rules, first) && Separate(specs) && WellSourced(rules, specs, prepared, first)
    requires first <= pool && s != t
    requires KeptOrNew(rules, specs, prepared, pool, s, a) && KeptOrNew(rules, specs, prepared, pool, t, b)
    ensures Apartness(a, b)
  {
    if s in rules && s in specs && a == rules[s] {
      if !(t in rules && t in specs && b == rules[t]) {
        var k :| 0 <= k < |prepared| && prepared[k].spec == t && b == Running(pool + k, prepared[k].tcp, prepared[k].udp);
        KeptAndNew(rules, specs, first, s, t, prepared[k], first + 2 * k, pool + k);
      }
    } else {
      var j :| 0 <= j < |prepared| && prepared[j].spec == s && a == Running(pool + j, prepared[j].tcp, prepared[j].udp);
      if t in rules && t in specs && b == rules[t] {
        KeptAndNew(rules, specs, first, t, s, prepared[j], first + 2 * j, pool + j);
      } else {
        var k :| 0 <= k < |prepared| && prepared[k].spec == t && b == Running(pool + k, prepared[k].tcp, prepared[k].udp);
        NewApart(rules, specs, prepared, first, pool, j, k);
      }
    }
  }

  lemma PreparedSourced(rules: Rules, specs: seq<Spec>, tcp: map<string, nat>, udp: map<string, nat>,
                        prepared: seq<Prepared>, first: nat)
    requires RulesOk(rules) && SparesOf(rules, specs, TcpWire, tcp) && SparesOf(rules, specs, UdpWire, udp)
    requires AllPrepared(prepared, Added(rules, specs)) && AllSourced(prepared, Added(rules, specs), tcp, udp, first)
    ensures WellSourced(rules, specs, prepared, first)
  {
    var added := Added(rules, specs);
    forall k | 0 <= k < |prepared| ensures Origin(rules, specs, prepared[k].spec, prepared[k], first + 2 * k) {
      assert PreparedOk(prepared[k], added[k]);
      SourceIsOrigin(rules, specs, tcp, udp, added[k], prepared[k], first + 2 * k);
    }
  }

  /** The rules, users and pools that are live. */
  class LiveRuntime {
    var rules: Rules
    var users: seq<string>
    var quotas: map<string, Q.State>
    var pools: map<Key, nat>
    var nextId: nat

    /** Rules that do not overlap, each with a pool and sockets of its own. */
    predicate Valid()
      reads this
    {
      RulesOk(rules) && Unshared(rules, nextId)
    }

    constructor ()
      ensures rules == map[] && users == [] && quotas == map[] && pools == map[] && Valid()
    {
      rules, users, quotas, pools, nextId := map[], [], map[], map[], 0;
    }

    /**
     Applies a checked configuration. `canBind` says which binds succeed, `loads` whether the saved
     usage can be read when there are new users.
     */
    method Apply(c: Config, remote: Option<map<string, nat>>, canBind: Bind -> bool, loads: bool,
                 saved: map<string, Q.Saved>, hour: int)
      returns (ok: bool, binds: seq<Bind>)
      requires Valid() && Accepted(c)
      modifies this
      ensures Valid()
      ensures !ok ==> rules == old(rules) && users == old(users) && quotas == old(quotas) && pools == old(pools)
      ensures ok ==> Reloaded(old(rules), rules, SpecsOf(c.users)) && Published(rules, pools)
      ensures ok ==> HandedOver(old(rules), rules, SpecsOf(c.users))
      ensures ok ==> users == NamesOf(c.users) && QuotasFollow(old(quotas), c, remote, saved, hour, quotas)
      ensures ok ==> CountersKept(old(quotas), c, saved, hour, quotas) && LimitsSet(c, remote, quotas)
      ensures ok <==> && AllBindable(AllBinds(old(rules), SpecsOf(c.users)), canBind)
                      && (loads || forall u | u in c.users :: u.name in old(quotas))
      ensures binds <= AllBinds(old(rules), SpecsOf(c.users))
      ensures ok ==> binds == AllBinds(old(rules), SpecsOf(c.users))
    {
      var newUsers := exists u | u in c.users :: u.name !in quotas;
      var next := NextQuotas(quotas, c, remote, saved, hour);
      QuotasAreNext(quotas, c, remote, saved, hour);
      NextKeepsCounters(quotas, c, remote, saved, hour, next);
      ok, binds := Switch(SpecsOf(c.users), canBind, newUsers && !loads, NamesOf(c.users), next);
    }

    /** Binds first; anything changes only when nothing can fail any more. */
    method Switch(specs: seq<Spec>, canBind: Bind -> bool, blocked: bool, names: seq<string>,
                  next: map<string, Q.State>)
      returns (ok: bool, binds: seq<Bind>)
      requires Valid() && Separate(specs)
      modifies this
      ensures Valid()
      ensures !ok ==> rules == old(rules) && users == old(users) && quotas == old(quotas) && pools == old(pools)
      ensures ok ==> Reloaded(old(rules), rules, specs) && Published(rules, pools) && HandedOver(old(rules), rules, specs)
      ensures ok ==> users == names && quotas == next
      ensures ok <==> !blocked && AllBindable(AllBinds(old(rules), specs), canBind)
      ensures binds <= AllBinds(old(rules), specs)
      ensures ok ==> binds == AllBinds(old(rules), specs)
    {
      var prepared, id;
      ok, prepared, binds, id := Bound(specs, canBind);
      if !ok || blocked { return false, binds; }
      Replace(specs, prepared, id, names, next);
    }

    /** Finds a socket for every new rule: a spare one of a rule that goes away, or a fresh one. */
    method Bound(specs: seq<Spec>, canBind: Bind -> bool)
      returns (ok: bool, prepared: seq<Prepared>, binds: seq<Bind>, next: nat)
      requires RulesOk(rules)
      ensures binds <= AllBinds(rules, specs)
      ensures ok ==> binds == AllBinds(rules, specs) && AllPrepared(prepared, Added(rules, specs))
      ensures ok <==> AllBindable(AllBinds(rules, specs), canBind)
      ensures ok ==> WellSourced(rules, specs, prepared, nextId) && next == nextId + 2 * |prepared|
      ensures ok && Separate(specs) ==> HandedOver(rules, Started(Kept(rules, specs), prepared, next), specs)
    {
      var spareTcp := Spare(rules, specs, TcpWire);
      var spareUdp := Spare(rules, specs, UdpWire);
      ok, prepared, binds, next := Prepare(Added(rules, specs), spareTcp, spareUdp, canBind, nextId);
      if ok { PreparedSourced(rules, specs, spareTcp, spareUdp, prepared, nextId); }
      if ok && Separate(specs) { SocketsHandedOver(rules, specs, spareTcp, spareUdp, prepared, next); }
    }

    /** Stops the rules that go away, starts the new ones and publishes users and pools. */
    method Replace(specs: seq<Spec>, prepared: seq<Prepared>, id: nat, names: seq<string>, next: map<string, Q.State>)
      requires Valid() && Separate(specs) && WellSourced(rules, specs, prepared, nextId)
      requires id == nextId + 2 * |prepared|
      modifies this
      ensures Valid() && Reloaded(old(rules), rules, specs) && Published(rules, pools)
      ensures rules == Started(Kept(old(rules), specs), prepared, id) && users == names && quotas == next
    {
      var end := id + |prepared|;
      var now, published := StartRules(rules, specs, prepared, nextId, id, end);
      Publish(now, end, published, names, next);
    }

    method Publish(now: Rules, end: nat, published: map<Key, nat>, names: seq<string>, next: map<string, Q.State>)
      modifies this
      ensures rules == now && nextId == end && pools == published && users == names && quotas == next
    {
      rules, nextId, pools, users, quotas := now, end, published, names, next;
    }
  }

  /** Keeps the wanted rules, starts the prepared ones and lists everybody's pool. */
  method StartRules(rules: Rules, specs: seq<Spec>, prepared: seq<Prepared>, first: nat, pool: nat, end: nat)
    returns (now: Rules, pools: map<Key, nat>)
    requires RulesOk(rules) && Unshared(rules, first) && Separate(specs) && WellSourced(rules, specs, prepared, first)
    requires pool == first + 2 * |prepared| && end == pool + |prepared|
    ensures now == Started(Kept(rules, specs), prepared, pool) && RulesOk(now) && Unshared(now, end)
    ensures Reloaded(rules, now, specs) && Published(now, pools)
  {
    RulesAfter(rules, specs, prepared, pool);
    StaysUnshared(rules, specs, prepared, first, pool, end);
    now := Started(Kept(rules, specs), prepared, pool);
    pools := PoolsOf(now);
  }

  lemma KeysApart(s: Spec, t: Spec)
    requires !Overlap(s, t)
    ensures KeyOf(s) != KeyOf(t)
  {
  }

  function PoolsOf(rules: Rules): (pools: map<Key, nat>)
    requires RulesOk(rules)
    ensures Published(rules, pools)
  {
    assert forall s, t | s in rules && t in rules && s != t :: KeyOf(s) != KeyOf(t) by {
      forall s, t | s in rules && t in rules && s != t ensures KeyOf(s) != KeyOf(t) { KeysApart(s, t); }
    }
    map s | s in rules :: KeyOf(s) := rules[s].pool
  }

  function NextQuotas(current: map<string, Q.State>, c: Config, remote: Option<map<string, nat>>,
                      saved: map<string, Q.Saved>, hour: int): map<string, Q.State>
  {
    QuotasFor(current, c, c.users, remote, saved, hour)
  }

  function QuotasFor(current: map<string, Q.State>, c: Config, users: seq<User>, remote: Option<map<string, nat>>,
                     saved: map<string, Q.Saved>, hour: int): map<string, Q.State>
  {
    if |users| == 0 then map[]
    else
      var u := users[|users| - 1];
      QuotasFor(current, c, users[..|users| - 1], remote, saved, hour)
        [u.name := NextQuota(c, u, LiveQuota(current, u), UsageOf(saved, u), hour, remote)]
  }

  function LiveQuota(current: map<string, Q.State>, u: User): Option<Q.State> {
    if u.name in current then Some(current[u.name]) else None
  }

  function UsageOf(saved: map<string, Q.Saved>, u: User): Q.Saved {
    if u.name in saved then saved[u.name] else Q.Saved(0, 0, 0, 0, 0, 0)
  }

  /** Exactly the configured users have a quota, each the next one of its own. */
  ghost predicate QuotasFollow(current: map<string, Q.State>, c: Config, remote: Option<map<string, nat>>,
                               saved: map<string, Q.Saved>, hour: int, next: map<string, Q.State>)
  {
    && (forall name :: name in next <==> name in NamesOf(c.users))
    && (forall u | u in c.users ::
          u.name in next && next[u.name] == NextQuota(c, u, LiveQuota(current, u), UsageOf(saved, u), hour, remote))
  }

  lemma {:induction false} QuotasForNames(current: map<string, Q.State>, c: Config, users: seq<User>,
                                          remote: Option<map<string, nat>>, saved: map<string, Q.Saved>, hour: int,
                                          name: string)
    ensures name in QuotasFor(current, c, users, remote, saved, hour) <==> name in NamesOf(users)
  {
    var n := |users| - 1;
    if n >= 0 {
      QuotasForNames(current, c, users[..n], remote, saved, hour, name);
      assert NamesOf(users) == NamesOf(users[..n]) + [users[n].name];
    }
  }

  lemma {:induction false} QuotasForAt(current: map<string, Q.State>, c: Config, users: seq<User>,
                                       remote: Option<map<string, nat>>, saved: map<string, Q.Saved>, hour: int, k: nat)
    requires Distinct(NamesOf(users)) && k < |users|
    ensures var u := users[k];
      var next := QuotasFor(current, c, users, remote, saved, hour);
      u.name in next && next[u.name] == NextQuota(c, u, LiveQuota(current, u), UsageOf(saved, u), hour, remote)
  {
    var n := |users| - 1;
    if k < n {
      assert NamesOf(users[..n]) == NamesOf(users)[..n];
      QuotasForAt(current, c, users[..n], remote, saved, hour, k);
      assert NamesOf(users)[k] != NamesOf(users)[n];
    }
  }

  lemma QuotasAreNext(current: map<string, Q.State>, c: Config, remote: Option<map<string, nat>>,
                      saved: map<string, Q.Saved>, hour: int)
    requires Distinct(NamesOf(c.users))
    ensures QuotasFollow(current, c, remote, saved, hour, NextQuotas(current, c, remote, saved, hour))
  {
    forall name ensures name in NextQuotas(current, c, remote, saved, hour) <==> name in NamesOf(c.users) {
      QuotasForNames(current, c, c.users, remote, saved, hour, name);
    }
    forall u | u in c.users
      ensures u.name in NextQuotas(current, c, remote, saved, hour)
      ensures NextQuotas(current, c, remote, saved, hour)[u.name]
           == NextQuota(c, u, LiveQuota(current, u), UsageOf(saved, u), hour, remote)
    {
      var k :| 0 <= k < |c.users| && c.users[k] == u;
      QuotasForAt(current, c, c.users, remote, saved, hour, k);
    }
  }

  // ---------------------------------------------------------------- counters and limits of every user

  /** A user that runs on keeps its counters; a new one has those of its row, rolled to this hour, or none. */
  ghost predicate CountersKept(was: map<string, Q.State>, c: Config, saved: map<string, Q.Saved>, hour: int,
                               now: map<string, Q.State>)
  {
    forall u | u in c.users :: u.name in now && UserCounters(was, c, saved, hour, u.name, now[u.name])
  }

  predicate UserCounters(was: map<string, Q.State>, c: Config, saved: map<string, Q.Saved>, hour: int, name: string,
                         q: Q.State)
  {
    && q.metering == c.metering
    && (if name in was then q.saved == was[name].saved
        else if name in saved then
          && q.saved.upload == saved[name].upload && q.saved.download == saved[name].download
          && Q.Used(q) == Q.BilledBytes(saved[name], c.metering)
          && (if saved[name].hour == hour then q.saved == saved[name]
              else q.saved.hour == hour && q.saved.hourUp == 0 == q.saved.hourDown)
        else q.saved == Q.Saved(0, 0, 0, 0, 0, hour))
  }

  /** Every limit is the ledger's when there is one, and otherwise the configured quota or share. */
  ghost predicate LimitsSet(c: Config, remote: Option<map<string, nat>>, now: map<string, Q.State>) {
    forall u | u in c.users :: u.name in now && UserLimit(c, u, remote, now[u.name])
  }

  predicate UserLimit(c: Config, u: User, remote: Option<map<string, nat>>, q: Q.State) {
    var limit := match remote
                 case Some(limits) => Some(if u.name in limits then limits[u.name] else Q.Used(q))
                 case None => if u.quota.Some? then u.quota else ShareOf(c);
    Q.LimitOf(q) == if limit == Some(Q.NO_LIMIT) then None else limit
  }

  lemma NextKeepsOne(c: Config, u: User, was: map<string, Q.State>, remote: Option<map<string, nat>>,
                     saved: map<string, Q.Saved>, hour: int)
    ensures var q := NextQuota(c, u, LiveQuota(was, u), UsageOf(saved, u), hour, remote);
      UserCounters(was, c, saved, hour, u.name, q) && UserLimit(c, u, remote, q)
  {
  }

  lemma NextKeepsCounters(was: map<string, Q.State>, c: Config, remote: Option<map<string, nat>>,
                          saved: map<string, Q.Saved>, hour: int, next: map<string, Q.State>)
    requires QuotasFollow(was, c, remote, saved, hour, next)
    ensures CountersKept(was, c, saved, hour, next) && LimitsSet(c, remote, next)
  {
    forall u | u in c.users
      ensures UserCounters(was, c, saved, hour, u.name, next[u.name]) && UserLimit(c, u, remote, next[u.name])
    {
      NextKeepsOne(c, u, was, remote, saved, hour);
    }
  }
}
