/** Users and rules of a configuration, and the checks that keep listen addresses apart. */
module Config {
  import opened Options
  import opened Sums
  import Quota
  import Ledger

  datatype Protocol = Tcp | Udp | Both
  {
    predicate UsesTcp() { Tcp? || Both? }
    predicate UsesUdp() { Udp? || Both? }
  }

  datatype Rule = Rule(listen: string, protocol: Protocol, target: string, fallback: seq<string>,
                       checkSecs: nat, enabled: bool, tag: Option<string>)

  datatype User = User(name: string, quota: Option<nat>, packages: seq<string>, rules: seq<Rule>)

  datatype Panel = Panel(listen: string, username: string, password: string)

  datatype Remote = Remote(accessKey: string, secretKey: string, regions: seq<string>, intervalSecs: nat,
                           packages: seq<string>)

  /** `api` is an address; `panel` is there when the panel is on, `flushSecs` when usage is persisted. */
  datatype Config = Config(users: seq<User>, singleUser: bool, totalQuota: Option<nat>, metering: Quota.Metering,
                           remoteMode: bool, remote: Option<Remote>, flushSecs: Option<nat>,
                           api: Option<string>, panel: Option<Panel>)

  /** The packages all users share. */
  function Split(c: Config): seq<string> {
    if c.remote.Some? then c.remote.value.packages else []
  }

  /** A rule as it runs; two rules are the same exactly when their specs are equal. */
  datatype Spec = Spec(user: string, listen: string, protocol: Protocol, targets: seq<string>, checkSecs: nat)

  function SpecsOfRules(name: string, rules: seq<Rule>): seq<Spec> {
    if |rules| == 0 then []
    else
      var r := rules[|rules| - 1];
      SpecsOfRules(name, rules[..|rules| - 1])
      + if r.enabled then [Spec(name, r.listen, r.protocol, [r.target] + r.fallback, r.checkSecs)] else []
  }

  /** The enabled rules in the order the configuration lists them. */
  function SpecsOf(users: seq<User>): seq<Spec> {
    if |users| == 0 then []
    else
      var u := users[|users| - 1];
      SpecsOf(users[..|users| - 1]) + SpecsOfRules(u.name, u.rules)
  }

  function NamesOf(users: seq<User>): (r: seq<string>)
    ensures |r| == |users|
  {
    seq(|users|, i requires 0 <= i < |users| => users[i].name)
  }

  predicate RuleOk(r: Rule) {
    r.enabled ==>
      && (forall t | t in [r.target] + r.fallback :: t != "" && TargetOk(t))
      && r.checkSecs > 0 && r.tag != Some("")
  }

  predicate UserOk(u: User) {
    u.name != "" && forall r | r in u.rules :: RuleOk(r)
  }

  /** No two enabled rules want the same address for the same protocol. */
  predicate Separate(specs: seq<Spec>) {
    forall i, j | 0 <= i < j < |specs| && specs[i].listen == specs[j].listen ::
      && !(specs[i].protocol.UsesTcp() && specs[j].protocol.UsesTcp())
      && !(specs[i].protocol.UsesUdp() && specs[j].protocol.UsesUdp())
  }

  /** The servers of the program itself count as TCP listeners. */
  predicate Reserved(c: Config, listen: string) {
    c.api == Some(listen) || (c.panel.Some? && c.panel.value.listen == listen)
  }

  predicate Accepted(c: Config) {
    && !(c.users == [] && c.panel.None?)
    && !(c.singleUser && |c.users| > 1)
    && c.flushSecs != Some(0)
    && (c.panel.Some? ==> (c.panel.value.username == "" <==> c.panel.value.password == ""))
    && !(c.panel.Some? && c.api == Some(c.panel.value.listen))
    && UsersFine(c, c.users)
    && AccountingFine(c)
  }

  predicate AccountingFine(c: Config) {
    && PackagesFine(PackageIds(c))
    && (c.remote.Some? ==> RemoteFine(c.remote.value))
    && (c.remoteMode ==> c.remote.Some? && RemoteUsable(c.remote.value))
  }

  predicate PackagesFine(ids: seq<string>) {
    Distinct(ids) && forall id | id in ids :: !Blank(id)
  }

  /** The shortest time between two syncs, in seconds. */
  const MIN_SYNC_SECS: nat := 60

  predicate RemoteFine(r: Remote) {
    r.intervalSecs >= MIN_SYNC_SECS && forall region | region in r.regions :: !Blank(region)
  }

  predicate RemoteUsable(r: Remote) {
    r.accessKey != "" && r.secretKey != "" && r.regions != []
  }

  /** White space as Unicode lists it. */
  predicate Space(c: char) {
    var n := c as int;
    || 0x09 <= n <= 0x0D || n == 0x20 || n == 0x85 || n == 0xA0 || n == 0x1680 || 0x2000 <= n <= 0x200A
    || n == 0x2028 || n == 0x2029 || n == 0x202F || n == 0x205F || n == 0x3000
  }

  predicate Blank(s: string) {
    forall i | 0 <= i < |s| :: Space(s[i])
  }

  function OwnedIds(users: seq<User>): seq<string> {
    if |users| == 0 then [] else OwnedIds(users[..|users| - 1]) + users[|users| - 1].packages
  }

  /** Every mention of a provider package, the shared ones first. */
  function PackageIds(c: Config): seq<string> {
    Split(c) + OwnedIds(c.users)
  }

  function ShareOf(c: Config): Option<nat> {
    var unset := Unset(c.users);
    if c.totalQuota.Some? && unset > 0 then Some(c.totalQuota.value / unset) else None
  }

  function Unset(users: seq<User>): nat {
    if |users| == 0 then 0
    else Unset(users[..|users| - 1]) + if users[|users| - 1].quota.None? then 1 else 0
  }

  function QuotaFor(c: Config, u: User): Option<nat> {
    if u.quota.Some? then u.quota else ShareOf(c)
  }

  /** The rules that run are exactly the enabled ones, each under its user's name and with all its targets. */
  lemma {:induction false} SpecsOfRulesAre(name: string, rules: seq<Rule>, s: Spec)
    ensures s in SpecsOfRules(name, rules)
       <==> exists r | r in rules :: r.enabled && SpecIs(s, name, r)
  {
    var n := |rules| - 1;
    if n >= 0 {
      SpecsOfRulesAre(name, rules[..n], s);
      SpecMeans(s, name, rules[n]);
      assert forall r :: r in rules <==> r in rules[..n] || r == rules[n];
    }
  }

  predicate SpecIs(s: Spec, name: string, r: Rule) {
    && s.user == name && s.listen == r.listen && s.protocol == r.protocol && s.checkSecs == r.checkSecs
    && |s.targets| == 1 + |r.fallback| && s.targets[0] == r.target && s.targets[1..] == r.fallback
  }

  lemma SpecMeans(s: Spec, name: string, r: Rule)
    ensures SpecIs(s, name, r) <==> s == Spec(name, r.listen, r.protocol, [r.target] + r.fallback, r.checkSecs)
  {
    if SpecIs(s, name, r) { assert s.targets == [s.targets[0]] + s.targets[1..]; }
  }

  lemma {:induction false} SpecsAreEnabledRules(users: seq<User>, s: Spec)
    ensures s in SpecsOf(users)
       <==> exists u, r | u in users && r in u.rules :: r.enabled && SpecIs(s, u.name, r)
  {
    var n := |users| - 1;
    if n >= 0 {
      SpecsAreEnabledRules(users[..n], s);
      SpecsOfRulesAre(users[n].name, users[n].rules, s);
      assert forall u :: u in users <==> u in users[..n] || u == users[n];
    }
  }

  function SharesOf(c: Config, users: seq<User>): nat {
    if |users| == 0 then 0
    else
      var u := users[|users| - 1];
      SharesOf(c, users[..|users| - 1]) + if u.quota.None? && QuotaFor(c, u).Some? then QuotaFor(c, u).value else 0
  }

  lemma {:induction false} SharesAreEqual(c: Config, users: seq<User>)
    requires c.totalQuota.Some? && Unset(c.users) > 0
    ensures SharesOf(c, users) == Unset(users) * (c.totalQuota.value / Unset(c.users))
  {
    var n := |users| - 1;
    if n >= 0 {
      SharesAreEqual(c, users[..n]);
      var share := c.totalQuota.value / Unset(c.users);
      MulMono(Unset(users[..n]), Unset(users), share);
      assert (Unset(users[..n]) + 1) * share == Unset(users[..n]) * share + share;
    }
  }

  /**
   An explicit quota is the user's own. The users without one have equal shares of the total quota, which
   they use up but for less than one byte each; without a total they have no limit.
   */
  lemma SharesFitTotal(c: Config, u: User, v: User)
    requires u in c.users && v in c.users
    ensures u.quota.Some? ==> QuotaFor(c, u) == u.quota
    ensures u.quota.None? && v.quota.None? ==> QuotaFor(c, u) == QuotaFor(c, v)
    ensures u.quota.None? && c.totalQuota.Some? ==>
      && QuotaFor(c, u).Some?
      && c.totalQuota.value - Unset(c.users) < SharesOf(c, c.users) <= c.totalQuota.value
    ensures u.quota.None? && c.totalQuota.None? ==> QuotaFor(c, u) == None
  {
    if u.quota.None? && c.totalQuota.Some? {
      SomeUnset(c.users, u);
      SharesAreEqual(c, c.users);
      var total, n := c.totalQuota.value, Unset(c.users);
      assert n * (total / n) + total % n == total;
    }
  }

  lemma {:induction false} SomeUnset(users: seq<User>, u: User)
    requires u in users && u.quota.None?
    ensures Unset(users) > 0
  {
    if u in users[..|users| - 1] { SomeUnset(users[..|users| - 1], u); }
  }

  // ---------------------------------------------------------------- the checking loop

  /** The addresses taken so far, as the loop's two sets hold them. */
  ghost predicate Taken(c: Config, specs: seq<Spec>, tcp: set<string>, udp: set<string>) {
    && (forall l :: l in tcp <==> Reserved(c, l) || exists s | s in specs :: s.listen == l && s.protocol.UsesTcp())
    && (forall l :: l in udp <==> exists s | s in specs :: s.listen == l && s.protocol.UsesUdp())
  }

  /** The addresses a list of rules wants are all free. */
  predicate Fine(c: Config, specs: seq<Spec>) {
    && Separate(specs)
    && forall s | s in specs :: s.protocol.UsesTcp() ==> !Reserved(c, s.listen)
  }

  predicate Clashes(s: Spec, tcp: set<string>, udp: set<string>) {
    (s.protocol.UsesTcp() && s.listen in tcp) || (s.protocol.UsesUdp() && s.listen in udp)
  }

  lemma FineExtends(c: Config, specs: seq<Spec>, s: Spec, tcp: set<string>, udp: set<string>)
    requires Fine(c, specs) && Taken(c, specs, tcp, udp)
    ensures Fine(c, specs + [s]) <==> !Clashes(s, tcp, udp)
  {
    var all := specs + [s];
    if Clashes(s, tcp, udp) {
      if !(s.protocol.UsesTcp() && Reserved(c, s.listen)) {
        var o :| o in specs && o.listen == s.listen
                 && ((s.protocol.UsesTcp() && o.protocol.UsesTcp()) || (s.protocol.UsesUdp() && o.protocol.UsesUdp()));
        var i :| 0 <= i < |specs| && specs[i] == o;
        assert all[i] == o && all[|specs|] == s;
        assert !Separate(all);
      } else {
        assert s in all;
      }
    } else {
      forall i, j | 0 <= i < j < |all| && all[i].listen == all[j].listen
        ensures !(all[i].protocol.UsesTcp() && all[j].protocol.UsesTcp())
        ensures !(all[i].protocol.UsesUdp() && all[j].protocol.UsesUdp())
      {
        if j == |specs| { assert all[i] in specs; }
      }
    }
  }

  lemma FineShrinks(c: Config, specs: seq<Spec>, more: seq<Spec>)
    requires Fine(c, specs + more)
    ensures Fine(c, specs)
  {
    var all := specs + more;
    assert forall i | 0 <= i < |specs| :: all[i] == specs[i];
    forall s | s in specs ensures s.protocol.UsesTcp() ==> !Reserved(c, s.listen) { assert s in all; }
  }

  lemma TakenExtends(c: Config, specs: seq<Spec>, s: Spec, tcp: set<string>, udp: set<string>)
    requires Taken(c, specs, tcp, udp)
    ensures Taken(c, specs + [s], if s.protocol.UsesTcp() then tcp + {s.listen} else tcp,
                  if s.protocol.UsesUdp() then udp + {s.listen} else udp)
  {
    assert forall o :: o in specs + [s] <==> o in specs || o == s;
  }

  /** Claims one address for the protocols of a rule. */
  method Claim(c: Config, ghost specs: seq<Spec>, s: Spec, tcp: set<string>, udp: set<string>)
    returns (ok: bool, tcp2: set<string>, udp2: set<string>)
    requires Fine(c, specs) && Taken(c, specs, tcp, udp)
    ensures ok <==> Fine(c, specs + [s])
    ensures ok ==> Taken(c, specs + [s], tcp2, udp2)
  {
    FineExtends(c, specs, s, tcp, udp);
    TakenExtends(c, specs, s, tcp, udp);
    tcp2, udp2 := tcp, udp;
    if s.protocol.UsesTcp() {
      if s.listen in tcp { return false, tcp2, udp2; }
      tcp2 := tcp + {s.listen};
    }
    if s.protocol.UsesUdp() {
      if s.listen in udp { return false, tcp2, udp2; }
      udp2 := udp + {s.listen};
    }
    ok := true;
  }

  lemma {:induction false} RulesOnlyGrow(name: string, rules: seq<Rule>, i: nat)
    requires i <= |rules|
    ensures SpecsOfRules(name, rules[..i]) <= SpecsOfRules(name, rules)
    decreases |rules| - i
  {
    if i < |rules| {
      RulesOnlyGrow(name, rules, i + 1);
      assert rules[..i + 1][..i] == rules[..i];
    } else {
      assert rules[..i] == rules;
    }
  }

  lemma {:induction false} UsersOnlyGrow(users: seq<User>, i: nat)
    requires i <= |users|
    ensures SpecsOf(users[..i]) <= SpecsOf(users)
    decreases |users| - i
  {
    if i < |users| {
      UsersOnlyGrow(users, i + 1);
      assert users[..i + 1][..i] == users[..i];
    } else {
      assert users[..i] == users;
    }
  }

  /** A clash among the first rules is a clash among all of them. */
  lemma StaysTaken(c: Config, before: seq<Spec>, u: User, i: nat)
    requires i <= |u.rules| && !Fine(c, before + SpecsOfRules(u.name, u.rules[..i]))
    ensures !Fine(c, before + SpecsOfRules(u.name, u.rules))
  {
    var next, all := SpecsOfRules(u.name, u.rules[..i]), SpecsOfRules(u.name, u.rules);
    RulesOnlyGrow(u.name, u.rules, i);
    if Fine(c, before + all) {
      assert before + all == (before + next) + all[|next|..];
      FineShrinks(c, before + next, all[|next|..]);
    }
  }

  // ---------------------------------------------------------------- targets

  predicate Digit(c: char) { '0' <= c <= '9' }

  function DigitValue(c: char): nat
    requires Digit(c)
  {
    c as int - '0' as int
  }

  predicate AllDigits(text: string) {
    forall i | 0 <= i < |text| :: Digit(text[i])
  }

  function Value(digits: string): nat
    requires AllDigits(digits)
  {
    if |digits| == 0 then 0 else 10 * Value(digits[..|digits| - 1]) + DigitValue(digits[|digits| - 1])
  }

  function Unsigned(text: string): string {
    if |text| > 0 && text[0] == '+' then text[1..] else text
  }

  /** Decimal digits, perhaps after a plus sign, of a number that fits 16 bits. */
  predicate PortOk(text: string) {
    var digits := Unsigned(text);
    digits != [] && AllDigits(digits) && Value(digits) <= 0xFFFF
  }

  /** A host and a port on either side of the last colon. */
  predicate TargetOk(target: string) {
    exists k | 0 < k < |target| :: target[k] == ':' && ':' !in target[k + 1..] && PortOk(target[k + 1..])
  }

  lemma {:induction false} ValueGrows(digits: string, i: nat)
    requires i <= |digits| && AllDigits(digits)
    ensures Value(digits[..i]) <= Value(digits)
  {
    if i == |digits| {
      assert digits[..i] == digits;
    } else {
      ValueGrows(digits[..|digits| - 1], i);
      assert digits[..|digits| - 1][..i] == digits[..i];
    }
  }

  /** Reads a 16-bit number, giving up at the first digit that makes it too large. */
  method ParsePort(text: string) returns (ok: bool)
    ensures ok <==> PortOk(text)
  {
    var digits := Unsigned(text);
    if |digits| == 0 { return false; }
    var port := 0;
    for i := 0 to |digits|
      invariant AllDigits(digits[..i])
      invariant port == Value(digits[..i]) <= 0xFFFF
    {
      if !Digit(digits[i]) {
        assert !AllDigits(digits);
        return false;
      }
      assert digits[..i + 1][..i] == digits[..i];
      port := 10 * port + DigitValue(digits[i]);
      if port > 0xFFFF {
        if AllDigits(digits) { ValueGrows(digits, i + 1); }
        return false;
      }
    }
    assert digits[..|digits|] == digits;
    ok := true;
  }

  method CheckTarget(target: string) returns (ok: bool)
    ensures ok <==> TargetOk(target)
  {
    var k := |target|;
    while k > 0 && target[k - 1] != ':'
      invariant 0 <= k <= |target| && ':' !in target[k..]
    {
      k := k - 1;
      assert target[k..] == [target[k]] + target[k + 1..];
    }
    if k == 0 {
      assert target[0..] == target;
      return false;
    }
    OnlyColon(target, k - 1);
    ok := ParsePort(target[k..]);
    ok := ok && k - 1 > 0;
  }

  lemma OnlyColon(target: string, k: nat)
    requires k < |target| && target[k] == ':' && ':' !in target[k + 1..]
    ensures TargetOk(target) <==> k > 0 && PortOk(target[k + 1..])
  {
    forall j | 0 < j < k ensures target[j] != ':' || ':' in target[j + 1..] { assert target[j + 1..][k - j - 1] == ':'; }
    forall j | k < j < |target| ensures target[j] != ':' { assert target[j] == target[k + 1..][j - k - 1]; }
  }

  method CheckRule(r: Rule) returns (ok: bool)
    requires r.enabled
    ensures ok <==> RuleOk(r)
  {
    var targets := [r.target] + r.fallback;
    for i := 0 to |targets|
      invariant forall j | 0 <= j < i :: targets[j] != "" && TargetOk(targets[j])
    {
      var shaped := CheckTarget(targets[i]);
      if targets[i] == "" || !shaped {
        assert targets[i] in targets;
        return false;
      }
    }
    ok := r.checkSecs > 0 && r.tag != Some("");
  }

  // ---------------------------------------------------------------- users

  method CheckUser(c: Config, ghost before: seq<Spec>, u: User, tcp: set<string>, udp: set<string>)
    returns (ok: bool, tcp2: set<string>, udp2: set<string>)
    requires Fine(c, before) && Taken(c, before, tcp, udp)
    ensures ok <==> (forall r | r in u.rules :: RuleOk(r)) && Fine(c, before + SpecsOfRules(u.name, u.rules))
    ensures ok ==> Taken(c, before + SpecsOfRules(u.name, u.rules), tcp2, udp2)
  {
    tcp2, udp2 := tcp, udp;
    assert before + [] == before;
    for i := 0 to |u.rules|
      invariant forall j | 0 <= j < i :: RuleOk(u.rules[j])
      invariant Fine(c, before + SpecsOfRules(u.name, u.rules[..i]))
      invariant Taken(c, before + SpecsOfRules(u.name, u.rules[..i]), tcp2, udp2)
    {
      var r := u.rules[i];
      ghost var sofar := SpecsOfRules(u.name, u.rules[..i]);
      assert u.rules[..i + 1][..i] == u.rules[..i];
      if !r.enabled {
        assert sofar + [] == sofar;
        continue;
      }
      var usable := CheckRule(r);
      if !usable {
        assert r in u.rules;
        return false, tcp2, udp2;
      }
      var s := Spec(u.name, r.listen, r.protocol, [r.target] + r.fallback, r.checkSecs);
      ghost var next := SpecsOfRules(u.name, u.rules[..i + 1]);
      assert before + next == before + sofar + [s];
      var free;
      free, tcp2, udp2 := Claim(c, before + sofar, s, tcp2, udp2);
      if !free {
        StaysTaken(c, before, u, i + 1);
        return false, tcp2, udp2;
      }
    }
    assert u.rules[..|u.rules|] == u.rules;
    ok := true;
  }

  predicate UsersFine(c: Config, users: seq<User>) {
    && Distinct(NamesOf(users)) && (forall u | u in users :: UserOk(u))
    && Fine(c, SpecsOf(users))
  }

  lemma UsersFineExtends(c: Config, users: seq<User>, u: User)
    requires UsersFine(c, users)
    ensures SpecsOf(users + [u]) == SpecsOf(users) + SpecsOfRules(u.name, u.rules)
    ensures UsersFine(c, users + [u])
       <==> UserOk(u) && u.name !in NamesOf(users) && Fine(c, SpecsOf(users) + SpecsOfRules(u.name, u.rules))
  {
    var all := users + [u];
    assert all[..|users|] == users;
    assert NamesOf(all) == NamesOf(users) + [u.name];
    if u.name in NamesOf(users) {
      var i :| 0 <= i < |users| && NamesOf(users)[i] == u.name;
      assert NamesOf(all)[i] == NamesOf(all)[|users|];
    }
    if !UserOk(u) { assert u in all; }
  }

  lemma UsersFineShrinks(c: Config, users: seq<User>, i: nat)
    requires UsersFine(c, users) && i <= |users|
    ensures UsersFine(c, users[..i])
  {
    assert NamesOf(users[..i]) == NamesOf(users)[..i];
    UsersOnlyGrow(users, i);
    var now, all := SpecsOf(users[..i]), SpecsOf(users);
    assert all == now + all[|now|..];
    FineShrinks(c, now, all[|now|..]);
  }

  method CheckUsers(c: Config, tcp: set<string>) returns (ok: bool)
    requires forall l :: l in tcp <==> Reserved(c, l)
    ensures ok <==> UsersFine(c, c.users)
  {
    var tcp, udp: set<string> := tcp, {};
    var names: set<string> := {};
    for i := 0 to |c.users|
      invariant forall n :: n in names <==> n in NamesOf(c.users[..i])
      invariant UsersFine(c, c.users[..i]) && Taken(c, SpecsOf(c.users[..i]), tcp, udp)
    {
      var u := c.users[i];
      assert c.users[..i + 1] == c.users[..i] + [u];
      UsersFineExtends(c, c.users[..i], u);
      var fine := u.name != "" && u.name !in names;
      if fine {
        names := names + {u.name};
        fine, tcp, udp := CheckUser(c, SpecsOf(c.users[..i]), u, tcp, udp);
      }
      if !fine {
        if UsersFine(c, c.users) { UsersFineShrinks(c, c.users, i + 1); }
        return false;
      }
      assert NamesOf(c.users[..i + 1]) == NamesOf(c.users[..i]) + [u.name];
    }
    assert c.users[..|c.users|] == c.users;
    ok := true;
  }

  /**
   Accepts a configuration exactly when its names, addresses and packages are all distinct, its rules
   are usable and there is something to serve.
   */
  method Validate(c: Config) returns (ok: bool)
    ensures ok <==> Accepted(c)
  {
    if c.users == [] && c.panel.None? { return false; }
    if c.singleUser && |c.users| > 1 { return false; }
    if c.flushSecs == Some(0) { return false; }
    var tcp: set<string> := if c.api.Some? then {c.api.value} else {};
    if c.panel.Some? {
      var panel := c.panel.value;
      if (panel.username == "") != (panel.password == "") || panel.listen in tcp { return false; }
      tcp := tcp + {panel.listen};
    }
    ok := CheckUsers(c, tcp);
    if !ok { return; }
    ok := CheckAccounting(c);
  }

  method CheckPackages(ids: seq<string>) returns (ok: bool)
    ensures ok <==> PackagesFine(ids)
  {
    var seen: set<string> := {};
    for i := 0 to |ids|
      invariant forall id :: id in seen <==> id in ids[..i]
      invariant PackagesFine(ids[..i])
    {
      if Blank(ids[i]) {
        assert ids[i] in ids;
        return false;
      }
      if ids[i] in seen {
        var j :| 0 <= j < i && ids[..i][j] == ids[i];
        assert ids[j] == ids[i];
        return false;
      }
      seen := seen + {ids[i]};
      assert ids[..i + 1] == ids[..i] + [ids[i]];
    }
    assert ids[..|ids|] == ids;
    ok := true;
  }

  method CheckAccounting(c: Config) returns (ok: bool)
    ensures ok <==> AccountingFine(c)
  {
    ok := CheckPackages(PackageIds(c));
    if !ok { return; }
    if c.remote.Some? {
      var remote := c.remote.value;
      if remote.intervalSecs < MIN_SYNC_SECS || exists region | region in remote.regions :: Blank(region) {
        return false;
      }
    }
    if c.remoteMode {
      if c.remote.None? { return false; }
      var remote := c.remote.value;
      if remote.accessKey == "" || remote.secretKey == "" || remote.regions == [] { return false; }
    }
  }

  // ---------------------------------------------------------------- who gets a package

  function OwnersOf(users: seq<User>): map<string, string> {
    if |users| == 0 then map[]
    else
      var u := users[|users| - 1];
      OwnersOf(users[..|users| - 1]) + map id | id in u.packages :: u.name
  }

  /** What the ledger is told about packages. */
  function AssignmentsOf(c: Config): Ledger.Assignments {
    Ledger.Assignments((set id | id in Split(c)), OwnersOf(c.users), c.singleUser)
  }

  lemma NotInBoth(a: seq<string>, b: seq<string>, id: string)
    requires Distinct(a + b)
    ensures !(id in a && id in b)
  {
    forall i, j | 0 <= i < |a| && 0 <= j < |b| ensures a[i] != b[j] {
      assert (a + b)[i] != (a + b)[|a| + j];
    }
  }

  lemma {:induction false} OwnersAre(users: seq<User>, u: User, id: string)
    requires Distinct(OwnedIds(users)) && u in users
    ensures id in u.packages ==> id in OwnersOf(users) && OwnersOf(users)[id] == u.name && id in OwnedIds(users)
  {
    var n := |users| - 1;
    var last, before := users[n], OwnedIds(users[..n]);
    assert OwnedIds(users)[..|before|] == before;
    if u in users[..n] {
      OwnersAre(users[..n], u, id);
      NotInBoth(before, last.packages, id);
    }
  }

  lemma {:induction false} OwnersOnly(users: seq<User>, id: string)
    requires id in OwnersOf(users)
    ensures exists u | u in users :: id in u.packages && u.name == OwnersOf(users)[id]
  {
    var n := |users| - 1;
    if id in users[n].packages {
      assert users[n] in users;
    } else {
      OwnersOnly(users[..n], id);
      var u :| u in users[..n] && id in u.packages && u.name == OwnersOf(users)[id];
      assert u in users;
    }
  }

  /** In an accepted configuration a package goes to the one user that lists it, or is shared, never both. */
  lemma AssignmentsFollowConfig(c: Config, id: string)
    requires Accepted(c)
    ensures var a := AssignmentsOf(c);
      && (id in a.split <==> id in Split(c))
      && (id in a.owners ==> id !in a.split)
      && (id in a.owners <==> exists u | u in c.users :: id in u.packages)
      && (forall u | u in c.users && id in u.packages :: id in a.owners && a.owners[id] == u.name)
  {
    var owned := OwnedIds(c.users);
    assert PackageIds(c)[|Split(c)|..] == owned;
    assert Distinct(owned) by {
      forall i, j | 0 <= i < j < |owned| ensures owned[i] != owned[j] {
        assert PackageIds(c)[|Split(c)| + i] != PackageIds(c)[|Split(c)| + j];
      }
    }
    forall u | u in c.users && id in u.packages ensures id in OwnersOf(c.users) && OwnersOf(c.users)[id] == u.name {
      OwnersAre(c.users, u, id);
    }
    if id in OwnersOf(c.users) {
      OwnersOnly(c.users, id);
      var u :| u in c.users && id in u.packages;
      OwnersAre(c.users, u, id);
      NotInBoth(Split(c), owned, id);
    }
  }
}
