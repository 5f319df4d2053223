/** What a quota bills over whole histories, hour by hour, with clocks, restarts and metering changes. */
module QuotaBilling {
  import opened Options
  import opened Sums
  import opened Quota
  import opened QuotaRuns

  /** Traffic that was let through. */
  datatype Line = Line(hour: int, d: Direction, n: nat)

  function LineOf(s: State, op: Op): seq<Line> {
    if op.Take? && !s.exhausted then [Line(op.at, op.d, op.n)] else []
  }

  function Lines(s: State, ops: seq<Op>): seq<Line> {
    if |ops| == 0 then []
    else Lines(s, ops[..|ops| - 1]) + LineOf(Run(s, ops[..|ops| - 1]), ops[|ops| - 1])
  }

  function HourBytes(lines: seq<Line>, hour: int, d: Direction): nat {
    if |lines| == 0 then 0
    else
      var l := lines[|lines| - 1];
      HourBytes(lines[..|lines| - 1], hour, d) + if l.hour == hour && l.d == d then l.n else 0
  }

  function HourBill(lines: seq<Line>, m: Metering, hour: int): nat {
    Bill(m, HourBytes(lines, hour, Upload), HourBytes(lines, hour, Download))
  }

  function Hours(lines: seq<Line>): set<int> {
    set l | l in lines :: l.hour
  }

  /** The reference: every hour billed on its own. */
  ghost function Billed(lines: seq<Line>, m: Metering): int {
    MapSum(map h | h in Hours(lines) :: HourBill(lines, m, h) as int)
  }

  predicate KeepsMetering(op: Op, m: Metering) {
    (op.Meter? || op.Restart?) ==> op.metering == m
  }

  predicate OneRule(ops: seq<Op>, m: Metering) {
    forall i | 0 <= i < |ops| :: KeepsMetering(ops[i], m)
  }

  lemma OneRuleNext(ops: seq<Op>, m: Metering)
    requires OneRule(ops, m) && |ops| > 0
    ensures OneRule(ops[..|ops| - 1], m) && KeepsMetering(ops[|ops| - 1], m)
  {
  }

  // ---------------------------------------------------------------- visits

  /** A stretch of time with one hour on the clock, and what was let through in it. */
  datatype Visit = Visit(hour: int, up: nat, down: nat)

  /** The hour an operation puts on the clock, when it gets that far. */
  function Stamp(s: State, op: Op): Option<int> {
    match op
    case Take(_, _, at) => if s.exhausted then None else Some(at)
    case Roll(at) => Some(at)
    case Restart(_, _, at) => Some(at)
    case _ => None
  }

  function Entered(vs: seq<Visit>, stamp: Option<int>): (r: seq<Visit>)
    requires |vs| > 0
    ensures |r| > 0
  {
    if stamp.Some? && stamp.value != vs[|vs| - 1].hour then vs + [Visit(stamp.value, 0, 0)] else vs
  }

  function Noted(v: Visit, l: Line): Visit {
    match l.d
    case Upload => v.(up := v.up + l.n)
    case Download => v.(down := v.down + l.n)
  }

  function NotedIn(vs: seq<Visit>, lines: seq<Line>): (r: seq<Visit>)
    requires |vs| > 0
    ensures |r| > 0
  {
    if lines == [] then vs else vs[..|vs| - 1] + [Noted(vs[|vs| - 1], lines[0])]
  }

  /** The visits of a history, told from the clock and the traffic alone. */
  function Visits(s: State, ops: seq<Op>): (vs: seq<Visit>)
    ensures |vs| > 0
  {
    if |ops| == 0 then [Visit(s.saved.hour, s.saved.hourUp, s.saved.hourDown)]
    else
      var before, op := Run(s, ops[..|ops| - 1]), ops[|ops| - 1];
      NotedIn(Entered(Visits(s, ops[..|ops| - 1]), Stamp(before, op)), LineOf(before, op))
  }

  function VisitBill(v: Visit, m: Metering): nat { Bill(m, v.up, v.down) }

  function VisitBills(vs: seq<Visit>, m: Metering): nat {
    if |vs| == 0 then 0 else VisitBills(vs[..|vs| - 1], m) + VisitBill(vs[|vs| - 1], m)
  }

  /** The last visit is open in the buckets, the others are settled. */
  predicate Accounts(base: nat, t: State, vs: seq<Visit>) {
    && |vs| > 0 && vs[|vs| - 1] == Visit(t.saved.hour, t.saved.hourUp, t.saved.hourDown)
    && t.saved.settled == base + VisitBills(vs[..|vs| - 1], t.metering)
  }

  lemma EnterAccounts(base: nat, t: State, vs: seq<Visit>, at: int)
    requires Accounts(base, t, vs)
    ensures Accounts(base, RollTo(t, at), Entered(vs, Some(at)))
  {
    if at != t.saved.hour {
      var next := Entered(vs, Some(at));
      assert next[..|next| - 1] == vs;
    }
  }

  lemma NoteAccounts(base: nat, t: State, vs: seq<Visit>, n: nat, d: Direction)
    requires Accounts(base, t, vs)
    ensures Accounts(base, t.(saved := Record(t.saved, n, d)), NotedIn(vs, [Line(t.saved.hour, d, n)]))
  {
    var next := NotedIn(vs, [Line(t.saved.hour, d, n)]);
    assert next[..|next| - 1] == vs[..|vs| - 1];
  }

  lemma TakeAccounts(base: nat, t: State, vs: seq<Visit>, n: nat, d: Direction, at: int)
    requires Accounts(base, t, vs) && !t.exhausted
    ensures Accounts(base, Consume(t, n, d, at), NotedIn(Entered(vs, Some(at)), [Line(at, d, n)]))
  {
    EnterAccounts(base, t, vs, at);
    NoteAccounts(base, RollTo(t, at), Entered(vs, Some(at)), n, d);
  }

  lemma RestartAccounts(base: nat, t: State, vs: seq<Visit>, limit: Option<nat>, at: int)
    requires Accounts(base, t, vs)
    ensures Accounts(base, Restore(t.saved, limit, t.metering, at), Entered(vs, Some(at)))
  {
    EnterAccounts(base, t, vs, at);
    assert Restore(t.saved, limit, t.metering, at).saved == RollTo(t, at).saved;
  }

  lemma StepAccounts(base: nat, t: State, vs: seq<Visit>, op: Op)
    requires Accounts(base, t, vs) && KeepsMetering(op, t.metering)
    ensures Accounts(base, Apply(t, op), NotedIn(Entered(vs, Stamp(t, op)), LineOf(t, op)))
    ensures Apply(t, op).metering == t.metering
  {
    match op
    case Take(n, d, at) =>
      if !t.exhausted { TakeAccounts(base, t, vs, n, d, at); }
    case Roll(at) => EnterAccounts(base, t, vs, at);
    case Restart(limit, _, at) => RestartAccounts(base, t, vs, limit, at);
    case _ =>
  }

  /** Whatever the clock does, a quota holds the bill of every visit. */
  lemma {:induction false} VisitsAccount(s: State, ops: seq<Op>)
    requires OneRule(ops, s.metering)
    ensures Accounts(s.saved.settled, Run(s, ops), Visits(s, ops)) && Run(s, ops).metering == s.metering
  {
    var n := |ops| - 1;
    if n >= 0 {
      OneRuleNext(ops, s.metering);
      VisitsAccount(s, ops[..n]);
      StepAccounts(s.saved.settled, Run(s, ops[..n]), Visits(s, ops[..n]), ops[n]);
    }
  }

  // ---------------------------------------------------------------- visits of one hour

  function VisitBytes(v: Visit, d: Direction): nat { if d.Upload? then v.up else v.down }

  function Total(vs: seq<Visit>, hour: int, d: Direction): nat {
    if |vs| == 0 then 0
    else Total(vs[..|vs| - 1], hour, d) + if vs[|vs| - 1].hour == hour then VisitBytes(vs[|vs| - 1], d) else 0
  }

  function BillsAt(vs: seq<Visit>, m: Metering, hour: int): nat {
    if |vs| == 0 then 0
    else BillsAt(vs[..|vs| - 1], m, hour) + if vs[|vs| - 1].hour == hour then VisitBill(vs[|vs| - 1], m) else 0
  }

  /** No visit of the hour carries more of the one direction while another carries more of the other. */
  predicate OneSided(vs: seq<Visit>, m: Metering, hour: int) {
    || m != LargerDirection
    || (forall v | v in vs && v.hour == hour :: v.up >= v.down)
    || (forall v | v in vs && v.hour == hour :: v.down >= v.up)
  }

  lemma {:induction false} LargerAt(vs: seq<Visit>, hour: int)
    ensures var bills := BillsAt(vs, LargerDirection, hour);
      && Total(vs, hour, Upload) <= bills && Total(vs, hour, Download) <= bills
      && (Total(vs, hour, Upload) == bills <==> forall v | v in vs && v.hour == hour :: v.up >= v.down)
      && (Total(vs, hour, Download) == bills <==> forall v | v in vs && v.hour == hour :: v.down >= v.up)
  {
    var n := |vs| - 1;
    if n >= 0 {
      LargerAt(vs[..n], hour);
      assert forall v :: v in vs <==> v in vs[..n] || v == vs[n];
    }
  }

  lemma {:induction false} AdditiveAt(vs: seq<Visit>, m: Metering, hour: int)
    requires m != LargerDirection
    ensures Bill(m, Total(vs, hour, Upload), Total(vs, hour, Download)) == BillsAt(vs, m, hour)
  {
    if |vs| > 0 { AdditiveAt(vs[..|vs| - 1], m, hour); }
  }

  /** Billing an hour visit by visit costs no less than billing it once, and the same only if one-sided. */
  lemma HourAtMost(vs: seq<Visit>, m: Metering, hour: int)
    ensures var once := Bill(m, Total(vs, hour, Upload), Total(vs, hour, Download));
      once <= BillsAt(vs, m, hour) && (once == BillsAt(vs, m, hour) <==> OneSided(vs, m, hour))
  {
    if m == LargerDirection { LargerAt(vs, hour); } else { AdditiveAt(vs, m, hour); }
  }

  function VisitHours(vs: seq<Visit>): set<int> {
    set v | v in vs :: v.hour
  }

  function ByHour(vs: seq<Visit>, m: Metering): map<int, int> {
    map h | h in VisitHours(vs) :: BillsAt(vs, m, h)
  }

  lemma {:induction false} NeverVisited(vs: seq<Visit>, m: Metering, hour: int)
    requires hour !in VisitHours(vs)
    ensures BillsAt(vs, m, hour) == 0 && Total(vs, hour, Upload) == 0 && Total(vs, hour, Download) == 0
  {
    if |vs| > 0 {
      assert vs[|vs| - 1] in vs;
      NeverVisited(vs[..|vs| - 1], m, hour);
    }
  }

  /** The bills of the visits, hour by hour. */
  lemma {:induction false} Grouped(vs: seq<Visit>, m: Metering)
    ensures VisitBills(vs, m) == MapSum(ByHour(vs, m))
  {
    var n := |vs| - 1;
    if n >= 0 {
      var before, h := vs[..n], vs[n].hour;
      Grouped(before, m);
      assert forall v :: v in vs <==> v in before || v == vs[n];
      assert VisitHours(vs) == VisitHours(before) + {h};
      if h !in VisitHours(before) { NeverVisited(before, m, h); }
      MapSumUpdate(ByHour(before, m), h, BillsAt(vs, m, h));
      assert ByHour(vs, m) == ByHour(before, m)[h := BillsAt(vs, m, h)];
    }
  }

  lemma {:induction false} TotalNoted(vs: seq<Visit>, l: Line, hour: int, d: Direction)
    requires |vs| > 0 && vs[|vs| - 1].hour == l.hour
    ensures Total(NotedIn(vs, [l]), hour, d) == Total(vs, hour, d) + if l.hour == hour && l.d == d then l.n else 0
  {
    var next := NotedIn(vs, [l]);
    assert next[..|next| - 1] == vs[..|vs| - 1];
  }

  lemma TotalEntered(vs: seq<Visit>, stamp: Option<int>, hour: int, d: Direction)
    requires |vs| > 0
    ensures Total(Entered(vs, stamp), hour, d) == Total(vs, hour, d)
  {
    var next := Entered(vs, stamp);
    if next != vs { assert next[..|next| - 1] == vs; }
  }

  /** The visits hold exactly the traffic that was let through, hour by hour. */
  lemma {:induction false} VisitsCarryLines(s: State, ops: seq<Op>, hour: int, d: Direction)
    requires s.saved.hourUp == 0 && s.saved.hourDown == 0
    ensures Total(Visits(s, ops), hour, d) == HourBytes(Lines(s, ops), hour, d)
  {
    var n := |ops| - 1;
    if n >= 0 {
      var before, op, vs, lines := Run(s, ops[..n]), ops[n], Visits(s, ops[..n]), Lines(s, ops[..n]);
      VisitsCarryLines(s, ops[..n], hour, d);
      TotalEntered(vs, Stamp(before, op), hour, d);
      if LineOf(before, op) != [] {
        var l := Line(op.at, op.d, op.n);
        TotalNoted(Entered(vs, Stamp(before, op)), l, hour, d);
        assert (lines + [l])[..|lines|] == lines;
      } else {
        assert lines + [] == lines;
      }
    }
  }

  lemma {:induction false} NoBytes(lines: seq<Line>, hour: int, d: Direction)
    requires hour !in Hours(lines)
    ensures HourBytes(lines, hour, d) == 0
  {
    if |lines| > 0 {
      assert lines[|lines| - 1] in lines;
      NoBytes(lines[..|lines| - 1], hour, d);
    }
  }

  lemma {:induction false} LinesAreVisited(s: State, ops: seq<Op>)
    ensures Hours(Lines(s, ops)) <= VisitHours(Visits(s, ops))
  {
    var n := |ops| - 1;
    if n >= 0 {
      LinesAreVisited(s, ops[..n]);
      var before, op := Run(s, ops[..n]), ops[n];
      HoursAppend(Lines(s, ops[..n]), LineOf(before, op));
      VisitsGrow(Visits(s, ops[..n]), Stamp(before, op), LineOf(before, op));
    }
  }

  lemma HoursAppend(a: seq<Line>, b: seq<Line>)
    ensures Hours(a + b) == Hours(a) + Hours(b)
  {
  }

  lemma VisitsGrow(vs: seq<Visit>, stamp: Option<int>, lines: seq<Line>)
    requires |vs| > 0 && (lines == [] || (|lines| == 1 && stamp == Some(lines[0].hour)))
    ensures VisitHours(vs) + Hours(lines) <= VisitHours(NotedIn(Entered(vs, stamp), lines))
  {
    EnteredHours(vs, stamp);
    NotedHours(Entered(vs, stamp), lines);
    assert forall l | l in lines :: l == lines[0];
  }

  lemma EnteredHours(vs: seq<Visit>, stamp: Option<int>)
    requires |vs| > 0
    ensures VisitHours(vs) <= VisitHours(Entered(vs, stamp))
    ensures stamp.Some? ==> stamp.value == Entered(vs, stamp)[|Entered(vs, stamp)| - 1].hour
  {
  }

  lemma NotedHours(vs: seq<Visit>, lines: seq<Line>)
    requires |vs| > 0
    ensures VisitHours(NotedIn(vs, lines)) == VisitHours(vs) && vs[|vs| - 1].hour in VisitHours(vs)
  {
    var n := |vs| - 1;
    assert vs == vs[..n] + [vs[n]];
    assert vs[n] in vs;
    if lines != [] {
      var next := NotedIn(vs, lines);
      assert next[n] in next && forall v | v in vs[..n] :: v in next;
    }
  }

  // ---------------------------------------------------------------- the bill

  function Once(vs: seq<Visit>, m: Metering): map<int, int> {
    map h | h in VisitHours(vs) :: Bill(m, Total(vs, h, Upload), Total(vs, h, Download)) as int
  }

  lemma OnceIsBilled(s: State, ops: seq<Op>, m: Metering)
    requires s.saved.hourUp == 0 && s.saved.hourDown == 0
    ensures MapSum(Once(Visits(s, ops), m)) == Billed(Lines(s, ops), m)
  {
    var lines, vs := Lines(s, ops), Visits(s, ops);
    var billed := map h | h in Hours(lines) :: HourBill(lines, m, h) as int;
    LinesAreVisited(s, ops);
    forall h | h in VisitHours(vs) ensures Once(vs, m)[h] == Get(billed, h) {
      VisitsCarryLines(s, ops, h, Upload);
      VisitsCarryLines(s, ops, h, Download);
      if h !in Hours(lines) {
        NoBytes(lines, h, Upload);
        NoBytes(lines, h, Download);
      }
    }
    MapSumExtend(Once(vs, m), billed);
  }

  lemma BillsCompare(vs: seq<Visit>, m: Metering)
    ensures MapSum(Once(vs, m)) <= VisitBills(vs, m)
    ensures MapSum(Once(vs, m)) == VisitBills(vs, m) <==> forall h | h in VisitHours(vs) :: OneSided(vs, m, h)
  {
    Grouped(vs, m);
    forall h | h in VisitHours(vs)
      ensures Once(vs, m)[h] <= ByHour(vs, m)[h] && (Once(vs, m)[h] == ByHour(vs, m)[h] <==> OneSided(vs, m, h))
    {
      HourAtMost(vs, m, h);
    }
    MapSumCompare(Once(vs, m), ByHour(vs, m));
  }

  /**
   Under one metering rule and any clock at all, a quota bills no less than hour by hour, and exactly
   that if and only if the visits of each hour are one-sided.
   */
  lemma AnyClockBills(limit: Option<nat>, m: Metering, start: int, ops: seq<Op>)
    requires OneRule(ops, m)
    ensures var s := Restore(Saved(0, 0, 0, 0, 0, 0), limit, m, start);
      && Used(Run(s, ops)) >= Billed(Lines(s, ops), m)
      && (Used(Run(s, ops)) == Billed(Lines(s, ops), m) <==>
          forall h | h in VisitHours(Visits(s, ops)) :: OneSided(Visits(s, ops), m, h))
  {
    var s := Restore(Saved(0, 0, 0, 0, 0, 0), limit, m, start);
    VisitsAccount(s, ops);
    OnceIsBilled(s, ops, m);
    BillsCompare(Visits(s, ops), m);
  }

  /** The clock of an operation that has one. */
  predicate NotBefore(op: Op, hour: int) {
    (op.Take? || op.Roll? || op.Restart?) ==> op.at >= hour
  }

  /** Hours never go back and the metering rule stays the same. */
  predicate Orderly(ops: seq<Op>, m: Metering, start: int) {
    && OneRule(ops, m) && (forall i | 0 <= i < |ops| :: NotBefore(ops[i], start))
    && (forall i, j | 0 <= i < j < |ops| && (ops[i].Take? || ops[i].Roll? || ops[i].Restart?) ::
          NotBefore(ops[j], ops[i].at))
  }

  predicate Increasing(vs: seq<Visit>) {
    forall i, j | 0 <= i < j < |vs| :: vs[i].hour < vs[j].hour
  }

  lemma {:induction false} OrderlyVisits(s: State, ops: seq<Op>)
    requires Orderly(ops, s.metering, s.saved.hour)
    ensures Increasing(Visits(s, ops))
  {
    var n := |ops| - 1;
    if n >= 0 {
      OrderlyVisits(s, ops[..n]);
      VisitsAccount(s, ops[..n]);
      var before, op := Run(s, ops[..n]), ops[n];
      if Stamp(before, op).Some? { ClockBehind(s, ops, n); }
      StaysIncreasing(Visits(s, ops[..n]), Stamp(before, op), LineOf(before, op));
    }
  }

  lemma StaysIncreasing(vs: seq<Visit>, stamp: Option<int>, lines: seq<Line>)
    requires |vs| > 0 && Increasing(vs) && (stamp.Some? ==> stamp.value >= vs[|vs| - 1].hour)
    ensures Increasing(NotedIn(Entered(vs, stamp), lines))
  {
    var entered := Entered(vs, stamp);
    assert Increasing(entered);
    var next := NotedIn(entered, lines);
    assert |next| == |entered| && forall i | 0 <= i < |next| :: next[i].hour == entered[i].hour;
  }

  /**
   Used traffic is the sum of the hours billed one by one, restarts or not: under the larger-direction
   rule if the clock never goes back, under the other two whatever it does.
   */
  lemma UsedIsBilledByHour(limit: Option<nat>, m: Metering, start: int, ops: seq<Op>)
    requires OneRule(ops, m) && (m == LargerDirection ==> Orderly(ops, m, start))
    ensures var s := Restore(Saved(0, 0, 0, 0, 0, 0), limit, m, start);
      Used(Run(s, ops)) == Billed(Lines(s, ops), m)
  {
    var s := Restore(Saved(0, 0, 0, 0, 0, 0), limit, m, start);
    AnyClockBills(limit, m, start, ops);
    if m == LargerDirection {
      OrderlyVisits(s, ops);
      var vs := Visits(s, ops);
      forall h | h in VisitHours(vs) ensures OneSided(vs, m, h) { SingleVisit(vs, m, h); }
    }
  }

  lemma SingleVisit(vs: seq<Visit>, m: Metering, hour: int)
    requires Increasing(vs)
    ensures OneSided(vs, m, hour)
  {
    forall v, w | v in vs && w in vs && v.hour == w.hour ensures v == w {
      var i :| 0 <= i < |vs| && vs[i] == v;
      var j :| 0 <= j < |vs| && vs[j] == w;
    }
  }

  // ---------------------------------------------------------------- restarts

  /** Restoring a snapshot under the same settings is rolling the live quota over. */
  lemma RestartIsRollover(s: State, at: int)
    requires Exact(s)
    ensures Apply(s, Restart(LimitOf(s), s.metering, at)) == RollTo(s, at)
  {
  }

  /** One quota has closed an hour that the other still has open. */
  predicate Ahead(s: State, t: State) {
    t == s || (s.saved.hour < t.saved.hour && t == RollTo(s, t.saved.hour))
  }

  lemma AheadSame(s: State, t: State)
    requires Ahead(s, t)
    ensures Used(s) == Used(t) && Carried(s.saved) == Carried(t.saved)
    ensures s.exhausted == t.exhausted && s.watched == t.watched && s.limit == t.limit
  {
  }

  lemma StepKeepsAhead(s: State, t: State, op: Op)
    requires Ahead(s, t) && NotBefore(op, t.saved.hour) && KeepsMetering(op, s.metering)
    ensures Ahead(Apply(s, op), Apply(t, op)) && LineOf(s, op) == LineOf(t, op)
    ensures Apply(s, op).metering == s.metering
  {
    AheadSame(s, t);
  }

  /** The clock of a quota is its own hour or that of an operation that ran. */
  lemma {:induction false} RunClock(s: State, ops: seq<Op>, hour: int)
    requires s.saved.hour <= hour
    requires forall i | 0 <= i < |ops| && (ops[i].Take? || ops[i].Roll? || ops[i].Restart?) :: ops[i].at <= hour
    ensures Run(s, ops).saved.hour <= hour
  {
    if |ops| > 0 { RunClock(s, ops[..|ops| - 1], hour); }
  }

  lemma {:induction false} RunKeepsAhead(s: State, t: State, ops: seq<Op>)
    requires Ahead(s, t) && Orderly(ops, s.metering, t.saved.hour)
    ensures Ahead(Run(s, ops), Run(t, ops)) && Lines(s, ops) == Lines(t, ops)
    ensures Run(s, ops).metering == s.metering
  {
    var n := |ops| - 1;
    if n >= 0 {
      RunKeepsAhead(s, t, ops[..n]);
      var op := ops[n];
      if op.Take? || op.Roll? || op.Restart? { ClockBehind(t, ops, n); }
      StepKeepsAhead(Run(s, ops[..n]), Run(t, ops[..n]), op);
    }
  }

  lemma ClockBehind(t: State, ops: seq<Op>, n: nat)
    requires n < |ops| && Orderly(ops, t.metering, t.saved.hour)
    requires ops[n].Take? || ops[n].Roll? || ops[n].Restart?
    ensures Run(t, ops[..n]).saved.hour <= ops[n].at
  {
    assert NotBefore(ops[n], t.saved.hour);
    forall i | 0 <= i < |ops[..n]| && (ops[..n][i].Take? || ops[..n][i].Roll? || ops[..n][i].Restart?)
      ensures ops[..n][i].at <= ops[n].at
    {
      assert NotBefore(ops[n], ops[i].at);
    }
    RunClock(t, ops[..n], ops[n].at);
  }

  /** Two quotas that bill the same, wherever their bytes are. */
  predicate Level(s: State, t: State) {
    && Used(s) == Used(t) && s.metering == t.metering && s.limit == t.limit
    && s.exhausted == t.exhausted && s.watched == t.watched
  }

  /** Under the other two rules a byte costs the same wherever it is counted. */
  lemma ConsumeCosts(s: State, n: nat, d: Direction, at: int)
    requires s.metering != LargerDirection && !s.exhausted
    ensures var t := Consume(s, n, d, at);
      && Used(t) == Used(s) + (if d.Upload? then Bill(s.metering, n, 0) else Bill(s.metering, 0, n))
      && t.metering == s.metering && t.limit == s.limit
      && t.exhausted == Enforced(t) && (t.watched == if Enforced(t) then true else s.watched)
  {
  }

  lemma StepKeepsLevel(s: State, t: State, op: Op)
    requires Level(s, t) && s.metering != LargerDirection && KeepsMetering(op, s.metering)
    ensures Level(Apply(s, op), Apply(t, op)) && LineOf(s, op) == LineOf(t, op)
    ensures Apply(s, op).metering == s.metering
  {
    if op.Take? && !s.exhausted {
      ConsumeCosts(s, op.n, op.d, op.at);
      ConsumeCosts(t, op.n, op.d, op.at);
    }
  }

  lemma {:induction false} RunKeepsLevel(s: State, t: State, ops: seq<Op>)
    requires Level(s, t) && s.metering != LargerDirection && OneRule(ops, s.metering)
    ensures Level(Run(s, ops), Run(t, ops)) && Lines(s, ops) == Lines(t, ops)
    ensures Run(s, ops).metering == s.metering
  {
    var n := |ops| - 1;
    if n >= 0 {
      OneRuleNext(ops, s.metering);
      RunKeepsLevel(s, t, ops[..n]);
      StepKeepsLevel(Run(s, ops[..n]), Run(t, ops[..n]), ops[n]);
    }
  }

  /** A restart between two parts of a history changes neither the traffic let through nor the bill. */
  lemma RestartIsInvisible(s: State, at: int, ops: seq<Op>)
    requires Exact(s) && OneRule(ops, s.metering)
    requires s.metering == LargerDirection ==> at >= s.saved.hour && Orderly(ops, s.metering, at)
    ensures var restarted := Apply(s, Restart(LimitOf(s), s.metering, at));
      && Lines(restarted, ops) == Lines(s, ops)
      && Used(Run(restarted, ops)) == Used(Run(s, ops))
      && Run(restarted, ops).exhausted == Run(s, ops).exhausted
  {
    RestartIsRollover(s, at);
    if s.metering == LargerDirection {
      RunKeepsAhead(s, RollTo(s, at), ops);
      AheadSame(Run(s, ops), Run(RollTo(s, at), ops));
    } else {
      RunKeepsLevel(s, RollTo(s, at), ops);
    }
  }

  predicate Clockless(ops: seq<Op>) {
    forall i | 0 <= i < |ops| :: ops[i].Meter? || ops[i].Limit?
  }

  lemma {:induction false} ClocklessKeeps(s: State, t: State, ops: seq<Op>)
    requires Clockless(ops) && s.metering == t.metering
    ensures Run(s, ops).saved == s.saved && Run(s, ops).metering == Run(t, ops).metering
  {
    if |ops| > 0 { ClocklessKeeps(s, t, ops[..|ops| - 1]); }
  }

  /**
   A metering change reaches back into the open hour. A restart before it shows exactly when it closes
   that hour and the two rules bill its bytes differently.
   */
  lemma MeteringShowsRestart(s: State, at: int, ops: seq<Op>)
    requires Exact(s) && Clockless(ops)
    ensures var restarted := Apply(s, Restart(LimitOf(s), s.metering, at));
      var m := Run(s, ops).metering;
      Used(Run(restarted, ops)) == Used(Run(s, ops)) <==>
        at == s.saved.hour
        || Bill(m, s.saved.hourUp, s.saved.hourDown) == Bill(s.metering, s.saved.hourUp, s.saved.hourDown)
  {
    RestartIsRollover(s, at);
    ClocklessKeeps(s, RollTo(s, at), ops);
    ClocklessKeeps(RollTo(s, at), s, ops);
  }

  /** The two quotas differ in what they have settled, by `more`, and in nothing that is counted from now on. */
  predicate Offset(s: State, t: State, more: int) {
    && t.saved.hour == s.saved.hour && t.saved.hourUp == s.saved.hourUp && t.saved.hourDown == s.saved.hourDown
    && t.saved.settled == s.saved.settled + more && t.metering == s.metering
  }

  /** What is let through is the same at every step. */
  predicate SameTraffic(s: State, t: State, ops: seq<Op>) {
    |ops| == 0
    || (SameTraffic(s, t, ops[..|ops| - 1])
        && LineOf(Run(s, ops[..|ops| - 1]), ops[|ops| - 1]) == LineOf(Run(t, ops[..|ops| - 1]), ops[|ops| - 1]))
  }

  lemma StepKeepsOffset(s: State, t: State, more: int, op: Op)
    requires Offset(s, t, more) && LineOf(s, op) == LineOf(t, op)
    ensures Offset(Apply(s, op), Apply(t, op), more)
  {
  }

  lemma {:induction false} RunKeepsOffset(s: State, t: State, more: int, ops: seq<Op>)
    requires Offset(s, t, more) && SameTraffic(s, t, ops)
    ensures Offset(Run(s, ops), Run(t, ops), more)
  {
    var n := |ops| - 1;
    if n >= 0 {
      RunKeepsOffset(s, t, more, ops[..n]);
      StepKeepsOffset(Run(s, ops[..n]), Run(t, ops[..n]), more, ops[n]);
    }
  }

  lemma {:induction false} SameStateSameTraffic(s: State, ops: seq<Op>)
    ensures SameTraffic(s, s, ops)
  {
    if |ops| > 0 { SameStateSameTraffic(s, ops[..|ops| - 1]); }
  }

  /** The rule under which an operation closes an hour; a restart brings its own. */
  function ClosingRule(s: State, op: Op): Metering {
    if op.Restart? then op.metering else s.metering
  }

  /** What the restart billed the hour's bytes at, over what the closing operation bills them at. */
  function Difference(s: State, rule: Metering): int {
    Bill(s.metering, s.saved.hourUp, s.saved.hourDown) - Bill(rule, s.saved.hourUp, s.saved.hourDown)
  }

  predicate SameButSaved(s: State, t: State) {
    s.metering == t.metering && s.limit == t.limit
  }

  lemma {:induction false} ClocklessAgrees(s: State, t: State, ops: seq<Op>)
    requires Clockless(ops) && SameButSaved(s, t)
    ensures SameButSaved(Run(s, ops), Run(t, ops))
    ensures Run(s, ops).saved == s.saved && Run(t, ops).saved == t.saved
    ensures SameTraffic(s, t, ops)
  {
    if |ops| > 0 { ClocklessAgrees(s, t, ops[..|ops| - 1]); }
  }

  /** Closing the hour leaves the two quotas the difference apart. */
  lemma ClosingOffsets(s: State, t: State, base: State, at: int, op: Op)
    requires SameButSaved(s, t) && s.saved == base.saved && t.saved == RollTo(base, at).saved && at != base.saved.hour
    requires Stamp(s, op).Some? && Stamp(s, op).value != base.saved.hour && LineOf(s, op) == LineOf(t, op)
    ensures Offset(Apply(s, op), Apply(t, op), Difference(base, ClosingRule(s, op)))
  {
  }

  /** When there is no difference, the two quotas are one and the same from there on. */
  lemma ClosingJoins(s: State, t: State, base: State, at: int, op: Op)
    requires SameButSaved(s, t) && s.saved == base.saved && t.saved == RollTo(base, at).saved && at != base.saved.hour
    requires Stamp(s, op).Some? && Stamp(s, op).value != base.saved.hour
    requires Exact(s) && Exact(t) && Difference(base, ClosingRule(s, op)) == 0
    ensures Apply(s, op) == Apply(t, op) && LineOf(s, op) == LineOf(t, op)
  {
    if !op.Restart? { assert Used(s) == Used(t); }
  }

  lemma {:induction false} RunOn(s: State, t: State, ops: seq<Op>, more: seq<Op>)
    ensures Run(s, ops + more) == Run(Run(s, ops), more)
    ensures SameTraffic(s, t, ops + more) <==> SameTraffic(s, t, ops) && SameTraffic(Run(s, ops), Run(t, ops), more)
    ensures Run(t, ops + more) == Run(Run(t, ops), more)
  {
    var n := |more| - 1;
    if n < 0 {
      assert ops + more == ops;
    } else {
      RunOn(s, t, ops, more[..n]);
      assert (ops + more)[..|ops + more| - 1] == ops + more[..n];
    }
  }

  /**
   A restart that closes an hour, then any changes of metering and limit, an operation that would have
   closed the hour, and anything at all: traffic and bill are what they would have been without the
   restart if and only if the hour's bytes cost the same under the rule in force at the restart and under
   the one in force when the hour would have closed.
   */
  lemma MeteringShowsRestartForGood(s: State, at: int, before: seq<Op>, op: Op, after: seq<Op>)
    requires Covered(s.saved) && Exact(s) && Carried(s.saved) < NO_LIMIT && Clockless(before) && at != s.saved.hour
    requires Stamp(Run(s, before), op).Some? && Stamp(Run(s, before), op).value != s.saved.hour
    ensures var t := Apply(s, Restart(LimitOf(s), s.metering, at));
      var ops := before + [op] + after;
      SameTraffic(s, t, ops) && Used(Run(s, ops)) == Used(Run(t, ops))
      <==> Difference(s, ClosingRule(Run(s, before), op)) == 0
  {
    var t := RollTo(s, at);
    RestartIsRollover(s, at);
    ClocklessAgrees(s, t, before);
    var s1, t1 := Run(s, before), Run(t, before);
    RunIsExact(s, before);
    RunIsExact(t, before);
    RunOn(s, t, before, [op]);
    RunOn(s, t, before + [op], after);
    OneOp(s1, t1, op);
    var more := Difference(s, ClosingRule(s1, op));
    if more == 0 {
      ClosingJoins(s1, t1, s, at, op);
      SameStateSameTraffic(Apply(s1, op), after);
    } else if SameTraffic(s, t, before + [op] + after) {
      ClosingOffsets(s1, t1, s, at, op);
      RunKeepsOffset(Apply(s1, op), Apply(t1, op), more, after);
    }
  }

  lemma OneOp(s: State, t: State, op: Op)
    ensures Run(s, [op]) == Apply(s, op) && Run(t, [op]) == Apply(t, op)
    ensures SameTraffic(s, t, [op]) <==> LineOf(s, op) == LineOf(t, op)
  {
    assert [op][..0] == [];
  }

  /** Settling an open hour early under a different rule does change the bill. */
  lemma MeteringChangeShowsRestarts()
    ensures var s := State(Saved(5, 9, 0, 5, 9, 1), NO_LIMIT, LargerDirection, false, false);
      && Used(Apply(s, Meter(BothDirections))) == 14
      && Used(Apply(Apply(s, Restart(None, LargerDirection, 2)), Meter(BothDirections))) == 9
  {
  }

  /** Under the larger-direction rule, a clock that steps back into a closed hour can bill it twice. */
  lemma BackwardClockOverbills(s: State, n: nat, at: int, later: int)
    requires s == State(Saved(0, 0, 0, 0, 0, at), NO_LIMIT, LargerDirection, false, false) && later != at
    ensures var first := Consume(s, n, Upload, at);
      && Used(Consume(first, n, Download, at)) == n
      && Used(Consume(RollTo(first, later), n, Download, at)) == 2 * n
  {
    var first := Consume(s, n, Upload, at);
    assert first == s.(saved := Saved(n, 0, 0, n, 0, at));
  }
}
