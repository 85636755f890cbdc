/**
 From a raw detection to the event types a camera's rules ask for (server/src/ai/rule-eval.ts and
 server/src/ai/schedule.ts).
 */
module Rules {
  import opened Wrappers
  import opened Zone

  type Id = string

  // ---------------------------------------------------------------- schedules

  type Weekday = d: int | 0 <= d <= 6

  type Minute = m: int | 0 <= m <= 1440

  /** A zone_schedules row; no weekday means every day. */
  datatype Window = Window(weekday: Option<Weekday>, openMinute: Minute, closeMinute: Minute)

  const MINUTE := 60_000
  const DAY := 86_400_000
  const WEEK := 604_800_000

  /** UTC minute of the day of a time in milliseconds since 1970. */
  function MinutesOfDay(at: int): (m: int)
    ensures 0 <= m < 1440
  {
    at % DAY / MINUTE
  }

  /** Sunday is 0; 1 January 1970 was a Thursday. */
  function WeekdayOf(at: int): Weekday {
    (at / DAY + 4) % 7
  }

  predicate Applies(w: Window, at: int) {
    w.weekday.None? || w.weekday.value == WeekdayOf(at)
  }

  /** A window that closes before it opens wraps around midnight of its own day. */
  predicate Covers(w: Window, mins: int) {
    if w.openMinute <= w.closeMinute then w.openMinute <= mins < w.closeMinute
    else w.openMinute <= mins || mins < w.closeMinute
  }

  function ApplicableWindows(rows: seq<Window>, at: int): seq<Window> {
    if rows == [] then []
    else ApplicableWindows(rows[..|rows| - 1], at) + if Applies(rows[|rows| - 1], at) then [rows[|rows| - 1]] else []
  }

  predicate AnyCovers(windows: seq<Window>, mins: int) {
    windows != [] && (AnyCovers(windows[..|windows| - 1], mins) || Covers(windows[|windows| - 1], mins))
  }

  predicate IsAfterHours(rows: seq<Window>, at: int) {
    if rows == [] then false
    else
      var applicable := ApplicableWindows(rows, at);
      if applicable == [] then true else !AnyCovers(applicable, MinutesOfDay(at))
  }

  predicate OpenBy(w: Window, at: int) {
    Applies(w, at) && Covers(w, MinutesOfDay(at))
  }

  /** Closed means: there is a schedule, and no row of it is open now. */
  lemma {:induction false} AfterHoursMeans(rows: seq<Window>, at: int)
    ensures IsAfterHours(rows, at) <==> rows != [] && forall w :: w in rows ==> !OpenBy(w, at)
  {
    AnyOpen(rows, at);
  }

  lemma {:induction false} AnyOpen(rows: seq<Window>, at: int)
    ensures AnyCovers(ApplicableWindows(rows, at), MinutesOfDay(at)) <==> exists w :: w in rows && OpenBy(w, at)
  {
    if rows != [] {
      var p, x := rows[..|rows| - 1], rows[|rows| - 1];
      AnyOpen(p, at);
      var l := ApplicableWindows(p, at);
      assert (l + [x])[..|l|] == l && l + [] == l;
      assert AnyCovers(l + [x], MinutesOfDay(at)) == (AnyCovers(l, MinutesOfDay(at)) || Covers(x, MinutesOfDay(at)));
      assert rows == p + [x];
      hide AnyCovers, Covers;
      if w :| w in p && OpenBy(w, at) { assert w in rows && OpenBy(w, at); }
      assert x in rows;
    }
  }

  /** An opening window by the calendar: on day number d since Thursday, 1 January 1970, at the given minute. */
  lemma OpenByMeans(w: Window, day: int, minute: int, ms: int)
    requires 0 <= minute < 1440 && 0 <= ms < 60_000
    ensures OpenBy(w, day * 86_400_000 + minute * 60_000 + ms)
       <==> && (w.weekday.Some? ==> w.weekday.value == (day + 4) % 7)
            && (if w.closeMinute < w.openMinute then !(w.closeMinute <= minute < w.openMinute)
                else w.openMinute <= minute < w.closeMinute)
  {
    var at := day * 86_400_000 + minute * 60_000 + ms;
    DivMod(at, day, minute * 60_000 + ms);
    assert (minute * 60_000 + ms) / MINUTE == minute;
  }

  /** The answer repeats every week. */
  lemma Weekly(rows: seq<Window>, at: int, weeks: int)
    ensures IsAfterHours(rows, at + weeks * WEEK) == IsAfterHours(rows, at)
  {
    SameClock(at, weeks);
    hide MinutesOfDay, WeekdayOf, IsAfterHours;
    AfterHoursMeans(rows, at);
    AfterHoursMeans(rows, at + weeks * WEEK);
    assert forall w :: OpenBy(w, at) == OpenBy(w, at + weeks * WEEK);
  }

  lemma SameClock(at: int, weeks: int)
    ensures MinutesOfDay(at + weeks * WEEK) == MinutesOfDay(at) && WeekdayOf(at + weeks * WEEK) == WeekdayOf(at)
  {
    var b := at + weeks * WEEK;
    assert b == DAY * (at / DAY + 7 * weeks) + at % DAY;
    DivMod(b, at / DAY + 7 * weeks, at % DAY);
    var d := at / DAY + 4;
    assert b / DAY + 4 == d + 7 * weeks;
    assert (d + 7 * weeks) % 7 == d % 7;
  }

  lemma DivMod(b: int, q: int, r: int)
    requires b == DAY * q + r && 0 <= r < DAY
    ensures b / DAY == q && b % DAY == r
  {
  }

  /** The two halves of an overnight window, both on the window's own day. */
  function Halves(w: Window): seq<Window> {
    [w.(closeMinute := 1440), w.(openMinute := 0)]
  }

  /** An overnight window may be written as two. */
  lemma OvernightSplits(a: seq<Window>, w: Window, b: seq<Window>, at: int)
    requires w.openMinute > w.closeMinute
    ensures IsAfterHours(a + [w] + b, at) == IsAfterHours(a + Halves(w) + b, at)
  {
    var h := Halves(w);
    assert OpenBy(w, at) <==> OpenBy(h[0], at) || OpenBy(h[1], at);
    SameOpenings(a, [w], h, b, at);
  }

  /** A Monday window from 22:00 to 06:00 opens the small hours of Monday, not of Tuesday. */
  lemma OvernightStaysOnItsDay()
    ensures var rows := [Window(Some(1), 1320, 360)];
            !IsAfterHours(rows, 4 * DAY + 120 * MINUTE) && IsAfterHours(rows, 5 * DAY + 120 * MINUTE)
  {
    var w := Window(Some(1), 1320, 360);
    var monday, tuesday := 4 * DAY + 120 * MINUTE, 5 * DAY + 120 * MINUTE;
    assert WeekdayOf(monday) == 1 && WeekdayOf(tuesday) == 2 && MinutesOfDay(monday) == 120;
    hide WeekdayOf, MinutesOfDay, IsAfterHours;
    AfterHoursMeans([w], monday);
    AfterHoursMeans([w], tuesday);
    assert OpenBy(w, monday) && !OpenBy(w, tuesday) && w in [w];
  }

  /** A row without a weekday, day by day. */
  function EachDay(w: Window): seq<Window> {
    seq(7, d requires 0 <= d < 7 => w.(weekday := Some(d)))
  }

  lemma EveryDayIsSevenRows(a: seq<Window>, w: Window, b: seq<Window>, at: int)
    requires w.weekday.None?
    ensures IsAfterHours(a + [w] + b, at) == IsAfterHours(a + EachDay(w) + b, at)
  {
    var days := EachDay(w);
    var today := days[WeekdayOf(at)];
    assert OpenBy(w, at) <==> OpenBy(today, at);
    assert forall d :: 0 <= d < 7 && d != WeekdayOf(at) ==> !OpenBy(days[d], at);
    SameOpenings(a, [w], days, b, at);
  }

  /** Rows that are open together may replace each other. */
  lemma SameOpenings(a: seq<Window>, m: seq<Window>, m': seq<Window>, b: seq<Window>, at: int)
    requires m != [] && m' != []
    requires (exists w :: w in m && OpenBy(w, at)) <==> (exists w :: w in m' && OpenBy(w, at))
    ensures IsAfterHours(a + m + b, at) == IsAfterHours(a + m' + b, at)
  {
    AfterHoursMeans(a + m + b, at);
    AfterHoursMeans(a + m' + b, at);
    hide IsAfterHours, OpenBy;
    assert forall w :: w in a + m + b <==> w in a || w in m || w in b;
    assert forall w :: w in a + m' + b <==> w in a || w in m' || w in b;
  }

  // ---------------------------------------------------------------- rules

  datatype RawClass = Person | Vehicle | Fire | Smoke

  datatype Detection = Detection(rawClass: RawClass, confidence: real, bbox: BBox, dwellMs: Option<real>)

  /** An ai_rules row, with the one key of its config that is read. */
  datatype Rule = Rule(
    id: Id, camera: Id, ruleType: string, zone: Option<Id>, enabled: bool, minConfidence: real,
    minDwellMs: Option<real>)

  /** What the caller's database handle can see. */
  datatype Db = Db(rules: seq<Rule>, zones: map<Id, Option<Geometry>>, schedules: map<Id, seq<Window>>)

  datatype Evaluated = Evaluated(eventType: string, confidence: real, zone: Option<Id>, rule: Option<Id>)

  const PERSON_RULES := {
    "UNAUTHORIZED_ENTRY", "AFTER_HOURS_ACTIVITY", "RESTRICTED_ZONE_ACTIVITY", "LOITERING_SECURITY", "PERSON_DETECTION"}

  const VEHICLE_RULES := {"UNAUTHORIZED_VEHICLE", "VEHICLE_DETECTION", "RESTRICTED_ZONE_ACTIVITY"}

  function TypeName(c: RawClass): string {
    match c
    case Person => "PERSON"
    case Vehicle => "VEHICLE"
    case Fire => "FIRE"
    case Smoke => "SMOKE"
  }

  predicate ForClass(c: RawClass, ruleType: string) {
    ruleType in if c == Person then PERSON_RULES else VEHICLE_RULES
  }

  function Applicable(rules: seq<Rule>, camera: Id, c: RawClass): seq<Rule> {
    if rules == [] then []
    else
      var r := rules[|rules| - 1];
      Applicable(rules[..|rules| - 1], camera, c)
      + if r.camera == camera && r.enabled && ForClass(c, r.ruleType) then [r] else []
  }

  function ZoneOf(db: Db, id: Id): Option<Geometry> {
    if id in db.zones then db.zones[id] else None
  }

  function ScheduleOf(db: Db, id: Id): seq<Window> {
    if id in db.schedules then db.schedules[id] else []
  }

  /** The four gates of a rule: confidence, zone, schedule and dwell. */
  ghost predicate Passes(db: Db, det: Detection, now: int, r: Rule) {
    && det.confidence >= r.minConfidence
    && (r.zone.Some? ==> InZone(det.bbox, ZoneOf(db, r.zone.value)))
    && (r.ruleType == "AFTER_HOURS_ACTIVITY" ==> r.zone.Some? && IsAfterHours(ScheduleOf(db, r.zone.value), now))
    && (r.ruleType == "LOITERING_SECURITY" ==> det.dwellMs.GetOr(0.0) >= r.minDwellMs.GetOr(10_000.0))
  }

  /** The first rule of its type that passes. */
  ghost predicate Wins(db: Db, det: Detection, now: int, rules: seq<Rule>, i: nat)
    requires i < |rules|
  {
    && Passes(db, det, now, rules[i])
    && forall j :: 0 <= j < i && Passes(db, det, now, rules[j]) ==> rules[j].ruleType != rules[i].ruleType
  }

  /** The winners among the first n rules, in rule order. */
  ghost function Raised(db: Db, det: Detection, now: int, rules: seq<Rule>, n: nat): seq<Evaluated>
    requires n <= |rules|
  {
    if n == 0 then []
    else
      Raised(db, det, now, rules, n - 1)
      + if Wins(db, det, now, rules, n - 1)
        then [Evaluated(rules[n - 1].ruleType, det.confidence, rules[n - 1].zone, Some(rules[n - 1].id))] else []
  }

  ghost function Evaluation(db: Db, camera: Id, det: Detection, now: int): seq<Evaluated> {
    if det.rawClass in {Fire, Smoke} then [Evaluated(TypeName(det.rawClass), det.confidence, None, None)]
    else
      var rules := Applicable(db.rules, camera, det.rawClass);
      Raised(db, det, now, rules, |rules|)
  }

  /** Types already raised are those of the passing rules so far. */
  ghost predicate SeenSoFar(db: Db, det: Detection, now: int, rules: seq<Rule>, n: nat, seen: set<string>)
    requires n <= |rules|
  {
    forall t :: t in seen <==> exists j :: 0 <= j < n && Passes(db, det, now, rules[j]) && rules[j].ruleType == t
  }

  method ZoneGate(db: Db, det: Detection, r: Rule, cache: map<Id, Option<Geometry>>)
    returns (matched: bool, cache': map<Id, Option<Geometry>>)
    requires forall z :: z in cache ==> cache[z] == ZoneOf(db, z)
    ensures matched == (r.zone.Some? ==> InZone(det.bbox, ZoneOf(db, r.zone.value)))
    ensures forall z :: z in cache' ==> cache'[z] == ZoneOf(db, z)
  {
    cache', matched := cache, true;
    if r.zone.Some? {
      var id := r.zone.value;
      if id !in cache' { cache' := cache'[id := ZoneOf(db, id)]; }
      matched := DetectionInZone(det.bbox, cache'[id]);
    }
  }

  /** evaluateDetection: the loop with its zone cache and its set of types already raised. */
  method EvaluateDetection(db: Db, camera: Id, det: Detection, now: int) returns (out: seq<Evaluated>)
    ensures out == Evaluation(db, camera, det, now)
  {
    hide InZone, IsAfterHours, ForClass, TypeName;
    if det.rawClass == Fire || det.rawClass == Smoke {
      return [Evaluated(TypeName(det.rawClass), det.confidence, None, None)];
    }
    var rules := Applicable(db.rules, camera, det.rawClass);
    out := [];
    var zoneCache: map<Id, Option<Geometry>>, seen: set<string> := map[], {};
    var i := 0;
    while i < |rules|
      invariant 0 <= i <= |rules|
      invariant forall z :: z in zoneCache ==> zoneCache[z] == ZoneOf(db, z)
      invariant SeenSoFar(db, det, now, rules, i, seen)
      invariant out == Raised(db, det, now, rules, i)
    {
      var r := rules[i];
      i := i + 1;
      if det.confidence < r.minConfidence { continue; }
      var matched;
      matched, zoneCache := ZoneGate(db, det, r, zoneCache);
      if !matched { continue; }
      if r.ruleType == "AFTER_HOURS_ACTIVITY" {
        if r.zone.None? { continue; }
        if !IsAfterHours(ScheduleOf(db, r.zone.value), now) { continue; }
      }
      if r.ruleType == "LOITERING_SECURITY" && det.dwellMs.GetOr(0.0) < r.minDwellMs.GetOr(10_000.0) { continue; }
      if r.ruleType !in seen {
        seen := seen + {r.ruleType};
        out := out + [Evaluated(r.ruleType, det.confidence, r.zone, Some(r.id))];
      }
    }
  }

  /** Only types meant for the detection's class are raised, each once, by the first rule of the type that passes. */
  lemma {:induction false} RaisedByFirst(db: Db, det: Detection, now: int, rules: seq<Rule>, n: nat, k: nat)
    returns (i: nat)
    requires n <= |rules| && k < |Raised(db, det, now, rules, n)|
    ensures i < n && Wins(db, det, now, rules, i)
    ensures Raised(db, det, now, rules, n)[k]
            == Evaluated(rules[i].ruleType, det.confidence, rules[i].zone, Some(rules[i].id))
    ensures k == |Raised(db, det, now, rules, i)|
  {
    hide Wins;
    i := n - 1;
    if k < |Raised(db, det, now, rules, n - 1)| { i := RaisedByFirst(db, det, now, rules, n - 1, k); }
  }

  ghost predicate Distinct(out: seq<Evaluated>) {
    forall k, l :: 0 <= k < l < |out| ==> out[k].eventType != out[l].eventType
  }

  /** No type is raised twice. */
  lemma {:induction false} NoTypeTwice(db: Db, det: Detection, now: int, rules: seq<Rule>)
    ensures Distinct(Raised(db, det, now, rules, |rules|))
  {
    hide Raised, Passes;
    var out := Raised(db, det, now, rules, |rules|);
    forall k, l | 0 <= k < l < |out| ensures out[k].eventType != out[l].eventType {
      var a := RaisedByFirst(db, det, now, rules, |rules|, k);
      var b := RaisedByFirst(db, det, now, rules, |rules|, l);
      WinnersDiffer(db, det, now, rules, a, b);
    }
  }

  /** Every type with a passing rule is raised. */
  lemma {:induction false} PassingIsRaised(db: Db, det: Detection, now: int, rules: seq<Rule>, j: nat) returns (k: nat)
    requires j < |rules| && Passes(db, det, now, rules[j])
    ensures var out := Raised(db, det, now, rules, |rules|); k < |out| && out[k].eventType == rules[j].ruleType
  {
    hide Raised, Passes;
    var i := FirstPassing(db, det, now, rules, j);
    k := WinnerRaised(db, det, now, rules, i, |rules|);
  }

  lemma WinnersDiffer(db: Db, det: Detection, now: int, rules: seq<Rule>, a: nat, b: nat)
    requires a < |rules| && b < |rules| && a != b && Wins(db, det, now, rules, a) && Wins(db, det, now, rules, b)
    ensures rules[a].ruleType != rules[b].ruleType
  {
    hide Passes;
  }

  lemma {:induction false} FirstPassing(db: Db, det: Detection, now: int, rules: seq<Rule>, j: nat) returns (i: nat)
    requires j < |rules| && Passes(db, det, now, rules[j])
    ensures i <= j && Wins(db, det, now, rules, i) && rules[i].ruleType == rules[j].ruleType
  {
    hide Passes;
    i := j;
    if !Wins(db, det, now, rules, j) {
      var e :| 0 <= e < j && Passes(db, det, now, rules[e]) && rules[e].ruleType == rules[j].ruleType;
      i := FirstPassing(db, det, now, rules, e);
    }
  }

  lemma {:induction false} WinnerRaised(db: Db, det: Detection, now: int, rules: seq<Rule>, i: nat, n: nat)
    returns (k: nat)
    requires i < n <= |rules| && Wins(db, det, now, rules, i)
    ensures k < |Raised(db, det, now, rules, n)| && Raised(db, det, now, rules, n)[k].eventType == rules[i].ruleType
  {
    hide Wins;
    k := |Raised(db, det, now, rules, n - 1)|;
    if i < n - 1 { k := WinnerRaised(db, det, now, rules, i, n - 1); }
  }

  ghost predicate Raises(db: Db, camera: Id, det: Detection, now: int, t: string) {
    exists k :: 0 <= k < |Evaluation(db, camera, det, now)| && Evaluation(db, camera, det, now)[k].eventType == t
  }

  /** What is raised, said without the order of the rules. */
  lemma RaisesMeans(db: Db, camera: Id, det: Detection, now: int, t: string)
    requires det.rawClass in {Person, Vehicle}
    ensures Raises(db, camera, det, now, t) <==>
            exists r :: r in db.rules && r.camera == camera && r.enabled && ForClass(det.rawClass, r.ruleType)
                        && r.ruleType == t && Passes(db, det, now, r)
  {
    hide Raised, Passes, ForClass;
    var rules := Applicable(db.rules, camera, det.rawClass);
    ApplicableMeans(db.rules, camera, det.rawClass);
    var out := Evaluation(db, camera, det, now);
    if k :| 0 <= k < |out| && out[k].eventType == t {
      var i := RaisedByFirst(db, det, now, rules, |rules|, k);
      assert rules[i] in rules;
    }
    if r :| r in rules && r.ruleType == t && Passes(db, det, now, r) {
      var j :| 0 <= j < |rules| && rules[j] == r;
      var k := PassingIsRaised(db, det, now, rules, j);
      assert out[k].eventType == t;
    }
  }

  lemma {:induction false} ApplicableMeans(rules: seq<Rule>, camera: Id, c: RawClass)
    ensures forall r :: r in Applicable(rules, camera, c) <==>
                        r in rules && r.camera == camera && r.enabled && ForClass(c, r.ruleType)
  {
    hide ForClass;
    if rules != [] {
      ApplicableMeans(rules[..|rules| - 1], camera, c);
      assert forall r :: r in rules <==> r in rules[..|rules| - 1] || r == rules[|rules| - 1] by {
        assert rules == rules[..|rules| - 1] + [rules[|rules| - 1]];
      }
    }
  }

  /** The types meant for a class of detections. */
  predicate MeantFor(c: RawClass, t: string) {
    match c
    case Person =>
      t in ["UNAUTHORIZED_ENTRY", "AFTER_HOURS_ACTIVITY", "RESTRICTED_ZONE_ACTIVITY", "LOITERING_SECURITY",
            "PERSON_DETECTION"]
    case Vehicle => t in ["UNAUTHORIZED_VEHICLE", "VEHICLE_DETECTION", "RESTRICTED_ZONE_ACTIVITY"]
    case _ => false
  }

  /** The detection's centre is in the zone the rule names; a rule without a zone, and a zone without a shape, mean the
      whole frame. */
  ghost predicate InRulesZone(db: Db, bbox: BBox, r: Rule) {
    match r.zone
    case None => true
    case Some(z) => z !in db.zones || db.zones[z].None? || InZone(bbox, db.zones[z])
  }

  /** The rule's zone has opening times, and none of them is running. */
  ghost predicate RulesZoneIsClosed(db: Db, now: int, r: Rule) {
    && r.zone.Some? && r.zone.value in db.schedules && db.schedules[r.zone.value] != []
    && forall w :: w in db.schedules[r.zone.value] ==> !OpenBy(w, now)
  }

  /** Gate by gate: a type is raised for a person or a vehicle exactly if some rule of the camera asks for it, is
      enabled, is meant for the class, and the detection is sure enough, in its zone, out of hours if that is the
      rule's point, and there long enough (10 s unless the rule says otherwise) if loitering is. */
  lemma RaisesGateByGate(db: Db, camera: Id, det: Detection, now: int, t: string)
    requires det.rawClass in {Person, Vehicle}
    ensures Raises(db, camera, det, now, t) <==>
            exists r :: && r in db.rules && r.ruleType == t && r.camera == camera && r.enabled
                        && MeantFor(det.rawClass, t) && r.minConfidence <= det.confidence
                        && InRulesZone(db, det.bbox, r)
                        && (t == "AFTER_HOURS_ACTIVITY" ==> RulesZoneIsClosed(db, now, r))
                        && (t == "LOITERING_SECURITY" ==>
                              (if r.minDwellMs.Some? then r.minDwellMs.value else 10_000.0)
                              <= if det.dwellMs.Some? then det.dwellMs.value else 0.0)
  {
    RaisesMeans(db, camera, det, now, t);
    hide Raises, InZone, IsAfterHours, OpenBy;
    assert MeantFor(det.rawClass, t) <==> ForClass(det.rawClass, t);
    hide MeantFor, ForClass;
    forall r: Rule ensures Passes(db, det, now, r)
      <==> && r.minConfidence <= det.confidence && InRulesZone(db, det.bbox, r)
           && (r.ruleType == "AFTER_HOURS_ACTIVITY" ==> RulesZoneIsClosed(db, now, r))
           && (r.ruleType == "LOITERING_SECURITY" ==>
                 (if r.minDwellMs.Some? then r.minDwellMs.value else 10_000.0)
                 <= if det.dwellMs.Some? then det.dwellMs.value else 0.0) {
      GatesMean(db, det, now, r);
    }
  }

  lemma GatesMean(db: Db, det: Detection, now: int, r: Rule)
    ensures (r.zone.Some? ==> InZone(det.bbox, ZoneOf(db, r.zone.value))) <==> InRulesZone(db, det.bbox, r)
    ensures (r.zone.Some? && IsAfterHours(ScheduleOf(db, r.zone.value), now)) <==> RulesZoneIsClosed(db, now, r)
  {
    if r.zone.Some? { AfterHoursMeans(ScheduleOf(db, r.zone.value), now); }
    hide IsAfterHours, OpenBy;
  }

  /** Fire and smoke pass through under their own names, without any rule. */
  lemma FirePassesThrough(db: Db, camera: Id, det: Detection, now: int)
    ensures var e := Evaluation(db, camera, det, now);
            && (det.rawClass == Fire ==> e == [Evaluated("FIRE", det.confidence, None, None)])
            && (det.rawClass == Smoke ==> e == [Evaluated("SMOKE", det.confidence, None, None)])
  {
  }

  /** A surer detection, or one that has stayed longer, raises every type it raised before. */
  lemma MoreRaisesMore(db: Db, camera: Id, det: Detection, det': Detection, now: int, t: string)
    requires det'.rawClass == det.rawClass && det'.bbox == det.bbox
    requires det'.confidence >= det.confidence && det'.dwellMs.GetOr(0.0) >= det.dwellMs.GetOr(0.0)
    requires Raises(db, camera, det, now, t)
    ensures Raises(db, camera, det', now, t)
  {
    if det.rawClass in {Person, Vehicle} {
      RaisesMeans(db, camera, det, now, t);
      RaisesMeans(db, camera, det', now, t);
      hide InZone, IsAfterHours, ForClass, Raises;
      var r :| r in db.rules && r.camera == camera && r.enabled && ForClass(det.rawClass, r.ruleType)
               && r.ruleType == t && Passes(db, det, now, r);
      assert Passes(db, det', now, r);
    } else {
      assert Evaluation(db, camera, det, now)[0].eventType == Evaluation(db, camera, det', now)[0].eventType;
    }
  }
}
