/**
 The detection engine (server/src/ai/engine.ts): cooldown, deduplication, fire and smoke
 correlation and alerting over the tables `events` and `alert_cooldowns`. Transactions are
 serial and there is one clock; the rule, the notification rules, the time and the row id the
 database would draw come in with each detection.
 */
module Engine {
  import opened Wrappers
  import Keys

  type Id = string

  // ---------------------------------------------------------------- event types and severities

  const CORRELATION_WINDOW_MS := 60_000

  /** The values of the enum ai_rule_type that a detection can carry. */
  datatype EventType =
    | FIRE | SMOKE | FIRE_AND_SMOKE
    | UNAUTHORIZED_ENTRY | AFTER_HOURS_ACTIVITY | OBJECT_REMOVED
    | LOITERING_SECURITY | UNAUTHORIZED_VEHICLE | RESTRICTED_ZONE_ACTIVITY
    | PERSON_DETECTION | VEHICLE_DETECTION | RESTRICTED_AREA_INTRUSION | LINE_CROSSING
    | LOITERING | CROWD_DETECTION | HELMET_DETECTION | SAFETY_VEST_DETECTION

  function Name(t: EventType): string {
    match t
    case FIRE => "FIRE"
    case SMOKE => "SMOKE"
    case FIRE_AND_SMOKE => "FIRE_AND_SMOKE"
    case UNAUTHORIZED_ENTRY => "UNAUTHORIZED_ENTRY"
    case AFTER_HOURS_ACTIVITY => "AFTER_HOURS_ACTIVITY"
    case OBJECT_REMOVED => "OBJECT_REMOVED"
    case LOITERING_SECURITY => "LOITERING_SECURITY"
    case UNAUTHORIZED_VEHICLE => "UNAUTHORIZED_VEHICLE"
    case RESTRICTED_ZONE_ACTIVITY => "RESTRICTED_ZONE_ACTIVITY"
    case PERSON_DETECTION => "PERSON_DETECTION"
    case VEHICLE_DETECTION => "VEHICLE_DETECTION"
    case RESTRICTED_AREA_INTRUSION => "RESTRICTED_AREA_INTRUSION"
    case LINE_CROSSING => "LINE_CROSSING"
    case LOITERING => "LOITERING"
    case CROWD_DETECTION => "CROWD_DETECTION"
    case HELMET_DETECTION => "HELMET_DETECTION"
    case SAFETY_VEST_DETECTION => "SAFETY_VEST_DETECTION"
  }

  predicate IsFireType(t: EventType) {
    t.FIRE? || t.SMOKE? || t.FIRE_AND_SMOKE?
  }

  datatype Severity = INFO | LOW | MEDIUM | HIGH | CRITICAL

  function Rank(s: Severity): nat {
    match s
    case INFO => 0
    case LOW => 1
    case MEDIUM => 2
    case HIGH => 3
    case CRITICAL => 4
  }

  /** DEFAULT_SEVERITY, and MEDIUM for the types it does not list. */
  function DefaultSeverity(t: EventType): Severity {
    match t
    case FIRE | FIRE_AND_SMOKE => CRITICAL
    case SMOKE | UNAUTHORIZED_ENTRY | AFTER_HOURS_ACTIVITY | OBJECT_REMOVED | RESTRICTED_ZONE_ACTIVITY => HIGH
    case _ => MEDIUM
  }

  // ---------------------------------------------------------------- rows

  datatype Incident = Incident(
    org: Id, site: Id, camera: Id, rule: Option<Id>,
    eventType: EventType, severity: Severity, confidence: real, occurredAt: int)

  datatype Cooldown = Cooldown(event: Option<Id>, lastAlertAt: int, expiresAt: int)

  datatype Evidence = Evidence(org: Id, event: Id)

  datatype Notification = Notification(org: Id, event: Id, rule: Id, severity: Severity, eventType: EventType)

  datatype Audit = Audit(org: Id, action: string, event: Id)

  datatype Rule = Rule(
    id: Id, enabled: bool, minConfidence: real, minDurationMs: nat, severity: Severity, cooldownSeconds: nat)

  datatype NotifyRule = NotifyRule(id: Id, minSeverity: Severity)

  datatype Signal = Signal(
    org: Id, camera: Id, site: Id, eventType: EventType, confidence: real,
    severity: Option<Severity>, durationMs: Option<nat>, rule: Option<Id>, snapshot: bool)

  /** One call of processDetection with everything it reads from outside the two tables. */
  datatype Input = Input(
    signal: Signal, rule: Option<Rule>, recipients: seq<NotifyRule>, now: int, newId: Id)

  datatype DetectionResult = DetectionResult(
    event: Option<Id>, eventType: EventType, severity: Severity,
    created: bool, alerted: bool, notified: nat, upgraded: bool)

  datatype Failure = RuleDisabled

  // ---------------------------------------------------------------- the decisions

  function Bucket(t: EventType): string {
    if IsFireType(t) then "FIRE_SAFETY" else Name(t)
  }

  function CooldownKey(camera: Id, t: EventType): string {
    Keys.Join(camera, Bucket(t))
  }

  /** The cooldown row a detection belongs to. */
  type Slot = (Id, string)

  function SlotOf(x: Input): Slot {
    (x.signal.org, CooldownKey(x.signal.camera, x.signal.eventType))
  }

  function SlotOfIncident(e: Incident): Slot {
    (e.org, CooldownKey(e.camera, e.eventType))
  }

  function CooldownSeconds(x: Input): nat {
    if x.rule.Some? then x.rule.value.cooldownSeconds else 30
  }

  function SeverityOf(x: Input): Severity {
    if x.signal.severity.Some? then x.signal.severity.value
    else if x.rule.Some? then x.rule.value.severity
    else DefaultSeverity(x.signal.eventType)
  }

  predicate Disabled(x: Input) {
    x.rule.Some? && !x.rule.value.enabled
  }

  /** Confidence threshold and minimum duration. */
  predicate Filtered(x: Input) {
    || x.signal.confidence < (if x.rule.Some? then x.rule.value.minConfidence else 0.0)
    || (x.rule.Some? && x.rule.value.minDurationMs > 0 && x.signal.durationMs.GetOr(0) < x.rule.value.minDurationMs)
  }

  predicate Accepted(x: Input) {
    !Disabled(x) && !Filtered(x)
  }

  predicate Complementary(stored: EventType, signal: EventType) {
    (stored == FIRE && signal == SMOKE) || (stored == SMOKE && signal == FIRE)
  }

  function NoResult(x: Input): DetectionResult {
    DetectionResult(None, x.signal.eventType, x.signal.severity.GetOr(MEDIUM), false, false, 0, false)
  }

  // ---------------------------------------------------------------- the two tables as a state machine

  datatype Store = Store(
    events: map<Id, Incident>, cooldowns: map<Slot, Cooldown>,
    evidence: seq<Evidence>, notifications: seq<Notification>, audits: seq<Audit>)

  const EMPTY := Store(map[], map[], [], [], [])

  /** The incident that a live cooldown row groups this detection into. */
  function Active(s: Store, x: Input): Option<Id> {
    if SlotOf(x) in s.cooldowns && s.cooldowns[SlotOf(x)].expiresAt > x.now
    then s.cooldowns[SlotOf(x)].event else None
  }

  /** Does this detection turn the active incident into FIRE_AND_SMOKE? */
  predicate Upgrades(s: Store, x: Input) {
    var id := Active(s, x);
    && id.Some? && id.value in s.events && IsFireType(x.signal.eventType)
    && Complementary(s.events[id.value].eventType, x.signal.eventType)
    && x.now - s.events[id.value].occurredAt <= CORRELATION_WINDOW_MS
  }

  function Opened(x: Input): Incident {
    Incident(x.signal.org, x.signal.site, x.signal.camera,
      if x.signal.rule.Some? then x.signal.rule else if x.rule.Some? then Some(x.rule.value.id) else None,
      x.signal.eventType, SeverityOf(x), x.signal.confidence, x.now)
  }

  function Upgraded(e: Incident, x: Input): Incident {
    e.(eventType := FIRE_AND_SMOKE, severity := CRITICAL,
       confidence := if e.confidence < x.signal.confidence then x.signal.confidence else e.confidence)
  }

  /** The notification rows written for an alert: one per recipient whose threshold is met. */
  function Dispatched(x: Input, event: Id, severity: Severity, t: EventType, recipients: seq<NotifyRule>):
      seq<Notification> {
    if recipients == [] then []
    else
      var n := |recipients| - 1;
      Dispatched(x, event, severity, t, recipients[..n])
      + if Rank(severity) < Rank(recipients[n].minSeverity) then []
        else [Notification(x.signal.org, event, recipients[n].id, severity, t)]
  }

  /** What the call returns. */
  function Outcome(s: Store, x: Input): Result<DetectionResult, Failure> {
    if Disabled(x) then Err(RuleDisabled)
    else if Filtered(x) then Ok(NoResult(x))
    else
      var active, up := Active(s, x), Upgrades(s, x);
      var event := active.GetOr(x.newId);
      var severity := if up then CRITICAL else SeverityOf(x);
      var t: EventType := if up then FIRE_AND_SMOKE else x.signal.eventType;
      var alerted := active.None? || up;
      Ok(DetectionResult(Some(event), t, severity, active.None?, alerted,
        if alerted then |Dispatched(x, event, severity, t, x.recipients)| else 0, up))
  }

  /** What the call leaves in the tables. A thrown error rolls the transaction back. */
  function After(s: Store, x: Input): Store {
    if !Accepted(x) then s
    else
      var active, up := Active(s, x), Upgrades(s, x);
      var event := active.GetOr(x.newId);
      var severity := if up then CRITICAL else SeverityOf(x);
      var t: EventType := if up then FIRE_AND_SMOKE else x.signal.eventType;
      var slot := SlotOf(x);
      var lastAlertAt :=
        if slot in s.cooldowns && s.cooldowns[slot].expiresAt > x.now then s.cooldowns[slot].lastAlertAt else x.now;
      Store(
        if active.None? then s.events[event := Opened(x)]
        else if up then s.events[event := Upgraded(s.events[event], x)]
        else s.events,
        s.cooldowns[slot := Cooldown(Some(event), lastAlertAt, x.now + CooldownSeconds(x) * 1000)],
        if x.signal.snapshot then s.evidence + [Evidence(x.signal.org, event)] else s.evidence,
        if active.None? || up then s.notifications + Dispatched(x, event, severity, t, x.recipients)
        else s.notifications,
        if active.None? || up
        then s.audits + [Audit(x.signal.org, if active.None? then "incident.create" else "incident.upgrade", event)]
        else s.audits)
  }

  /** The engine over its tables, statement by statement. */
  class DetectionEngine {
    var events: map<Id, Incident>
    var cooldowns: map<Slot, Cooldown>
    var evidence: seq<Evidence>
    var notifications: seq<Notification>
    var audits: seq<Audit>

    ghost function Contents(): Store
      reads this
    {
      Store(events, cooldowns, evidence, notifications, audits)
    }

    constructor ()
      ensures Contents() == EMPTY
    {
      events, cooldowns, evidence, notifications, audits := map[], map[], [], [], [];
    }

    method MaybeAttachEvidence(x: Input, event: Id)
      modifies this`evidence
      ensures evidence == if x.signal.snapshot then old(evidence) + [Evidence(x.signal.org, event)] else old(evidence)
    {
      if !x.signal.snapshot { return; }
      evidence := evidence + [Evidence(x.signal.org, event)];
    }

    method DispatchNotifications(x: Input, event: Id, severity: Severity, t: EventType) returns (sent: nat)
      modifies this`notifications
      ensures notifications == old(notifications) + Dispatched(x, event, severity, t, x.recipients)
      ensures sent == |Dispatched(x, event, severity, t, x.recipients)|
    {
      sent := 0;
      var i := 0;
      while i < |x.recipients|
        invariant 0 <= i <= |x.recipients|
        invariant notifications == old(notifications) + Dispatched(x, event, severity, t, x.recipients[..i])
        invariant sent == |Dispatched(x, event, severity, t, x.recipients[..i])|
      {
        assert x.recipients[..i + 1][..i] == x.recipients[..i];
        if Rank(severity) >= Rank(x.recipients[i].minSeverity) {
          notifications := notifications + [Notification(x.signal.org, event, x.recipients[i].id, severity, t)];
          sent := sent + 1;
        }
        i := i + 1;
      }
      assert x.recipients[..i] == x.recipients;
    }

    /** Fire and smoke correlation on the active incident. */
    method Correlate(x: Input, event: Id) returns (upgraded: bool)
      modifies this`events
      ensures upgraded <==>
        && event in old(events) && IsFireType(x.signal.eventType)
        && Complementary(old(events)[event].eventType, x.signal.eventType)
        && x.now - old(events)[event].occurredAt <= CORRELATION_WINDOW_MS
      ensures events == if upgraded then old(events)[event := Upgraded(old(events)[event], x)] else old(events)
    {
      upgraded := false;
      if IsFireType(x.signal.eventType) {
        if event in events {
          var row := events[event];
          var complementary :=
            || (row.eventType == FIRE && x.signal.eventType == SMOKE)
            || (row.eventType == SMOKE && x.signal.eventType == FIRE);
          var recent := x.now - row.occurredAt <= CORRELATION_WINDOW_MS;
          if complementary && recent && row.eventType != FIRE_AND_SMOKE {
            var greatest := if row.confidence < x.signal.confidence then x.signal.confidence else row.confidence;
            events := events[event := row.(eventType := FIRE_AND_SMOKE, severity := CRITICAL, confidence := greatest)];
            upgraded := true;
          }
        }
      }
    }

    method ProcessDetection(x: Input) returns (r: Result<DetectionResult, Failure>)
      modifies this
      ensures r == Outcome(old(Contents()), x)
      ensures Contents() == After(old(Contents()), x)
    {
      hide SlotOf, Opened, SeverityOf;
      var signal := x.signal;
      if x.rule.Some? && !x.rule.value.enabled { return Err(RuleDisabled); }
      var minConfidence := if x.rule.Some? then x.rule.value.minConfidence else 0.0;
      if signal.confidence < minConfidence { return Ok(NoResult(x)); }
      if x.rule.Some? && x.rule.value.minDurationMs > 0 && signal.durationMs.GetOr(0) < x.rule.value.minDurationMs {
        return Ok(NoResult(x));
      }
      var severity := SeverityOf(x);
      var cooldownSeconds := CooldownSeconds(x);
      var slot := SlotOf(x);
      var withinCooldown := slot in cooldowns && cooldowns[slot].expiresAt > x.now;

      var event: Id;
      var created, upgraded := false, false;
      if withinCooldown && cooldowns[slot].event.Some? {
        event := cooldowns[slot].event.value;
        upgraded := Correlate(x, event);
        MaybeAttachEvidence(x, event);
      } else {
        event := x.newId;
        events := events[event := Opened(x)];
        created := true;
        MaybeAttachEvidence(x, event);
      }

      var expiresAt := x.now + cooldownSeconds * 1000;
      var lastAlertAt :=
        if slot in cooldowns && cooldowns[slot].expiresAt > x.now then cooldowns[slot].lastAlertAt else x.now;
      cooldowns := cooldowns[slot := Cooldown(Some(event), lastAlertAt, expiresAt)];

      var finalType: EventType := if upgraded then FIRE_AND_SMOKE else signal.eventType;
      var finalSeverity := if upgraded then CRITICAL else severity;
      var alerted := created || upgraded;
      var notified := 0;
      if alerted {
        notified := DispatchNotifications(x, event, finalSeverity, finalType);
        audits := audits + [Audit(signal.org, if created then "incident.create" else "incident.upgrade", event)];
      }
      r := Ok(DetectionResult(Some(event), finalType, finalSeverity, created, alerted, notified, upgraded));
    }
  }

  // ---------------------------------------------------------------- runs

  /** The tables after a run of detections, oldest first. */
  function Exec(run: seq<Input>): Store {
    if run == [] then EMPTY else After(Exec(run[..|run| - 1]), run[|run| - 1])
  }

  /** The database draws a new id every time, and camera ids are identifiers without a colon. */
  ghost predicate Legal(run: seq<Input>) {
    && (forall i, j :: 0 <= i < j < |run| ==> run[i].newId != run[j].newId)
    && (forall i :: 0 <= i < |run| ==> ':' !in run[i].signal.camera)
  }

  /** The accepted detections of one cooldown slot, oldest first. */
  function Project(run: seq<Input>, slot: Slot): seq<Input> {
    if run == [] then []
    else
      var n := |run| - 1;
      Project(run[..n], slot) + Own(run[n], slot)
  }

  function Own(x: Input, slot: Slot): seq<Input> {
    if Accepted(x) && SlotOf(x) == slot then [x] else []
  }

  lemma {:induction false} ExecAppend(run: seq<Input>, x: Input)
    ensures Exec(run + [x]) == After(Exec(run), x)
    ensures forall slot :: Project(run + [x], slot) == Project(run, slot) + Own(x, slot)
  {
    assert (run + [x])[..|run|] == run;
  }

  /** Every cooldown row points at an incident of its own slot, and ids come from the run. */
  ghost predicate Inv(run: seq<Input>, s: Store) {
    && (forall slot :: slot in s.cooldowns ==>
          && s.cooldowns[slot].event.Some? && s.cooldowns[slot].event.value in s.events
          && SlotOfIncident(s.events[s.cooldowns[slot].event.value]) == slot)
    && (forall id :: id in s.events ==> exists i :: 0 <= i < |run| && run[i].newId == id)
  }

  ghost predicate NewTo(run: seq<Input>, x: Input) {
    forall i :: 0 <= i < |run| ==> run[i].newId != x.newId
  }

  lemma LegalInit(run: seq<Input>)
    requires Legal(run) && run != []
    ensures var n := |run| - 1; Legal(run[..n]) && NewTo(run[..n], run[n])
  {
  }

  lemma InvStart()
    ensures Inv([], EMPTY)
  {
  }

  lemma {:induction false} CooldownPointsHome(run: seq<Input>)
    requires Legal(run)
    ensures Inv(run, Exec(run))
  {
    hide SlotOf, SlotOfIncident, After, Inv, Legal, NewTo;
    if run == [] {
      InvStart();
    } else {
      var n := |run| - 1;
      var before, x := run[..n], run[n];
      LegalInit(run);
      CooldownPointsHome(before);
      InvStep(before, Exec(before), x);
      assert run == before + [x];
    }
  }

  lemma {:induction false} InvStep(run: seq<Input>, s: Store, x: Input)
    requires Inv(run, s) && NewTo(run, x)
    ensures Inv(run + [x], After(s, x))
  {
    hide SlotOf, SlotOfIncident, Dispatched;
    OpenedInSlot(x);
    if Upgrades(s, x) { UpgradeKeepsSlot(s.events[Active(s, x).value], x); }
    var s', r := After(s, x), run + [x];
    assert r[|run|] == x && forall i :: 0 <= i < |run| ==> r[i] == run[i];
    forall id | id in s'.events ensures exists i :: 0 <= i < |r| && r[i].newId == id {
      if id in s.events {
        var i :| 0 <= i < |run| && run[i].newId == id;
        assert r[i].newId == id;
      } else {
        assert r[|run|].newId == id;
      }
    }
  }

  /** All fire types share one slot, so an upgrade stays in it. */
  lemma UpgradeKeepsSlot(e: Incident, x: Input)
    requires IsFireType(e.eventType)
    ensures SlotOfIncident(Upgraded(e, x)) == SlotOfIncident(e)
  {
  }

  /** A new incident lies in the slot of the detection that opened it. */
  lemma OpenedInSlot(x: Input)
    ensures SlotOfIncident(Opened(x)) == SlotOf(x)
  {
  }

  // ---------------------------------------------------------------- bursts

  /** The cooldown row of a slot is what the last accepted detection of the slot wrote. */
  lemma {:induction false} CooldownIsLast(run: seq<Input>, slot: Slot)
    requires Legal(run)
    ensures var p, c := Project(run, slot), Exec(run).cooldowns;
            && (slot in c <==> p != [])
            && (p != [] ==>
                  c[slot].event.Some? && c[slot].expiresAt == p[|p| - 1].now + 1000 * CooldownSeconds(p[|p| - 1]))
  {
    hide Bucket, Dispatched;
    if run != [] {
      var n := |run| - 1;
      CooldownIsLast(run[..n], slot);
      CooldownPointsHome(run[..n]);
    }
  }

  /** The time from one accepted detection to the next is at least the cooldown the first one set. */
  predicate Gap(x: Input, y: Input) {
    y.now - x.now >= 1000 * CooldownSeconds(x)
  }

  /** An accepted detection opens a new incident exactly when it is the first of its slot or comes after a gap. */
  lemma {:induction false} OpensExactlyAfterGap(run: seq<Input>, x: Input)
    requires Legal(run) && Accepted(x)
    ensures var p := Project(run, SlotOf(x));
            Outcome(Exec(run), x).value.created <==> (p == [] || Gap(p[|p| - 1], x))
    ensures Outcome(Exec(run), x).value.created <==> Active(Exec(run), x).None?
  {
    hide Bucket, Dispatched;
    CooldownIsLast(run, SlotOf(x));
  }

  /** The positions of an accepted sequence that follow a gap. */
  ghost function Gaps(p: seq<Input>): set<nat> {
    set i: nat | i < |p| && FollowsGap(p, i)
  }

  ghost predicate FollowsGap(p: seq<Input>, i: nat) {
    1 <= i < |p| && Gap(p[i - 1], p[i])
  }

  ghost function IncidentsOf(s: Store, slot: Slot): set<Id> {
    set id | id in s.events && SlotOfIncident(s.events[id]) == slot
  }

  /** Burst theorem: a slot has one incident per burst, whatever arrives on other slots or is rejected. */
  lemma {:induction false} BurstTheorem(run: seq<Input>, slot: Slot)
    requires Legal(run)
    ensures var p := Project(run, slot);
            |IncidentsOf(Exec(run), slot)| == if p == [] then 0 else 1 + |Gaps(p)|
  {
    hide SlotOf, SlotOfIncident, After, Outcome, Inv, Legal, NewTo, Gaps, IncidentsOf;
    if run == [] {
      NoIncidents(slot);
    } else {
      var n := |run| - 1;
      var before, x := run[..n], run[n];
      LegalInit(run);
      BurstTheorem(before, slot);
      CooldownPointsHome(before);
      IncidentsStep(before, Exec(before), x, slot);
      var p := Project(before, slot);
      if Accepted(x) && SlotOf(x) == slot {
        OpensExactlyAfterGap(before, x);
        GapsAppend(p, x);
      } else {
        assert p + [] == p;
      }
    }
  }

  lemma NoIncidents(slot: Slot)
    ensures IncidentsOf(EMPTY, slot) == {}
  {
  }

  lemma {:induction false} IncidentsStep(run: seq<Input>, s: Store, x: Input, slot: Slot)
    requires Inv(run, s) && NewTo(run, x)
    ensures |IncidentsOf(After(s, x), slot)|
         == |IncidentsOf(s, slot)| + if Accepted(x) && Active(s, x).None? && SlotOf(x) == slot then 1 else 0
  {
    IncidentsSet(run, s, x, slot);
  }

  lemma {:induction false} IncidentsSet(run: seq<Input>, s: Store, x: Input, slot: Slot)
    requires Inv(run, s) && NewTo(run, x)
    ensures IncidentsOf(After(s, x), slot)
         == IncidentsOf(s, slot) + if Accepted(x) && Active(s, x).None? && SlotOf(x) == slot then {x.newId} else {}
    ensures x.newId !in s.events
  {
    hide SlotOf, SlotOfIncident, Dispatched;
    OpenedInSlot(x);
    if Upgrades(s, x) { UpgradeKeepsSlot(s.events[Active(s, x).value], x); }
  }

  lemma {:induction false} GapsAppend(p: seq<Input>, x: Input)
    ensures |Gaps(p + [x])| == |Gaps(p)| + if p != [] && Gap(p[|p| - 1], x) then 1 else 0
    ensures p == [] ==> Gaps(p) == {}
  {
    var q := p + [x];
    assert forall i: nat | i < |p| :: FollowsGap(q, i) == FollowsGap(p, i);
    assert FollowsGap(q, |p|) <==> p != [] && Gap(p[|p| - 1], x);
    if p != [] && Gap(p[|p| - 1], x) {
      assert Gaps(q) == Gaps(p) + {|p|};
    } else {
      assert Gaps(q) == Gaps(p);
    }
  }

  /** All that concerns one slot. */
  datatype SlotView = SlotView(events: map<Id, Incident>, cooldown: Option<Cooldown>)

  ghost function View(s: Store, slot: Slot): SlotView {
    SlotView(
      map id | id in s.events && SlotOfIncident(s.events[id]) == slot :: s.events[id],
      if slot in s.cooldowns then Some(s.cooldowns[slot]) else None)
  }

  /** Traffic on other slots and rejected detections leave no trace: a slot looks as if only its own
      accepted detections had been processed. */
  lemma {:induction false} SlotIndependence(run: seq<Input>, slot: Slot)
    requires Legal(run)
    ensures Legal(Project(run, slot))
    ensures View(Exec(run), slot) == View(Exec(Project(run, slot)), slot)
  {
    hide SlotOf, SlotOfIncident, After, Inv, View, Accepted, Legal, NewTo;
    if run != [] {
      var n := |run| - 1;
      var before, x := run[..n], run[n];
      LegalInit(run);
      SlotIndependence(before, slot);
      CooldownPointsHome(before);
      var p := Project(before, slot);
      if Accepted(x) && SlotOf(x) == slot {
        ExecAppend(p, x);
        ProjectNew(before, slot, x);
        CameraOf(run, n);
        LegalAppend(p, x);
        CooldownPointsHome(p);
        ViewAfter(before, Exec(before), x);
        ViewAfter(p, Exec(p), x);
      } else {
        ForeignStep(before, Exec(before), x, slot);
        assert p + [] == p;
      }
    }
  }

  lemma CameraOf(run: seq<Input>, i: nat)
    requires Legal(run) && i < |run|
    ensures ':' !in run[i].signal.camera
  {
  }

  lemma {:induction false} ProjectNew(run: seq<Input>, slot: Slot, x: Input)
    requires NewTo(run, x)
    ensures NewTo(Project(run, slot), x)
  {
    if run != [] { ProjectNew(run[..|run| - 1], slot, x); }
  }

  lemma LegalAppend(p: seq<Input>, x: Input)
    requires Legal(p) && NewTo(p, x) && ':' !in x.signal.camera
    ensures Legal(p + [x])
  {
  }

  /** What an accepted detection does to its own slot, computed from that slot alone. */
  ghost function Advance(v: SlotView, x: Input): SlotView {
    var live := v.cooldown.Some? && v.cooldown.value.expiresAt > x.now;
    var active := if live then v.cooldown.value.event else None;
    var known := active.Some? && active.value in v.events;
    var up := && known && IsFireType(x.signal.eventType)
              && Complementary(v.events[active.value].eventType, x.signal.eventType)
              && x.now - v.events[active.value].occurredAt <= CORRELATION_WINDOW_MS;
    SlotView(
      if active.None? then v.events[x.newId := Opened(x)]
      else if up then v.events[active.value := Upgraded(v.events[active.value], x)]
      else v.events,
      Some(Cooldown(Some(active.GetOr(x.newId)), if live then v.cooldown.value.lastAlertAt else x.now,
        x.now + CooldownSeconds(x) * 1000)))
  }

  lemma {:induction false} ViewAfter(run: seq<Input>, s: Store, x: Input)
    requires Inv(run, s) && Accepted(x) && NewTo(run, x)
    ensures View(After(s, x), SlotOf(x)) == Advance(View(s, SlotOf(x)), x)
  {
    hide SlotOf, SlotOfIncident, Dispatched;
    OpenedInSlot(x);
    if Upgrades(s, x) { UpgradeKeepsSlot(s.events[Active(s, x).value], x); }
    var slot := SlotOf(x);
    var v, w := View(s, slot), Advance(View(s, slot), x);
    var s' := After(s, x);
    assert SlotOfIncident(Opened(x)) == slot;
    assert s'.cooldowns[slot] == w.cooldown.value;
    assert Upgrades(s, x) ==> IsFireType(s.events[Active(s, x).value].eventType);
    assert View(s', slot).events == w.events;
  }

  lemma {:induction false} ForeignStep(run: seq<Input>, s: Store, x: Input, slot: Slot)
    requires Inv(run, s) && (SlotOf(x) != slot || !Accepted(x))
    requires NewTo(run, x)
    ensures View(After(s, x), slot) == View(s, slot)
  {
    hide SlotOf, SlotOfIncident, Dispatched;
    OpenedInSlot(x);
    if Upgrades(s, x) { UpgradeKeepsSlot(s.events[Active(s, x).value], x); }
  }

  // ---------------------------------------------------------------- the life of one incident

  /** How an incident may change: the identity stays, and the type only from FIRE or SMOKE to FIRE_AND_SMOKE. */
  ghost predicate Evolves(e: Incident, e': Incident) {
    && e'.org == e.org && e'.site == e.site && e'.camera == e.camera && e'.rule == e.rule
    && e'.occurredAt == e.occurredAt
    && Rank(e'.severity) >= Rank(e.severity) && e'.confidence >= e.confidence
    && (e'.eventType == e.eventType || ((e.eventType.FIRE? || e.eventType.SMOKE?) && e'.eventType == FIRE_AND_SMOKE))
    && (e'.eventType == e.eventType ==> e' == e)
  }

  /** Over any stretch of a run, from m to n detections, an incident only evolves. */
  lemma {:induction false} IncidentLife(run: seq<Input>, m: nat, n: nat, id: Id)
    requires Legal(run) && m <= n <= |run| && id in Exec(run[..m]).events
    ensures id in Exec(run[..n]).events && Evolves(Exec(run[..m]).events[id], Exec(run[..n]).events[id])
    decreases n
  {
    hide SlotOf, SlotOfIncident, After, Inv;
    if m < n {
      IncidentLife(run, m, n - 1, id);
      assert run[..n] == run[..n - 1] + [run[n - 1]];
      ExecAppend(run[..n - 1], run[n - 1]);
      CooldownPointsHome(run[..n - 1]);
      EvolvesStep(run[..n - 1], Exec(run[..n - 1]), run[n - 1], id);
    }
  }

  lemma {:induction false} EvolvesStep(run: seq<Input>, s: Store, x: Input, id: Id)
    requires Inv(run, s) && id in s.events && NewTo(run, x)
    ensures id in After(s, x).events && Evolves(s.events[id], After(s, x).events[id])
  {
    hide SlotOf, SlotOfIncident, Dispatched;
  }

  /** The type of an incident changes exactly when an accepted complementary fire or smoke signal of the
      same slot arrives before the cooldown runs out and within 60 s of the occurrence. */
  lemma {:induction false} TypeChangesExactly(run: seq<Input>, x: Input, id: Id)
    requires Legal(run + [x]) && id in Exec(run).events
    ensures var e, p := Exec(run).events[id], Project(run, SlotOf(x));
            After(Exec(run), x).events[id].eventType != e.eventType
            <==> && Accepted(x) && p != [] && !Gap(p[|p| - 1], x)
                 && SlotOf(x) in Exec(run).cooldowns && Exec(run).cooldowns[SlotOf(x)].event == Some(id)
                 && {e.eventType, x.signal.eventType} == {FIRE, SMOKE} && x.now - e.occurredAt <= 60_000
  {
    hide CooldownKey, Dispatched, SlotOf, Exec, Legal, Project, Accepted, SeverityOf;
    LegalPrefix(run, x);
    CooldownPointsHome(run);
    CooldownIsLast(run, SlotOf(x));
    var e := Exec(run).events[id];
    BothOrNeither(e.eventType, x.signal.eventType);
    TypeStep(Exec(run), x, id);
  }

  lemma TypeStep(s: Store, x: Input, id: Id)
    requires id in s.events && x.newId !in s.events
    ensures id in After(s, x).events
    ensures After(s, x).events[id].eventType != s.events[id].eventType
       <==> && Accepted(x) && SlotOf(x) in s.cooldowns && s.cooldowns[SlotOf(x)].event == Some(id)
            && s.cooldowns[SlotOf(x)].expiresAt > x.now
            && Complementary(s.events[id].eventType, x.signal.eventType)
            && x.now - s.events[id].occurredAt <= CORRELATION_WINDOW_MS
  {
    hide SlotOf, Dispatched, SeverityOf, Accepted;
  }

  lemma BothOrNeither(t: EventType, u: EventType)
    ensures {t, u} == {FIRE, SMOKE} <==> Complementary(t, u)
  {
    if {t, u} == {FIRE, SMOKE} { assert FIRE in {t, u} && SMOKE in {t, u}; }
  }

  lemma LegalPrefix(run: seq<Input>, x: Input)
    requires Legal(run + [x])
    ensures Legal(run) && NewTo(run, x)
  {
    var r := run + [x];
    assert r[|run|] == x;
    assert forall i :: 0 <= i < |run| ==> r[i] == run[i];
  }

  // ---------------------------------------------------------------- what a burst stores

  /** This detection confirms the one that opened the incident: complementary, and within 60 s of it. */
  predicate Confirms(opener: Input, x: Input) {
    Complementary(opener.signal.eventType, x.signal.eventType) && x.now - opener.now <= CORRELATION_WINDOW_MS
  }

  /** The first detection of its slot, or the first after a gap. */
  ghost predicate IsOpener(p: seq<Input>, i: nat) {
    i < |p| && (i == 0 || FollowsGap(p, i))
  }

  /** No pause from position i to position j is as long as the cooldown running then. */
  ghost predicate NoGap(p: seq<Input>, i: nat, j: nat) {
    i <= j < |p| && forall m: nat :: i < m <= j ==> !FollowsGap(p, m)
  }

  /** Where the burst of position k began. */
  ghost function Opener(p: seq<Input>, k: nat): (o: nat)
    requires k < |p|
    ensures o <= k && IsOpener(p, o) && NoGap(p, o, k)
  {
    if IsOpener(p, k) then k else Opener(p, k - 1)
  }

  /** Some detection of the burst opened at i confirms the opener. */
  ghost predicate Correlates(p: seq<Input>, i: nat) {
    exists j: nat :: ConfirmedAt(p, i, j)
  }

  ghost predicate ConfirmedAt(p: seq<Input>, i: nat, j: nat) {
    NoGap(p, i, j) && Confirms(p[i], p[j])
  }

  lemma ConfirmedInside(p: seq<Input>, i: nat, j: nat)
    requires ConfirmedAt(p, i, j)
    ensures i <= j < |p|
  {
  }

  /** The first detection from position j on to confirm the opener. */
  ghost function FirstConfirmer(p: seq<Input>, i: nat, j: nat): (k: nat)
    requires exists m: nat :: j <= m && ConfirmedAt(p, i, m)
    ensures j <= k && ConfirmedAt(p, i, k) && forall m: nat :: j <= m < k ==> !ConfirmedAt(p, i, m)
    decreases |p| - j
  {
    if ConfirmedAt(p, i, j) then j
    else
      assert j < |p| by {
        var m: nat :| j <= m && ConfirmedAt(p, i, m);
        ConfirmedInside(p, i, m);
      }
      FirstConfirmer(p, i, j + 1)
  }

  /** The whole row a burst leaves: as opened, or upgraded by the first detection to confirm it. */
  ghost function BurstRow(p: seq<Input>, i: nat): Incident
    requires i < |p|
  {
    if Correlates(p, i) then
      assert exists m: nat :: 0 <= m && ConfirmedAt(p, i, m);
      var k := FirstConfirmer(p, i, 0);
      ConfirmedInside(p, i, k);
      Upgraded(Opened(p[i]), p[k])
    else Opened(p[i])
  }

  ghost function BurstType(p: seq<Input>, i: nat): EventType
    requires i < |p|
  {
    if Correlates(p, i) then FIRE_AND_SMOKE else p[i].signal.eventType
  }

  ghost function BurstSeverity(p: seq<Input>, i: nat): Severity
    requires i < |p|
  {
    if Correlates(p, i) then CRITICAL else SeverityOf(p[i])
  }

  /** The incident opened at i holds what its burst makes of it. */
  ghost predicate Holds(v: SlotView, p: seq<Input>, i: nat)
    requires i < |p|
  {
    p[i].newId in v.events && v.events[p[i].newId] == BurstRow(p, i)
  }

  /** So do all incidents of the slot, and its cooldown row is the last detection's, pointing at the last burst's. */
  ghost predicate Tells(v: SlotView, p: seq<Input>) {
    && (forall i: nat :: IsOpener(p, i) ==> Holds(v, p, i))
    && (p == [] ==> v.cooldown.None?)
    && (p != [] ==>
          && v.cooldown.Some?
          && v.cooldown.value.event == Some(p[Opener(p, |p| - 1)].newId)
          && v.cooldown.value.lastAlertAt == p[Opener(p, |p| - 1)].now
          && v.cooldown.value.expiresAt == p[|p| - 1].now + 1000 * CooldownSeconds(p[|p| - 1]))
  }

  lemma GapsBefore(p: seq<Input>, x: Input)
    ensures forall m: nat :: m < |p| ==> FollowsGap(p + [x], m) == FollowsGap(p, m)
    ensures FollowsGap(p + [x], |p|) <==> p != [] && Gap(p[|p| - 1], x)
    ensures forall i: nat, j: nat :: j < |p| ==> NoGap(p + [x], i, j) == NoGap(p, i, j)
    ensures forall i: nat :: i < |p| ==> IsOpener(p + [x], i) == IsOpener(p, i)
  {
    var q := p + [x];
    assert forall m :: 0 <= m < |p| ==> q[m] == p[m];
    assert forall m: nat :: m < |p| ==> FollowsGap(q, m) == FollowsGap(p, m);
  }

  /** A burst has one opener. */
  lemma {:induction false} OneOpener(p: seq<Input>, i: nat, k: nat)
    requires k < |p| && IsOpener(p, i)
    ensures NoGap(p, i, k) <==> i == Opener(p, k)
  {
    var o := Opener(p, k);
    assert i < o ==> FollowsGap(p, o);
    assert o < i ==> FollowsGap(p, i);
  }

  lemma {:induction false} OpenerAppend(p: seq<Input>, x: Input, k: nat)
    requires k < |p|
    ensures Opener(p + [x], k) == Opener(p, k)
  {
    GapsBefore(p, x);
    OneOpener(p + [x], Opener(p, k), k);
  }

  /** What one more detection adds to the burst opened at i. */
  lemma CorrelatesAppend(p: seq<Input>, x: Input, i: nat)
    requires i < |p|
    ensures Correlates(p + [x], i)
       <==> Correlates(p, i) || (NoGap(p, i, |p| - 1) && !Gap(p[|p| - 1], x) && Confirms(p[i], x))
  {
    var q := p + [x];
    GapsBefore(p, x);
    assert q[i] == p[i] && q[|p|] == x;
    assert NoGap(q, i, |p|) <==> NoGap(p, i, |p| - 1) && !FollowsGap(q, |p|);
    hide NoGap, FollowsGap, Gap, Confirms;
    if j: nat :| ConfirmedAt(p, i, j) {
      assert NoGap(p, i, j) && j < |p| by { LengthOfBurst(p, i, j); }
      assert q[j] == p[j];
      assert ConfirmedAt(q, i, j);
    }
    if j: nat :| ConfirmedAt(q, i, j) {
      LengthOfBurst(q, i, j);
      if j < |p| { assert q[j] == p[j] && ConfirmedAt(p, i, j); }
    }
    if NoGap(q, i, |p|) && Confirms(p[i], x) { assert ConfirmedAt(q, i, |p|); }
  }

  lemma ConfirmedAppend(p: seq<Input>, x: Input, i: nat, j: nat)
    requires i < |p| && j < |p|
    ensures ConfirmedAt(p + [x], i, j) <==> ConfirmedAt(p, i, j)
  {
    GapsBefore(p, x);
    assert (p + [x])[i] == p[i] && (p + [x])[j] == p[j];
    hide NoGap, FollowsGap;
  }

  /** What one more detection makes of the row of the burst opened at i. */
  lemma {:induction false} RowAppend(p: seq<Input>, x: Input, i: nat)
    requires i < |p|
    ensures BurstRow(p + [x], i)
         == if !Correlates(p, i) && NoGap(p, i, |p| - 1) && !Gap(p[|p| - 1], x) && Confirms(p[i], x)
            then Upgraded(Opened(p[i]), x) else BurstRow(p, i)
  {
    var q := p + [x];
    CorrelatesAppend(p, x, i);
    assert q[i] == p[i] && q[|p|] == x;
    hide NoGap, FollowsGap, Gap, Confirms, ConfirmedAt;
    forall j: nat | j < |p| ensures ConfirmedAt(q, i, j) <==> ConfirmedAt(p, i, j) { ConfirmedAppend(p, x, i, j); }
    if Correlates(q, i) {
      assert exists m: nat :: 0 <= m && ConfirmedAt(q, i, m);
      var k := FirstConfirmer(q, i, 0);
      ConfirmedInside(q, i, k);
      if Correlates(p, i) {
        assert exists m: nat :: 0 <= m && ConfirmedAt(p, i, m);
        var l := FirstConfirmer(p, i, 0);
        ConfirmedInside(p, i, l);
        assert k == l && q[k] == p[l];
      } else {
        NotConfirmed(p, i, k);
      }
    }
  }

  lemma NotConfirmed(p: seq<Input>, i: nat, k: nat)
    requires !Correlates(p, i)
    ensures !ConfirmedAt(p, i, k)
  {
  }

  /** Type and severity of the row, said without the confirming detection. */
  lemma BurstRowIs(p: seq<Input>, i: nat)
    requires i < |p|
    ensures BurstRow(p, i).eventType == BurstType(p, i) && BurstRow(p, i).severity == BurstSeverity(p, i)
    ensures BurstRow(p, i).occurredAt == p[i].now
  {
  }

  lemma LengthOfBurst(p: seq<Input>, i: nat, j: nat)
    requires NoGap(p, i, j)
    ensures i <= j < |p|
  {
  }

  /** A detection alone in its burst. */
  lemma AloneInBurst(p: seq<Input>, x: Input)
    ensures !Correlates(p + [x], |p|)
  {
    var q := p + [x];
    assert forall j: nat :: NoGap(q, |p|, j) ==> j == |p|;
    assert !Confirms(q[|p|], q[|p|]);
  }

  /** An accepted detection keeps the account of its slot. */
  lemma {:induction false} AdvanceTells(v: SlotView, p: seq<Input>, x: Input)
    requires Tells(v, p) && Legal(p) && NewTo(p, x)
    ensures Tells(Advance(v, x), p + [x])
  {
    var q, w := p + [x], Advance(v, x);
    GapsBefore(p, x);
    AloneInBurst(p, x);
    if p == [] || Gap(p[|p| - 1], x) {
      OpensBurst(v, p, x);
    } else {
      JoinsBurst(v, p, x);
    }
  }

  lemma {:induction false} OpensBurst(v: SlotView, p: seq<Input>, x: Input)
    requires Tells(v, p) && NewTo(p, x) && (p == [] || Gap(p[|p| - 1], x))
    ensures Tells(Advance(v, x), p + [x])
  {
    var q, w := p + [x], Advance(v, x);
    GapsBefore(p, x);
    AloneInBurst(p, x);
    assert w.events == v.events[x.newId := Opened(x)];
    assert IsOpener(q, |p|) && BurstRow(q, |p|) == Opened(x);
    OneOpener(q, |p|, |p|);
    hide Advance, FollowsGap, Correlates, Opened, Opener, BurstRow, Gap;
    forall i: nat | IsOpener(q, i) ensures Holds(w, q, i) {
      if i < |p| {
        assert Holds(v, p, i);
        RowAppend(p, x, i);
        assert q[i] == p[i];
      } else {
        assert q[i] == x;
      }
    }
  }

  lemma {:induction false} OtherBurst(p: seq<Input>, o: nat, i: nat)
    requires Legal(p) && p != [] && o == Opener(p, |p| - 1) && IsOpener(p, i) && i != o
    ensures !NoGap(p, i, |p| - 1) && p[i].newId != p[o].newId
  {
    OneOpener(p, i, |p| - 1);
    hide NoGap, Opener;
  }

  lemma {:induction false} JoinsBurst(v: SlotView, p: seq<Input>, x: Input)
    requires Tells(v, p) && Legal(p) && NewTo(p, x) && p != [] && !Gap(p[|p| - 1], x)
    ensures Tells(Advance(v, x), p + [x])
  {
    var q, w, o := p + [x], Advance(v, x), Opener(p, |p| - 1);
    GapsBefore(p, x);
    assert NoGap(p, o, |p| - 1) && Holds(v, p, o);
    assert NoGap(q, o, |p|);
    OneOpener(q, o, |p|);
    RowAppend(p, x, o);
    BurstRowIs(p, o);
    var up := Confirms(p[o], x) && !Correlates(p, o);
    assert w.events == if up then v.events[p[o].newId := Upgraded(v.events[p[o].newId], x)] else v.events;
    assert q[o] == p[o];
    assert Holds(w, q, o);
    hide Advance, FollowsGap, Correlates, Opened, Opener, BurstRow, Upgraded, Confirms, Gap;
    forall i: nat | IsOpener(q, i) ensures Holds(w, q, i) {
      if i != o {
        OtherBurst(p, o, i);
        RowAppend(p, x, i);
        assert q[i] == p[i];
        assert Holds(v, p, i);
      }
    }
  }

  /** In every reachable state the incidents of a slot hold what their bursts make of them. */
  lemma {:induction false} SlotTells(run: seq<Input>, slot: Slot)
    requires Legal(run)
    ensures Legal(Project(run, slot)) && Tells(View(Exec(run), slot), Project(run, slot))
  {
    hide SlotOf, SlotOfIncident, After, Inv, View, Accepted, Legal, NewTo, Tells, Advance;
    SlotIndependence(run, slot);
    if run == [] {
      NothingTells(slot);
    } else {
      var n := |run| - 1;
      var before, x := run[..n], run[n];
      LegalInit(run);
      SlotTells(before, slot);
      CooldownPointsHome(before);
      if Accepted(x) && SlotOf(x) == slot {
        ProjectNew(before, slot, x);
        ViewAfter(before, Exec(before), x);
        AdvanceTells(View(Exec(before), slot), Project(before, slot), x);
      } else {
        ForeignStep(before, Exec(before), x, slot);
        assert Project(before, slot) + [] == Project(before, slot);
      }
    }
  }

  lemma NothingTells(slot: Slot)
    ensures Tells(View(EMPTY, slot), [])
  {
  }

  /** What the tables hold for every burst, finished or not: the row its opener made, upgraded by the first detection of
      the burst to confirm it, if any does. So the type is FIRE_AND_SMOKE exactly when some detection confirms the
      opener or the burst was opened by a FIRE_AND_SMOKE signal; a confirmed row is CRITICAL and has the greater
      confidence of the opener's and the first confirmer's, any other has the opener's own severity and confidence. */
  lemma {:induction false} StoredByBurst(run: seq<Input>, slot: Slot, i: nat)
    requires Legal(run) && IsOpener(Project(run, slot), i)
    ensures var p, events := Project(run, slot), Exec(run).events; var id := p[i].newId;
            && id in events && events[id] == BurstRow(p, i) && SlotOfIncident(events[id]) == slot
            && events[id].eventType == BurstType(p, i) && events[id].severity == BurstSeverity(p, i)
            && (events[id].eventType == FIRE_AND_SMOKE
                <==> Correlates(p, i) || p[i].signal.eventType == FIRE_AND_SMOKE)
  {
    SlotTells(run, slot);
    BurstRowIs(Project(run, slot), i);
    assert Holds(View(Exec(run), slot), Project(run, slot), i);
    hide SlotOf, SlotOfIncident, BurstRow, Opener, IsOpener, Project, Exec;
  }

  /** This detection is the first of its burst to confirm the opener. */
  ghost predicate ConfirmsFirst(p: seq<Input>, x: Input) {
    p != [] && !Gap(p[|p| - 1], x)
    && var o := Opener(p, |p| - 1); Confirms(p[o], x) && !Correlates(p, o)
  }

  /** The row and the cooldown of the slot's last burst. */
  lemma {:induction false} LastBurst(v: SlotView, p: seq<Input>)
    requires Tells(v, p) && p != []
    ensures var o := Opener(p, |p| - 1);
            && v.cooldown.Some? && v.cooldown.value.event == Some(p[o].newId)
            && v.cooldown.value.expiresAt == p[|p| - 1].now + 1000 * CooldownSeconds(p[|p| - 1])
            && Holds(v, p, o)
  {
    hide Holds, IsOpener;
  }

  lemma ViewOf(s: Store, slot: Slot, id: Id)
    ensures id in View(s, slot).events ==> id in s.events && s.events[id] == View(s, slot).events[id]
    ensures View(s, slot).cooldown == if slot in s.cooldowns then Some(s.cooldowns[slot]) else None
  {
  }

  /** An accepted detection after a gap finds no live incident. */
  lemma {:induction false} NoneLive(run: seq<Input>, x: Input, p: seq<Input>)
    requires Legal(run) && p == Project(run, SlotOf(x)) && (p == [] || Gap(p[|p| - 1], x))
    ensures Active(Exec(run), x).None?
  {
    SlotTells(run, SlotOf(x));
    ViewOf(Exec(run), SlotOf(x), "");
    if p != [] { LastBurst(View(Exec(run), SlotOf(x)), p); }
    hide SlotOf, View, Project, Exec, Legal, Holds, IsOpener;
  }

  /** Otherwise it finds that of the burst it continues, as the burst left it. */
  lemma {:induction false} LiveRow(run: seq<Input>, x: Input, p: seq<Input>)
    requires Legal(run) && p == Project(run, SlotOf(x)) && p != [] && !Gap(p[|p| - 1], x)
    ensures var s, o := Exec(run), Opener(p, |p| - 1);
            && Active(s, x) == Some(p[o].newId) && p[o].newId in s.events
            && s.events[p[o].newId].occurredAt == p[o].now
            && s.events[p[o].newId].eventType == BurstType(p, o)
            && s.events[p[o].newId].severity == BurstSeverity(p, o)
  {
    hide SlotOf, View, Project, Exec, Legal, IsOpener, Tells, BurstType, BurstSeverity, BurstRow;
    BurstRowIs(p, Opener(p, |p| - 1));
    SlotTells(run, SlotOf(x));
    LastBurst(View(Exec(run), SlotOf(x)), p);
    ViewOf(Exec(run), SlotOf(x), p[Opener(p, |p| - 1)].newId);
  }

  /** What the call on the n-th detection of a run answers. */
  ghost function Answer(run: seq<Input>, n: nat): Result<DetectionResult, Failure>
    requires n < |run|
  {
    Outcome(Exec(run[..n]), run[n])
  }

  /** The accepted detections of its slot up to the n-th, with the n-th as the last. */
  ghost function Past(run: seq<Input>, n: nat): (q: seq<Input>)
    requires n < |run|
    ensures q != [] && q[|q| - 1] == run[n]
  {
    Project(run[..n], SlotOf(run[n])) + [run[n]]
  }

  /** The row of the incident the n-th detection is grouped into, after it. */
  ghost function RowFor(run: seq<Input>, n: nat): Option<Incident>
    requires n < |run|
  {
    var r, events := Answer(run, n), After(Exec(run[..n]), run[n]).events;
    if r.Ok? && r.value.event.Some? && r.value.event.value in events then Some(events[r.value.event.value]) else None
  }

  /** The position in Past of the detection that opened the burst. */
  ghost function BurstOf(run: seq<Input>, n: nat): (o: nat)
    requires n < |run|
    ensures o < |Past(run, n)|
  {
    Opener(Past(run, n), |Past(run, n)| - 1)
  }

  lemma {:induction false} LegalTo(run: seq<Input>, n: nat)
    requires Legal(run) && n < |run|
    ensures Legal(run[..n]) && NewTo(run[..n], run[n]) && Legal(run[..n] + [run[n]])
  {
    assert run[..n] + [run[n]] == run[..n + 1];
  }

  lemma {:induction false} PastIsProject(run: seq<Input>, n: nat)
    requires n < |run| && Accepted(run[n])
    ensures run[..n + 1] == run[..n] + [run[n]]
    ensures Past(run, n) == Project(run[..n + 1], SlotOf(run[n]))
    ensures Exec(run[..n + 1]) == After(Exec(run[..n]), run[n])
  {
    assert run[..n + 1][..n] == run[..n];
  }

  /** Every accepted detection is grouped into the incident of its burst's opener; it opens one when it is the opener
      itself, and upgrades it when it is the first to confirm. */
  lemma {:induction false} GroupedByBurst(run: seq<Input>, n: nat)
    requires Legal(run) && n < |run| && Accepted(run[n])
    ensures var r, q, o := Answer(run, n), Past(run, n), BurstOf(run, n);
            && r.Ok? && r.value.event == Some(q[o].newId)
            && (r.value.created <==> o == |q| - 1)
            && (r.value.upgraded <==> ConfirmsFirst(Project(run[..n], SlotOf(run[n])), run[n]))
  {
    hide SlotOf, Correlates, Legal, Gap, Opener, Project, Exec, FollowsGap, Outcome, Confirms, Active, BurstType,
      BurstSeverity, Accepted, IsOpener, NoGap;
    var x, p := run[n], Project(run[..n], SlotOf(run[n]));
    LegalTo(run, n);
    OpenerOfLast(p, x);
    if p == [] || Gap(p[|p| - 1], x) {
      NoneLive(run[..n], x, p);
      OpensAnew(Exec(run[..n]), x);
    } else {
      LiveRow(run[..n], x, p);
      Continues(Exec(run[..n]), x, p, Opener(p, |p| - 1));
    }
  }

  lemma {:induction false} OpenerOfLast(p: seq<Input>, x: Input)
    ensures Opener(p + [x], |p|) == if p == [] || Gap(p[|p| - 1], x) then |p| else Opener(p, |p| - 1)
  {
    GapsBefore(p, x);
    OneOpener(p + [x], if p == [] || Gap(p[|p| - 1], x) then |p| else Opener(p, |p| - 1), |p|);
  }

  lemma OpensAnew(s: Store, x: Input)
    requires Accepted(x) && Active(s, x).None?
    ensures var r := Outcome(s, x); r.Ok? && r.value.event == Some(x.newId) && r.value.created && !r.value.upgraded
  {
    hide SlotOf, Dispatched, SeverityOf;
  }

  lemma {:induction false} Continues(s: Store, x: Input, p: seq<Input>, o: nat)
    requires Accepted(x) && o < |p| && Active(s, x) == Some(p[o].newId) && p[o].newId in s.events
    requires s.events[p[o].newId].occurredAt == p[o].now && s.events[p[o].newId].eventType == BurstType(p, o)
    ensures var r := Outcome(s, x); r.Ok? && r.value.event == Some(p[o].newId) && !r.value.created
    ensures Outcome(s, x).value.upgraded <==> Confirms(p[o], x) && !Correlates(p, o)
  {
    hide SlotOf, Dispatched, SeverityOf, Correlates, Active;
  }

  /** Afterwards that incident holds what the burst up to here makes of it. */
  lemma {:induction false} RowAfter(run: seq<Input>, n: nat)
    requires Legal(run) && n < |run| && Accepted(run[n])
    ensures RowFor(run, n).Some?
    ensures RowFor(run, n).value.eventType == BurstType(Past(run, n), BurstOf(run, n))
    ensures RowFor(run, n).value.severity == BurstSeverity(Past(run, n), BurstOf(run, n))
  {
    PastIsProject(run, n);
    LegalTo(run, n);
    GroupedByBurst(run, n);
    StoredByBurst(run[..n + 1], SlotOf(run[n]), BurstOf(run, n));
    hide SlotOf, After, Outcome, Accepted, Legal, Project, Opener, BurstType, BurstSeverity, SlotOfIncident, Exec, Past;
  }

  lemma {:induction false} ProjectGrows(run: seq<Input>, i: nat, j: nat, slot: Slot)
    requires i <= j <= |run|
    ensures Project(run[..i], slot) <= Project(run[..j], slot)
  {
    hide Own;
    if i < j {
      ProjectGrows(run, i, j - 1, slot);
      assert run[..j][..j - 1] == run[..j - 1];
    }
  }

  lemma {:induction false} OpenerPrefix(p: seq<Input>, q: seq<Input>, k: nat)
    requires p <= q && k < |p|
    ensures Opener(q, k) == Opener(p, k)
  {
    if |p| < |q| {
      var n := |q| - 1;
      OpenerPrefix(p, q[..n], k);
      OpenerAppend(q[..n], q[n], k);
      assert q == q[..n] + [q[n]];
    } else {
      assert p == q;
    }
  }

  /** Two positions lie in one burst exactly when no gap lies between them. */
  lemma {:induction false} SameBurst(q: seq<Input>, k: nat, j: nat)
    requires k <= j < |q|
    ensures Opener(q, k) == Opener(q, j) <==> NoGap(q, k, j)
  {
    OneOpener(q, Opener(q, k), j);
    OneOpener(q, Opener(q, j), k);
    assert NoGap(q, Opener(q, k), j) <==> NoGap(q, k, j);
  }

  lemma {:induction false} PastGrows(run: seq<Input>, i: nat, j: nat)
    requires i < j < |run| && Accepted(run[i]) && SlotOf(run[i]) == SlotOf(run[j])
    ensures Past(run, i) <= Past(run, j) && |Past(run, i)| < |Past(run, j)|
    ensures Opener(Past(run, j), |Past(run, i)| - 1) == BurstOf(run, i)
  {
    hide Accepted, SlotOf, Project, Opener, Own;
    PastIsProject(run, i);
    ProjectGrows(run, i + 1, j, SlotOf(run[i]));
    OpenerPrefix(Past(run, i), Past(run, j), |Past(run, i)| - 1);
  }

  lemma LegalStart(run: seq<Input>, more: seq<Input>)
    requires Legal(run + more)
    ensures Legal(run)
  {
    assert forall i :: 0 <= i < |run| ==> (run + more)[i] == run[i];
  }

  lemma IdsDiffer(q: seq<Input>, i: nat, j: nat)
    requires Legal(q) && i < |q| && j < |q|
    ensures q[i].newId == q[j].newId <==> i == j
  {
  }

  /** Is there no gap in the slot from the i-th to the j-th detection of a run? */
  ghost predicate Unbroken(run: seq<Input>, i: nat, j: nat)
    requires i < |run| && j < |run|
  {
    NoGap(Past(run, j), |Past(run, i)| - 1, |Past(run, j)| - 1)
  }

  /** Two accepted detections of a slot end up in one incident exactly when no pause between consecutive accepted
      detections from the one to the other is as long as the cooldown then running, whatever else arrives meanwhile. */
  lemma {:induction false} SameIncidentIff(run: seq<Input>, i: nat, j: nat)
    requires Legal(run) && i < j < |run| && Accepted(run[i]) && Accepted(run[j]) && SlotOf(run[i]) == SlotOf(run[j])
    ensures Answer(run, i).Ok? && Answer(run, j).Ok?
    ensures Answer(run, i).value.event == Answer(run, j).value.event <==> Unbroken(run, i, j)
  {
    GroupedByBurst(run, i);
    GroupedByBurst(run, j);
    PastGrows(run, i, j);
    var q := Past(run, j);
    SameBurst(q, |Past(run, i)| - 1, |q| - 1);
    PastIsProject(run, j);
    LegalTo(run, j);
    SlotTells(run[..j + 1], SlotOf(run[j]));
    IdsDiffer(q, BurstOf(run, i), BurstOf(run, j));
    hide SlotOf, Outcome, Accepted, Legal, NoGap, Opener, Project, Exec, Answer, Past;
  }

  lemma {:induction false} CorrelatedIff(run: seq<Input>, i: nat, j: nat)
    requires Legal(run) && i < j < |run| && Accepted(run[i]) && Accepted(run[j]) && SlotOf(run[i]) == SlotOf(run[j])
    ensures var q, o := Past(run, j), BurstOf(run, j);
            OneFireAndSmoke(run, i, j)
            <==> Unbroken(run, i, j) && (Correlates(q, o) || q[o].signal.eventType == FIRE_AND_SMOKE)
  {
    SameIncidentIff(run, i, j);
    RowAfter(run, j);
    hide SlotOf, Outcome, Accepted, Legal, Unbroken, Opener, Project, Exec, Answer, Past, RowFor, Correlates;
  }

  lemma {:induction false} ConfirmsOpener(run: seq<Input>, i: nat, j: nat)
    requires i < j < |run| && Accepted(run[i]) && Accepted(run[j]) && SlotOf(run[i]) == SlotOf(run[j])
    requires BurstOf(run, i) == |Past(run, i)| - 1 && Unbroken(run, i, j)
    requires Complementary(run[i].signal.eventType, run[j].signal.eventType)
    requires run[j].now - run[i].now <= CORRELATION_WINDOW_MS
    ensures Correlates(Past(run, j), BurstOf(run, j))
  {
    PastGrows(run, i, j);
    var q, k := Past(run, j), |Past(run, i)| - 1;
    SameBurst(q, k, |q| - 1);
    assert q[k] == run[i] && q[|q| - 1] == run[j] && Confirms(q[k], q[|q| - 1]);
    assert ConfirmedAt(q, k, |q| - 1);
  }

  /** The README promises one FIRE_AND_SMOKE incident for fire and smoke within 60 s on one camera. For any two
      complementary detections, with any traffic in between: exactly when no gap lies between them and some detection of
      their burst confirms its opener or the burst was opened by a FIRE_AND_SMOKE signal. When the first of the two is
      the opener and the second comes within 60 s, that leaves the gap alone to decide. */
  lemma {:induction false} CorrelatedPair(run: seq<Input>, i: nat, j: nat)
    requires Legal(run) && i < j < |run| && Accepted(run[i]) && Accepted(run[j]) && SlotOf(run[i]) == SlotOf(run[j])
    requires Complementary(run[i].signal.eventType, run[j].signal.eventType)
    ensures var q, o := Past(run, j), BurstOf(run, j);
            OneFireAndSmoke(run, i, j)
            <==> Unbroken(run, i, j) && (Correlates(q, o) || q[o].signal.eventType == FIRE_AND_SMOKE)
    ensures Answer(run, i).Ok?
    ensures Answer(run, i).value.created && run[j].now - run[i].now <= CORRELATION_WINDOW_MS ==>
              (OneFireAndSmoke(run, i, j) <==> Unbroken(run, i, j))
  {
    CorrelatedIff(run, i, j);
    GroupedByBurst(run, i);
    var near := run[j].now - run[i].now <= CORRELATION_WINDOW_MS;
    if BurstOf(run, i) == |Past(run, i)| - 1 && Unbroken(run, i, j) && near { ConfirmsOpener(run, i, j); }
    hide SlotOf, Outcome, Accepted, Legal, Unbroken, Opener, Project, Exec, Answer, Past, RowFor, OneFireAndSmoke,
         Correlates, BurstOf;
  }

  /** Are the two grouped into one incident that is FIRE_AND_SMOKE after the second? */
  ghost predicate OneFireAndSmoke(run: seq<Input>, i: nat, j: nat)
    requires i < |run| && j < |run|
  {
    && Answer(run, i).Ok? && Answer(run, j).Ok? && Answer(run, i).value.event == Answer(run, j).value.event
    && RowFor(run, j).Some? && RowFor(run, j).value.eventType == FIRE_AND_SMOKE
  }

  /** Fire, then smoke 40 s later with the default cooldown of 30 s: two incidents, no correlation. */
  lemma UncorrelatedExample() returns (fire: Input, smoke: Input)
    ensures Legal([fire, smoke]) && Accepted(fire) && Accepted(smoke) && SlotOf(fire) == SlotOf(smoke)
    ensures fire.signal.eventType == FIRE && smoke.signal.eventType == SMOKE && smoke.now - fire.now == 40_000
    ensures Outcome(Exec([]), fire).value.created && Outcome(Exec([fire]), smoke).value.created
  {
    fire := Input(Signal("o", "c", "s", FIRE, 0.9, None, None, None, false), None, [], 0, "e1");
    smoke := fire.(now := 40_000, newId := "e2", signal := fire.signal.(eventType := SMOKE));
    FireSharesBucket(FIRE, SMOKE);
    assert Legal([fire, smoke]);
    AfterPause(fire, smoke);
  }

  lemma AcceptedAnswers(s: Store, x: Input)
    requires Accepted(x)
    ensures Outcome(s, x).Ok?
  {
  }

  /** The second of two detections of a slot, after the cooldown. */
  lemma {:induction false} AfterPause(x: Input, y: Input)
    requires Legal([x, y]) && Accepted(x) && Accepted(y) && SlotOf(x) == SlotOf(y) && Gap(x, y)
    ensures Outcome(Exec([]), x).Ok? && Outcome(Exec([]), x).value.created
    ensures Outcome(Exec([x]), y).Ok? && Outcome(Exec([x]), y).value.created
  {
    hide SlotOf, After, Outcome, Accepted, CooldownSeconds;
    AcceptedAnswers(Exec([]), x);
    AcceptedAnswers(Exec([x]), y);
    assert [x] + [y] == [x, y];
    LegalStart([x], [y]);
    OpensExactlyAfterGap([], x);
    OpensExactlyAfterGap([x], y);
    ExecAppend([], x);
    assert [] + [x] == [x];
  }

  lemma FireSharesBucket(t: EventType, u: EventType)
    requires IsFireType(t) && IsFireType(u)
    ensures Bucket(t) == Bucket(u)
  {
  }

  // ---------------------------------------------------------------- what is returned and what is stored

  /** The returned type is the stored one exactly when the detection opens or upgrades the incident, or the incident had
      the signal's type before. Said of the history: the detection is the first to confirm, or the burst's type is the
      signal's. */
  lemma {:induction false} ReturnedTypeIff(run: seq<Input>, n: nat)
    requires Legal(run) && n < |run| && Accepted(run[n])
    ensures Answer(run, n).Ok? && RowFor(run, n).Some?
    ensures var s, x := Exec(run[..n]), run[n];
            && (Active(s, x).Some? ==> Active(s, x).value in s.events)
            && (RowFor(run, n).value.eventType == Answer(run, n).value.eventType
                <==> Active(s, x).None? || Upgrades(s, x)
                     || s.events[Active(s, x).value].eventType == x.signal.eventType)
    ensures RowFor(run, n).value.eventType == Answer(run, n).value.eventType
            <==> ConfirmsFirst(Project(run[..n], SlotOf(run[n])), run[n])
                 || BurstType(Past(run, n), BurstOf(run, n)) == run[n].signal.eventType
  {
    LegalTo(run, n);
    CooldownPointsHome(run[..n]);
    GroupedByBurst(run, n);
    RowAfter(run, n);
    hide SlotOf, Dispatched, BurstType, BurstSeverity, BurstOf, ConfirmsFirst, Legal, SlotOfIncident, Exec,
         Project, Past;
  }

  /** The same for the severity, which may differ without an alert in every bucket. */
  lemma {:induction false} ReturnedSeverityIff(run: seq<Input>, n: nat)
    requires Legal(run) && n < |run| && Accepted(run[n])
    ensures Answer(run, n).Ok? && RowFor(run, n).Some?
    ensures var s, x := Exec(run[..n]), run[n];
            && (Active(s, x).Some? ==> Active(s, x).value in s.events)
            && (RowFor(run, n).value.severity == Answer(run, n).value.severity
                <==> Active(s, x).None? || Upgrades(s, x) || s.events[Active(s, x).value].severity == SeverityOf(x))
    ensures RowFor(run, n).value.severity == Answer(run, n).value.severity
            <==> ConfirmsFirst(Project(run[..n], SlotOf(run[n])), run[n])
                 || BurstSeverity(Past(run, n), BurstOf(run, n)) == SeverityOf(run[n])
  {
    LegalTo(run, n);
    CooldownPointsHome(run[..n]);
    GroupedByBurst(run, n);
    RowAfter(run, n);
    hide SlotOf, Dispatched, BurstType, BurstSeverity, BurstOf, ConfirmsFirst, Legal, SlotOfIncident, Exec,
         Project, Past, SeverityOf;
  }

  // ---------------------------------------------------------------- alerts

  /** How often a run alerted about an incident. */
  ghost function Alerts(run: seq<Input>, id: Id): nat {
    if run == [] then 0
    else
      var n := |run| - 1;
      var r := Outcome(Exec(run[..n]), run[n]);
      Alerts(run[..n], id) + if r.Ok? && r.value.alerted && r.value.event == Some(id) then 1 else 0
  }

  /** An incident that is not there yet has raised no alert. */
  lemma {:induction false} NoAlertBefore(run: seq<Input>, id: Id)
    requires Legal(run) && id !in Exec(run).events
    ensures Alerts(run, id) == 0
  {
    hide SlotOf, SlotOfIncident, After, Outcome, Inv, Legal, NewTo;
    if run != [] {
      var n := |run| - 1;
      LegalInit(run);
      CooldownPointsHome(run[..n]);
      AlertStep(run[..n], Exec(run[..n]), run[n], id);
      NoAlertBefore(run[..n], id);
    }
  }

  /** Every incident is alerted once when it opens, and a second time exactly if it was upgraded since. */
  lemma {:induction false} AlertBound(run: seq<Input>, k: nat)
    requires Legal(run) && k < |run| && run[k].newId in Exec(run).events
    ensures Alerts(run, run[k].newId)
         == if Exec(run).events[run[k].newId].eventType == run[k].signal.eventType then 1 else 2
    ensures Exec(run).events[run[k].newId].eventType in {run[k].signal.eventType, FIRE_AND_SMOKE}
  {
    hide SlotOf, SlotOfIncident, After, Outcome, Inv, Legal, NewTo;
    var n := |run| - 1;
    var s, x, id := Exec(run[..n]), run[n], run[k].newId;
    LegalInit(run);
    CooldownPointsHome(run[..n]);
    AlertStep(run[..n], s, x, id);
    OpensAs(run[..n], s, x);
    NewIdFresh(run, k);
    if k < n { AlertBound(run[..n], k); } else { NoAlertBefore(run[..n], id); }
  }

  lemma OpensAs(run: seq<Input>, s: Store, x: Input)
    requires Inv(run, s) && NewTo(run, x)
    ensures x.newId !in s.events
    ensures forall id :: id in After(s, x).events && id !in s.events ==>
              id == x.newId && After(s, x).events[id].eventType == x.signal.eventType
  {
    hide SlotOf, SlotOfIncident, Dispatched;
  }

  lemma NewIdFresh(run: seq<Input>, k: nat)
    requires Legal(run) && k < |run|
    ensures k < |run| - 1 ==> run[k].newId != run[|run| - 1].newId
  {
  }

  lemma {:induction false} AlertStep(run: seq<Input>, s: Store, x: Input, id: Id)
    requires Inv(run, s) && NewTo(run, x)
    ensures var r := Outcome(s, x);
            r.Ok? && r.value.alerted && r.value.event == Some(id)
            <==> || (id in After(s, x).events && id !in s.events)
                 || (id in s.events && After(s, x).events[id].eventType != s.events[id].eventType)
    ensures id in s.events ==> id in After(s, x).events && Evolves(s.events[id], After(s, x).events[id])
  {
    hide SlotOf, SlotOfIncident, Dispatched;
  }

  /** An alert tells what is stored: returned type and severity are those of the row, and the rows written
      for the recipients carry the same and are as many as reported. */
  lemma {:induction false} AlertTellsTheRow(run: seq<Input>, x: Input)
    requires Legal(run + [x]) && Accepted(x) && Outcome(Exec(run), x).value.alerted
    ensures var r, s := Outcome(Exec(run), x).value, After(Exec(run), x);
            && r.event.Some? && r.event.value in s.events
            && s.events[r.event.value].eventType == r.eventType && s.events[r.event.value].severity == r.severity
            && |s.notifications| == |Exec(run).notifications| + r.notified
            && (forall i :: |Exec(run).notifications| <= i < |s.notifications| ==>
                  && s.notifications[i].event == r.event.value && s.notifications[i].org == x.signal.org
                  && s.notifications[i].severity == r.severity && s.notifications[i].eventType == r.eventType)
  {
    LegalPrefix(run, x);
    CooldownPointsHome(run);
    var r := Outcome(Exec(run), x).value;
    DispatchedRows(x, r.event.value, r.severity, r.eventType, x.recipients);
  }

  lemma {:induction false} DispatchedRows(x: Input, event: Id, severity: Severity, t: EventType,
                                           recipients: seq<NotifyRule>)
    ensures forall n :: n in Dispatched(x, event, severity, t, recipients) ==>
      n.org == x.signal.org && n.event == event && n.severity == severity && n.eventType == t
  {
    if recipients != [] { DispatchedRows(x, event, severity, t, recipients[..|recipients| - 1]); }
  }

  /** Without an alert the returned type is the signal's; outside the fire bucket that is still the stored one. */
  lemma {:induction false} QuietTypeOutsideFire(run: seq<Input>, x: Input)
    requires Legal(run + [x]) && Accepted(x) && !IsFireType(x.signal.eventType)
    ensures var r := Outcome(Exec(run), x).value;
            r.event.value in After(Exec(run), x).events
            && After(Exec(run), x).events[r.event.value].eventType == r.eventType
  {
    LegalPrefix(run, x);
    CooldownPointsHome(run);
    if Active(Exec(run), x).Some? { ActiveIncidentIsOwn(run, x); }
  }

  /** The incident a detection is grouped into is of the same organization, the same camera and the same bucket. */
  lemma {:induction false} ActiveIncidentIsOwn(run: seq<Input>, x: Input)
    requires Legal(run + [x]) && Active(Exec(run), x).Some?
    ensures var id := Active(Exec(run), x).value;
            && id in Exec(run).events
            && Exec(run).events[id].org == x.signal.org && Exec(run).events[id].camera == x.signal.camera
            && (Exec(run).events[id].eventType == x.signal.eventType
                || (IsFireType(Exec(run).events[id].eventType) && IsFireType(x.signal.eventType)))
  {
    hide After;
    LegalPrefix(run, x);
    CooldownPointsHome(run);
    var id := Active(Exec(run), x).value;
    var e := Exec(run).events[id];
    assert run[..|run|] == run;
    CameraOfIncident(run, |run|, id);
    CameraOf(run + [x], |run|);
    Keys.JoinInjective(e.camera, Bucket(e.eventType), x.signal.camera, Bucket(x.signal.eventType));
    BucketInjective(e.eventType, x.signal.eventType);
  }

  /** Length and first letter tell the buckets apart. */
  function Mark(t: EventType): (nat, char) {
    (|Bucket(t)|, if Bucket(t) == "" then ' ' else Bucket(t)[0])
  }

  /** Two types share a bucket only if they are equal or both are fire types. */
  lemma BucketInjective(t: EventType, u: EventType)
    requires Bucket(t) == Bucket(u)
    ensures t == u || (IsFireType(t) && IsFireType(u))
  {
    assert Mark(t) == Mark(u);
  }

  lemma CameraStep(s: Store, x: Input, id: Id)
    requires id in After(s, x).events
    ensures if id in s.events && !(Accepted(x) && Active(s, x).None? && id == x.newId)
            then After(s, x).events[id].camera == s.events[id].camera
            else After(s, x).events[id].camera == x.signal.camera
  {
    hide SlotOf, Dispatched, SeverityOf, Accepted;
  }

  lemma {:induction false} CameraOfIncident(run: seq<Input>, n: nat, id: Id)
    requires Legal(run) && n <= |run| && id in Exec(run[..n]).events
    ensures ':' !in Exec(run[..n]).events[id].camera
  {
    hide After, Active, Upgrades, Accepted;
    if n > 0 {
      assert run[..n][..n - 1] == run[..n - 1];
      var s := Exec(run[..n - 1]);
      CameraStep(s, run[n - 1], id);
      if id in s.events { CameraOfIncident(run, n - 1, id); }
    }
  }

  /** A live cooldown row of one's own slot, pointing at a stored incident. */
  ghost predicate Points(s: Store, slot: Slot, id: Id, until: int) {
    slot in s.cooldowns && s.cooldowns[slot].event == Some(id) && s.cooldowns[slot].expiresAt == until && id in s.events
  }

  /** A signal that does not confirm leaves the row as it is, moves the cooldown on and is returned as it came. */
  lemma Quiet(s: Store, x: Input, id: Id, until: int)
    requires Accepted(x) && Points(s, SlotOf(x), id, until) && x.now < until
    requires !Complementary(s.events[id].eventType, x.signal.eventType)
             || x.now - s.events[id].occurredAt > CORRELATION_WINDOW_MS
    ensures After(s, x).events == s.events
    ensures Points(After(s, x), SlotOf(x), id, x.now + CooldownSeconds(x) * 1000)
    ensures var r := Outcome(s, x);
            r.Ok? && r.value.event == Some(id) && !r.value.alerted && r.value.eventType == x.signal.eventType
  {
    hide SlotOf, Dispatched, SeverityOf;
  }

  lemma Opens(x: Input)
    requires Accepted(x)
    ensures Points(After(EMPTY, x), SlotOf(x), x.newId, x.now + CooldownSeconds(x) * 1000)
    ensures After(EMPTY, x).events[x.newId] == Opened(x)
  {
    hide SlotOf, Dispatched;
  }

  /** A complementary signal in time. */
  lemma InTime(s: Store, x: Input, id: Id, until: int)
    requires Accepted(x) && Points(s, SlotOf(x), id, until) && x.now < until
    requires Complementary(s.events[id].eventType, x.signal.eventType)
    requires x.now - s.events[id].occurredAt <= CORRELATION_WINDOW_MS
    ensures var r := Outcome(s, x); r.Ok? && r.value.event == Some(id) && r.value.upgraded
    ensures After(s, x).events == s.events[id := Upgraded(s.events[id], x)]
    ensures Points(After(s, x), SlotOf(x), id, x.now + CooldownSeconds(x) * 1000)
  {
    hide SlotOf, Dispatched, SeverityOf;
  }

  /** A burst opened by a FIRE_AND_SMOKE signal holds a fire and a smoke signal without any detection confirming it. */
  lemma {:induction false} OpenedAsBoth(a: Input, b: Input, c: Input)
    requires Accepted(a) && Accepted(b) && Accepted(c) && SlotOf(a) == SlotOf(b) == SlotOf(c)
    requires CooldownSeconds(a) == CooldownSeconds(b) == 30
    requires a.signal.eventType == FIRE_AND_SMOKE && b.signal.eventType == FIRE && c.signal.eventType == SMOKE
    requires a.now == 0 && b.now == 1_000 && c.now == 2_000
    ensures OneFireAndSmoke([a, b, c], 1, 2) && !Correlates(Past([a, b, c], 2), BurstOf([a, b, c], 2))
  {
    PastOfThree(a, b, c);
    NeverConfirmed([a, b, c], 0);
    RowsOfThree(a, b, c);
    hide *;
  }

  lemma {:induction false} PastOfThree(a: Input, b: Input, c: Input)
    requires Accepted(a) && Accepted(b) && Accepted(c) && SlotOf(a) == SlotOf(b) == SlotOf(c)
    requires !Gap(a, b) && !Gap(b, c)
    ensures Past([a, b, c], 2) == [a, b, c] && BurstOf([a, b, c], 2) == 0
  {
    hide SlotOf, Accepted, Gap, Opener, Project, Own;
    var run := [a, b, c];
    OwnIs(a);
    OwnIs(b);
    ProjectNone(SlotOf(a));
    ExecAppend([], a);
    ExecAppend([a], b);
    assert run[..2] == [a, b] && [] + [a] == [a] && [a] + [b] == [a, b] && [a, b] + [c] == run;
    assert !FollowsGap(run, 1) && !FollowsGap(run, 2);
    OneOpener(run, 0, 2);
  }

  lemma OwnIs(x: Input)
    requires Accepted(x)
    ensures Own(x, SlotOf(x)) == [x]
  {
  }

  lemma {:induction false} ProjectNone(slot: Slot)
    ensures Project([], slot) == []
  {
  }

  lemma {:induction false} RowsOfThree(a: Input, b: Input, c: Input)
    requires Accepted(a) && Accepted(b) && Accepted(c) && SlotOf(a) == SlotOf(b) == SlotOf(c)
    requires CooldownSeconds(a) == CooldownSeconds(b) == 30
    requires a.signal.eventType == FIRE_AND_SMOKE && b.signal.eventType == FIRE && c.signal.eventType == SMOKE
    requires a.now == 0 && b.now == 1_000 && c.now == 2_000
    ensures OneFireAndSmoke([a, b, c], 1, 2)
  {
    hide After, Outcome, SlotOf, Accepted, CooldownSeconds, Points, Complementary;
    var run := [a, b, c];
    assert run[..1] == [a] && run[..2] == [a, b] && [] + [a] == [a] && [a] + [b] == [a, b];
    ExecAppend([], a);
    ExecAppend([a], b);
    Opens(a);
    Held(Exec([a]), SlotOf(a), a.newId, 30_000);
    NotComplementary(b.signal.eventType, c.signal.eventType);
    Quiet(Exec([a]), b, a.newId, 30_000);
    Held(Exec([a, b]), SlotOf(b), a.newId, 31_000);
    Quiet(Exec([a, b]), c, a.newId, 31_000);
    hide Exec;
    assert RowFor(run, 2) == Some(Opened(a));
  }

  lemma Held(s: Store, slot: Slot, id: Id, until: int)
    requires Points(s, slot, id, until)
    ensures id in s.events
  {
  }

  lemma NotComplementary(t: EventType, u: EventType)
    ensures !Complementary(FIRE_AND_SMOKE, t) && !Complementary(FIRE_AND_SMOKE, u)
  {
  }

  lemma NeverConfirmed(p: seq<Input>, i: nat)
    requires i < |p| && p[i].signal.eventType == FIRE_AND_SMOKE
    ensures !Correlates(p, i)
  {
  }

  lemma OpenedAsBothExample() returns (run: seq<Input>)
    ensures Legal(run) && |run| == 3 && forall i :: 0 <= i < 3 ==> Accepted(run[i])
    ensures run[1].signal.eventType == FIRE && run[2].signal.eventType == SMOKE
    ensures OneFireAndSmoke(run, 1, 2) && !Correlates(Past(run, 2), BurstOf(run, 2))
  {
    hide After, Outcome, Exec, Answer, RowFor, Correlates, OneFireAndSmoke;
    var a := Input(Signal("o", "c", "s", FIRE_AND_SMOKE, 0.9, None, None, None, false), None, [], 0, "e1");
    var b := a.(now := 1_000, newId := "e2", signal := a.signal.(eventType := FIRE));
    var c := a.(now := 2_000, newId := "e3", signal := a.signal.(eventType := SMOKE));
    run := [a, b, c];
    FireSharesBucket(FIRE, SMOKE);
    FireSharesBucket(FIRE_AND_SMOKE, SMOKE);
    OpenedAsBoth(a, b, c);
  }

  /** In the fire bucket returned and stored type may differ: fire, smoke (upgrade), fire again returns FIRE for a
      FIRE_AND_SMOKE row. */
  lemma Stale(a: Input, b: Input, c: Input)
    requires Accepted(a) && Accepted(b) && Accepted(c) && SlotOf(a) == SlotOf(b) == SlotOf(c)
    requires CooldownSeconds(a) == CooldownSeconds(b) == 30
    requires a.signal.eventType == c.signal.eventType == FIRE && b.signal.eventType == SMOKE
    requires a.now == 0 && b.now == 1_000 && c.now == 2_000
    ensures var run := [a, b, c];
            && Answer(run, 2).Ok? && !Answer(run, 2).value.alerted && Answer(run, 2).value.eventType == FIRE
            && RowFor(run, 2).Some? && RowFor(run, 2).value.eventType == FIRE_AND_SMOKE
  {
    hide After, Outcome, SlotOf, Accepted, CooldownSeconds;
    assert [a, b, c][..2] == [a, b] && [] + [a] == [a] && [a] + [b] == [a, b];
    ExecAppend([], a);
    ExecAppend([a], b);
    Opens(a);
    InTime(Exec([a]), b, a.newId, 30_000);
    Quiet(Exec([a, b]), c, a.newId, 31_000);
  }

  lemma StaleTypeExample() returns (run: seq<Input>)
    ensures Legal(run) && |run| == 3 && forall i :: 0 <= i < 3 ==> Accepted(run[i])
    ensures Answer(run, 2).Ok? && !Answer(run, 2).value.alerted && Answer(run, 2).value.eventType == FIRE
    ensures RowFor(run, 2).Some? && RowFor(run, 2).value.eventType == FIRE_AND_SMOKE
  {
    hide After, Outcome, Exec, Answer, RowFor;
    var a := Input(Signal("o", "c", "s", FIRE, 0.9, None, None, None, false), None, [], 0, "e1");
    var b := a.(now := 1_000, newId := "e2", signal := a.signal.(eventType := SMOKE));
    var c := a.(now := 2_000, newId := "e3");
    run := [a, b, c];
    FireSharesBucket(FIRE, SMOKE);
    Stale(a, b, c);
  }

  /** Detections in between keep a burst alive past 30 s: fire, fire 25 s later, smoke at 50 s is one incident. */
  lemma Sliding(a: Input, b: Input, c: Input)
    requires Accepted(a) && Accepted(b) && Accepted(c) && SlotOf(a) == SlotOf(b) == SlotOf(c)
    requires CooldownSeconds(a) == CooldownSeconds(b) == 30
    requires a.signal.eventType == b.signal.eventType == FIRE && c.signal.eventType == SMOKE
    requires a.now == 0 && b.now == 25_000 && c.now == 50_000
    ensures var r := Answer([a, b, c], 2); r.Ok? && r.value.upgraded && r.value.event == Some(a.newId)
  {
    hide After, Outcome, SlotOf, Accepted, CooldownSeconds;
    assert [a, b, c][..2] == [a, b] && [] + [a] == [a] && [a] + [b] == [a, b];
    ExecAppend([], a);
    ExecAppend([a], b);
    Opens(a);
    Quiet(Exec([a]), b, a.newId, 30_000);
    InTime(Exec([a, b]), c, a.newId, 55_000);
  }

  lemma SlidingExample() returns (run: seq<Input>)
    ensures Legal(run) && |run| == 3 && run[2].now - run[0].now == 50_000
    ensures run[0].signal.eventType == run[1].signal.eventType == FIRE && run[2].signal.eventType == SMOKE
    ensures var r := Answer(run, 2); r.Ok? && r.value.upgraded && r.value.event == Some(run[0].newId)
  {
    hide After, Outcome, Exec, Answer;
    var a := Input(Signal("o", "c", "s", FIRE, 0.9, None, None, None, false), None, [], 0, "e1");
    var b := a.(now := 25_000, newId := "e2");
    var c := a.(now := 50_000, newId := "e3", signal := a.signal.(eventType := SMOKE));
    run := [a, b, c];
    FireSharesBucket(FIRE, SMOKE);
    Sliding(a, b, c);
  }

  lemma FireThrice(a: Input, b: Input, c: Input)
    requires Accepted(a) && Accepted(b) && Accepted(c) && SlotOf(a) == SlotOf(b) == SlotOf(c)
    requires CooldownSeconds(a) == CooldownSeconds(b) == CooldownSeconds(c) == 30
    requires a.signal.eventType == b.signal.eventType == c.signal.eventType == FIRE
    requires a.now == 0 && b.now == 25_000 && c.now == 50_000
    ensures Points(Exec([a, b, c]), SlotOf(c), a.newId, 80_000) && Exec([a, b, c]).events[a.newId] == Opened(a)
  {
    hide After, Outcome, SlotOf, Accepted, CooldownSeconds;
    assert [] + [a] == [a] && [a] + [b] == [a, b] && [a, b] + [c] == [a, b, c];
    ExecAppend([], a);
    ExecAppend([a], b);
    ExecAppend([a, b], c);
    Opens(a);
    hide Exec;
    Quiet(Exec([a]), b, a.newId, 30_000);
    Quiet(Exec([a, b]), c, a.newId, 55_000);
  }

  /** Nor outside an upgrade: after three fire signals 25 s apart, a smoke signal at 61 s comes too late to confirm and
      is returned as SMOKE for a FIRE row. */
  lemma LateSmoke(a: Input, b: Input, c: Input, d: Input)
    requires Accepted(a) && Accepted(b) && Accepted(c) && Accepted(d)
    requires SlotOf(a) == SlotOf(b) == SlotOf(c) == SlotOf(d)
    requires CooldownSeconds(a) == CooldownSeconds(b) == CooldownSeconds(c) == 30
    requires a.signal.eventType == b.signal.eventType == c.signal.eventType == FIRE && d.signal.eventType == SMOKE
    requires a.now == 0 && b.now == 25_000 && c.now == 50_000 && d.now == 61_000
    ensures var run := [a, b, c, d];
            && Answer(run, 3).Ok? && !Answer(run, 3).value.alerted && Answer(run, 3).value.eventType == SMOKE
            && RowFor(run, 3).Some? && RowFor(run, 3).value.eventType == FIRE
  {
    assert [a, b, c, d][..3] == [a, b, c];
    hide Exec, After, Outcome, SlotOf, Accepted, CooldownSeconds;
    FireThrice(a, b, c);
    Quiet(Exec([a, b, c]), d, a.newId, 80_000);
  }

  lemma LateSmokeExample() returns (run: seq<Input>)
    ensures Legal(run) && |run| == 4 && forall i :: 0 <= i < 4 ==> Accepted(run[i])
    ensures Answer(run, 3).Ok? && !Answer(run, 3).value.alerted && Answer(run, 3).value.eventType == SMOKE
    ensures RowFor(run, 3).Some? && RowFor(run, 3).value.eventType == FIRE
  {
    hide After, Outcome, Exec, Answer, RowFor;
    var a := Input(Signal("o", "c", "s", FIRE, 0.9, None, None, None, false), None, [], 0, "e1");
    var b := a.(now := 25_000, newId := "e2");
    var c := a.(now := 50_000, newId := "e3");
    var d := a.(now := 61_000, newId := "e4", signal := a.signal.(eventType := SMOKE));
    run := [a, b, c, d];
    FireSharesBucket(FIRE, SMOKE);
    LateSmoke(a, b, c, d);
  }

  /** The severity may differ in any bucket: a second detection with a lower severity is returned with its own. */
  lemma StaleSeverityExample() returns (run: seq<Input>)
    ensures Legal(run) && |run| == 2 && Accepted(run[0]) && Accepted(run[1]) && !IsFireType(run[1].signal.eventType)
    ensures Answer(run, 1).Ok? && !Answer(run, 1).value.alerted && Answer(run, 1).value.severity == LOW
    ensures RowFor(run, 1).Some? && RowFor(run, 1).value.severity == HIGH
  {
    var a := Input(Signal("o", "c", "s", LOITERING, 0.9, Some(HIGH), None, None, false), None, [], 0, "e1");
    var b := Input(Signal("o", "c", "s", LOITERING, 0.9, Some(LOW), None, None, false), None, [], 1_000, "e2");
    run := [a, b];
    assert run[..1] == [] + [a];
    ExecAppend([], a);
    assert Exec(run[..1]).events == map["e1" := Opened(a)];
    assert Active(Exec(run[..1]), b) == Some("e1") && !Upgrades(Exec(run[..1]), b);
  }

  // ---------------------------------------------------------------- what the inputs decide

  /** What processDetection turns away, in the fields of its input: a disabled rule is an error, and a detection below
      the rule's confidence or duration leaves everything as if it had not arrived. Nothing else is turned away. */
  lemma Refusals(s: Store, x: Input)
    ensures Outcome(s, x).Err? <==> x.rule.Some? && !x.rule.value.enabled
    ensures Outcome(s, x).Ok? && Outcome(s, x).value.event.None?
       <==> match x.rule
            case None => x.signal.confidence < 0.0
            case Some(r) =>
              var duration := if x.signal.durationMs.Some? then x.signal.durationMs.value else 0;
              r.enabled && (x.signal.confidence < r.minConfidence || duration < r.minDurationMs)
    ensures Accepted(x) <==> Outcome(s, x).Ok? && Outcome(s, x).value.event.Some?
    ensures !Accepted(x) ==> After(s, x) == s
    ensures Outcome(s, x).Ok? && Outcome(s, x).value.event.None? ==>
              Outcome(s, x).value == DetectionResult(None, x.signal.eventType, x.signal.severity.GetOr(MEDIUM),
                                                     false, false, 0, false)
  {
    hide Active, Upgrades, SlotOf, SeverityOf, Dispatched, Opened;
  }

  /** Two detections meet in one cooldown row exactly if they are of one organization and camera, and of one type or
      both about fire or smoke. */
  lemma {:induction false} SlotsMeet(x: Input, y: Input)
    requires ':' !in x.signal.camera && ':' !in y.signal.camera
    ensures SlotOf(x) == SlotOf(y)
       <==> && x.signal.org == y.signal.org && x.signal.camera == y.signal.camera
            && (x.signal.eventType == y.signal.eventType
                || (x.signal.eventType in {FIRE, SMOKE, FIRE_AND_SMOKE}
                    && y.signal.eventType in {FIRE, SMOKE, FIRE_AND_SMOKE}))
  {
    var a, b := Bucket(x.signal.eventType), Bucket(y.signal.eventType);
    if SlotOf(x) == SlotOf(y) {
      Keys.JoinInjective(x.signal.camera, a, y.signal.camera, b);
      BucketInjective(x.signal.eventType, y.signal.eventType);
    }
  }

  /** Two accepted detections of one slot, with none of that slot accepted in between, share an incident exactly when
      the second comes within the cooldown of the first one's rule, or within 30 s where there is no rule. */
  lemma {:induction false} NeighboursShare(run: seq<Input>, i: nat, j: nat)
    requires Legal(run) && i < j < |run| && Accepted(run[i]) && Accepted(run[j]) && SlotOf(run[i]) == SlotOf(run[j])
    requires forall k :: i < k < j && Accepted(run[k]) ==> SlotOf(run[k]) != SlotOf(run[i])
    ensures Answer(run, i).Ok? && Answer(run, j).Ok?
    ensures var share := Answer(run, i).value.event == Answer(run, j).value.event;
            && (share <==> !Answer(run, j).value.created)
            && (run[i].rule.None? ==> (share <==> run[j].now - run[i].now < 30_000))
            && forall r :: run[i].rule == Some(r) ==> (share <==> run[j].now - run[i].now < 1000 * r.cooldownSeconds)
  {
    SameIncidentIff(run, i, j);
    GroupedByBurst(run, j);
    PastGrows(run, i, j);
    NoneBetween(run, i, j);
    var q, m := Past(run, j), |Past(run, i)|;
    assert |q| == m + 1 && q[m - 1] == run[i] && q[m] == run[j];
    assert FollowsGap(q, m) <==> Gap(run[i], run[j]);
    hide SlotOf, Accepted, Outcome, Answer, Legal, Past, Exec, Opener;
    assert Unbroken(run, i, j) <==> !FollowsGap(q, m);
  }

  lemma {:induction false} NoneBetween(run: seq<Input>, i: nat, j: nat)
    requires i < j < |run| && Accepted(run[i]) && Accepted(run[j]) && SlotOf(run[i]) == SlotOf(run[j])
    requires forall k :: i < k < j && Accepted(run[k]) ==> SlotOf(run[k]) != SlotOf(run[i])
    ensures Past(run, j) == Past(run, i) + [run[j]] && Past(run, i)[|Past(run, i)| - 1] == run[i]
  {
    hide Accepted, SlotOf;
    PastIsProject(run, i);
    PastIsProject(run, j);
    ProjectSkips(run, i + 1, j, SlotOf(run[i]));
  }

  lemma {:induction false} ProjectSkips(run: seq<Input>, i: nat, j: nat, slot: Slot)
    requires i <= j <= |run| && forall k :: i <= k < j && Accepted(run[k]) ==> SlotOf(run[k]) != slot
    ensures Project(run[..j], slot) == Project(run[..i], slot)
  {
    hide Accepted, SlotOf;
    if i < j {
      ProjectSkips(run, i, j - 1, slot);
      assert run[..j][..j - 1] == run[..j - 1];
    }
  }

  /** What one accepted detection writes, next to what it answers: the incident's row as it opened or was upgraded, one
      evidence row for a snapshot, one audit row for an alert. */
  lemma {:induction false} RowsWritten(run: seq<Input>, n: nat)
    requires Legal(run) && n < |run| && Accepted(run[n])
    ensures Answer(run, n).Ok? && Answer(run, n).value.event.Some?
    ensures Writes(run[n], Answer(run, n).value, Exec(run[..n]), Exec(run[..n + 1]))
  {
    PastIsProject(run, n);
    LegalTo(run, n);
    CooldownPointsHome(run[..n]);
    WritesOf(Exec(run[..n]), run[n]);
  }

  /** How the tables go on from `was` when x is answered with r. */
  ghost predicate Writes(x: Input, r: DetectionResult, was: Store, now: Store)
    requires r.event.Some?
  {
    var id := r.event.value;
    && r.alerted == (r.created || r.upgraded) && !(r.created && r.upgraded)
    && (r.created ==>
          id == x.newId && IsOpening(now.events, x) && now.events == was.events[id := now.events[id]])
    && (!r.created ==> id in was.events)
    && (r.upgraded ==> now.events == was.events[id := FireAndSmoke(was.events[id], x)])
    && (!r.alerted ==> now.events == was.events)
    && now.evidence == was.evidence + (if x.signal.snapshot then [Evidence(x.signal.org, id)] else [])
    && now.audits == was.audits + AuditOf(x, r)
    && var sent := if r.alerted then Dispatched(x, id, r.severity, r.eventType, x.recipients) else [];
       now.notifications == was.notifications + sent && r.notified == |sent|
  }

  /** The row of a new incident: the detection's own, with the signal's severity, else the rule's, else the type's. */
  predicate IsOpening(events: map<Id, Incident>, x: Input) {
    && x.newId in events
    && var e := events[x.newId];
       && e.org == x.signal.org && e.site == x.signal.site && e.camera == x.signal.camera
       && e.eventType == x.signal.eventType && e.confidence == x.signal.confidence && e.occurredAt == x.now
       && (x.signal.rule.Some? ==> e.rule == x.signal.rule)
       && (x.signal.rule.None? ==> if x.rule.Some? then e.rule == Some(x.rule.value.id) else e.rule.None?)
       && (x.signal.severity.Some? ==> e.severity == x.signal.severity.value)
       && (x.signal.severity.None? && x.rule.Some? ==> e.severity == x.rule.value.severity)
       && (x.signal.severity.None? && x.rule.None? ==> SeverityByType(e.eventType, e.severity))
  }

  predicate SeverityByType(t: EventType, s: Severity) {
    && (s == CRITICAL <==> t == FIRE || t == FIRE_AND_SMOKE)
    && (s == HIGH <==> t in {SMOKE, UNAUTHORIZED_ENTRY, AFTER_HOURS_ACTIVITY, OBJECT_REMOVED, RESTRICTED_ZONE_ACTIVITY})
    && s in {CRITICAL, HIGH, MEDIUM}
  }

  function FireAndSmoke(e: Incident, x: Input): Incident {
    Incident(e.org, e.site, e.camera, e.rule, FIRE_AND_SMOKE, CRITICAL,
             if x.signal.confidence > e.confidence then x.signal.confidence else e.confidence, e.occurredAt)
  }

  function AuditOf(x: Input, r: DetectionResult): seq<Audit> {
    if r.event.None? || !r.alerted then []
    else [Audit(x.signal.org, if r.upgraded then "incident.upgrade" else "incident.create", r.event.value)]
  }

  lemma WritesOf(s: Store, x: Input)
    requires Accepted(x)
    requires SlotOf(x) in s.cooldowns ==>
               s.cooldowns[SlotOf(x)].event.Some? && s.cooldowns[SlotOf(x)].event.value in s.events
    ensures Outcome(s, x).Ok? && Outcome(s, x).value.event.Some?
    ensures Writes(x, Outcome(s, x).value, s, After(s, x))
  {
    hide SlotOf, Dispatched;
  }

  /** Recipients are served one by one, in order: a recipient gets one row exactly if the severity reaches its own. */
  lemma {:induction false} DispatchIsPerRecipient(x: Input, event: Id, severity: Severity, t: EventType,
                                                  some: seq<NotifyRule>, q: NotifyRule)
    ensures Dispatched(x, event, severity, t, []) == []
    ensures Dispatched(x, event, severity, t, some + [q])
         == Dispatched(x, event, severity, t, some)
            + if Below(severity, q.minSeverity) then [] else [Notification(x.signal.org, event, q.id, severity, t)]
  {
    assert (some + [q])[..|some|] == some;
  }

  /** INFO < LOW < MEDIUM < HIGH < CRITICAL. */
  predicate Below(s: Severity, than: Severity) {
    match s
    case INFO => than != INFO
    case LOW => than in {MEDIUM, HIGH, CRITICAL}
    case MEDIUM => than in {HIGH, CRITICAL}
    case HIGH => than == CRITICAL
    case CRITICAL => false
  }

  /** The cooldown row a detection leaves: it names the detection's incident, ends when the rule says, or after 30 s,
      and remembers when that incident opened. */
  lemma {:induction false} CooldownWritten(run: seq<Input>, n: nat)
    requires Legal(run) && n < |run| && Accepted(run[n])
    ensures var x, now := run[n], Exec(run[..n + 1]);
            && SlotOf(x) in now.cooldowns
            && var c := now.cooldowns[SlotOf(x)];
               && Answer(run, n).Ok? && c.event == Answer(run, n).value.event
               && c.expiresAt - x.now == 1000 * (if x.rule.Some? then x.rule.value.cooldownSeconds else 30)
               && c.lastAlertAt == Past(run, n)[BurstOf(run, n)].now
  {
    PastIsProject(run, n);
    LegalTo(run, n);
    SlotTells(run[..n + 1], SlotOf(run[n]));
    GroupedByBurst(run, n);
    hide SlotOf, Accepted, Legal, Project, Opener, Exec, Outcome, Past, Dispatched, IsOpener;
  }
}
