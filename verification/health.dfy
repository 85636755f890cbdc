/**
 Camera health (server/src/media/health.service.ts): status updates and the CAMERA_OFFLINE and
 CAMERA_RECOVERED events they raise. Updates are serial.
 */
module Health {
  import opened Wrappers

  type Id = string

  datatype CameraStatus =
    Online | Offline | Connecting | Reconnecting | Degraded | AuthFailed | InvalidStream | Disabled | Unknown

  datatype CameraHealth = Healthy | Impaired | Unhealthy | Undetermined

  datatype Emitted = CameraOffline | CameraRecovered

  function HealthFor(status: CameraStatus): CameraHealth {
    match status
    case Online => Healthy
    case Degraded | Connecting | Reconnecting => Impaired
    case Offline | AuthFailed | InvalidStream => Unhealthy
    case Disabled | Unknown => Undetermined
  }

  predicate IsOffline(status: CameraStatus) {
    status in {Offline, AuthFailed, InvalidStream}
  }

  datatype Camera = Camera(
    org: Id, status: CameraStatus, health: CameraHealth, resolution: Option<string>, codec: Option<string>,
    sourceFps: Option<real>, reconnectCount: nat,
    lastFrameAt: Option<int>, lastInferenceAt: Option<int>, lastConnectedAt: Option<int>, lastSeenAt: Option<int>)

  datatype Update = Update(
    org: Id, camera: Id, site: Id, status: CameraStatus, detail: Option<string>, resolution: Option<string>,
    codec: Option<string>, sourceFps: Option<real>,
    incrementReconnect: bool, markFrame: bool, markInference: bool, markConnected: bool)

  /** What one emission leaves behind: the health row, the events row and the audit entry say the same. */
  datatype Recorded = Recorded(org: Id, camera: Id, site: Id, kind: Emitted, severity: string, status: CameraStatus)

  datatype Store = Store(cameras: map<Id, Camera>, recorded: seq<Recorded>)

  /** OFFLINE on entering the offline statuses, RECOVERED on going from them straight to ONLINE. */
  function Emission(prior: CameraStatus, status: CameraStatus): Option<Emitted> {
    if !IsOffline(prior) && IsOffline(status) then Some(CameraOffline)
    else if IsOffline(prior) && status == Online then Some(CameraRecovered)
    else None
  }

  function Touched(cam: Camera, u: Update, now: int): Camera {
    cam.(status := u.status, health := HealthFor(u.status),
         resolution := if u.resolution.Some? then u.resolution else cam.resolution,
         codec := if u.codec.Some? then u.codec else cam.codec,
         sourceFps := if u.sourceFps.Some? then u.sourceFps else cam.sourceFps,
         reconnectCount := cam.reconnectCount + if u.incrementReconnect then 1 else 0,
         lastFrameAt := if u.markFrame then Some(now) else cam.lastFrameAt,
         lastInferenceAt := if u.markInference then Some(now) else cam.lastInferenceAt,
         lastConnectedAt := if u.markConnected then Some(now) else cam.lastConnectedAt,
         lastSeenAt := Some(now))
  }

  predicate Visible(s: Store, u: Update) {
    u.camera in s.cameras && s.cameras[u.camera].org == u.org
  }

  function Applied(s: Store, u: Update, now: int): (Store, Option<Emitted>) {
    if !Visible(s, u) then (s, None)
    else
      var cam := s.cameras[u.camera];
      var e := Emission(cam.status, u.status);
      (Store(s.cameras[u.camera := Touched(cam, u, now)],
             if e.Some? then s.recorded + [Record(u, e.value)] else s.recorded),
       e)
  }

  function Record(u: Update, kind: Emitted): Recorded {
    Recorded(u.org, u.camera, u.site, kind, if kind == CameraOffline then "HIGH" else "INFO", u.status)
  }

  class HealthService {
    var cameras: map<Id, Camera>
    var recorded: seq<Recorded>

    ghost function Contents(): Store
      reads this
    {
      Store(cameras, recorded)
    }

    method ApplyHealthUpdate(u: Update, now: int) returns (emitted: Option<Emitted>)
      modifies this
      ensures (Contents(), emitted) == Applied(old(Contents()), u, now)
    {
      emitted := None;
      if u.camera !in cameras || cameras[u.camera].org != u.org { return; }
      var prior := cameras[u.camera];
      cameras := cameras[u.camera := Touched(prior, u, now)];
      var wasOffline := prior.status in {Offline, AuthFailed, InvalidStream};
      var isOffline := u.status in {Offline, AuthFailed, InvalidStream};
      if !wasOffline && isOffline {
        emitted := Some(CameraOffline);
      } else if wasOffline && u.status == Online {
        emitted := Some(CameraRecovered);
      }
      if emitted.Some? { recorded := recorded + [Record(u, emitted.value)]; }
    }
  }

  // ---------------------------------------------------------------- runs

  datatype Timed = Timed(update: Update, now: int)

  function Exec(s: Store, run: seq<Timed>): Store {
    if run == [] then s
    else var n := |run| - 1; Applied(Exec(s, run[..n]), run[n].update, run[n].now).0
  }

  /** The statuses a run reports for one camera of one organization. */
  function Reported(run: seq<Timed>, org: Id, camera: Id): seq<CameraStatus> {
    if run == [] then []
    else
      var n := |run| - 1;
      Reported(run[..n], org, camera)
      + if run[n].update.org == org && run[n].update.camera == camera then [run[n].update.status] else []
  }

  /** The kinds of the rows recorded for one camera. */
  function Kinds(recorded: seq<Recorded>, org: Id, camera: Id): seq<Emitted> {
    if recorded == [] then []
    else
      var n := |recorded| - 1;
      Kinds(recorded[..n], org, camera)
      + if recorded[n].org == org && recorded[n].camera == camera then [recorded[n].kind] else []
  }

  /** The status before position k of a list of reports. */
  function StatusAt(start: CameraStatus, s: seq<CameraStatus>, k: nat): CameraStatus
    requires k <= |s|
  {
    if k == 0 then start else s[k - 1]
  }

  function Emissions(start: CameraStatus, s: seq<CameraStatus>): seq<Emitted> {
    if s == [] then []
    else
      var n := |s| - 1;
      var e := Emission(StatusAt(start, s, n), s[n]);
      Emissions(start, s[..n]) + Kinded(e)
  }

  /** One update: a camera's own report appends its emission, any other leaves its status and rows alone. */
  lemma {:induction false} OneUpdate(s: Store, u: Update, now: int, org: Id, camera: Id)
    requires camera in s.cameras && s.cameras[camera].org == org
    ensures var s' := Applied(s, u, now).0; var prior := s.cameras[camera].status;
            && camera in s'.cameras && s'.cameras[camera].org == org
            && (if u.org == org && u.camera == camera
                then s'.cameras[camera].status == u.status
                     && Kinds(s'.recorded, org, camera)
                        == Kinds(s.recorded, org, camera) + Kinded(Emission(prior, u.status))
                else s'.cameras[camera].status == prior
                     && Kinds(s'.recorded, org, camera) == Kinds(s.recorded, org, camera))
  {
    if Visible(s, u) {
      var e := Emission(s.cameras[u.camera].status, u.status);
      if e.Some? { assert (s.recorded + [Record(u, e.value)])[..|s.recorded|] == s.recorded; }
    }
  }

  function Kinded(e: Option<Emitted>): seq<Emitted> {
    if e.Some? then [e.value] else []
  }

  lemma {:induction false} EmissionsSnoc(start: CameraStatus, s: seq<CameraStatus>, x: CameraStatus)
    ensures Emissions(start, s + [x]) == Emissions(start, s) + Kinded(Emission(StatusAt(start, s, |s|), x))
  {
    assert (s + [x])[..|s|] == s;
  }

  /** Whatever is reported for other cameras or by other organizations in between, a camera's rows are those of its own
      reports alone. */
  lemma {:induction false} CameraRun(s: Store, run: seq<Timed>, org: Id, camera: Id)
    requires camera in s.cameras && s.cameras[camera].org == org
    ensures var s' := Exec(s, run); var mine := Reported(run, org, camera);
            && camera in s'.cameras && s'.cameras[camera].org == org
            && s'.cameras[camera].status == StatusAt(s.cameras[camera].status, mine, |mine|)
            && Kinds(s'.recorded, org, camera)
               == Kinds(s.recorded, org, camera) + Emissions(s.cameras[camera].status, mine)
  {
    hide Applied, Kinds, Emission, Kinded;
    if run == [] {
      assert Kinds(s.recorded, org, camera) + Emissions(s.cameras[camera].status, []) == Kinds(s.recorded, org, camera);
    } else {
      var n := |run| - 1;
      CameraRun(s, run[..n], org, camera);
      OneUpdate(Exec(s, run[..n]), run[n].update, run[n].now, org, camera);
      var mine1, mine := Reported(run[..n], org, camera), Reported(run, org, camera);
      if run[n].update.org == org && run[n].update.camera == camera {
        EmissionsSnoc(s.cameras[camera].status, mine1, run[n].update.status);
      } else {
        assert mine == mine1;
      }
    }
  }

  /** How many of a camera's own reports ask to count a reconnect. */
  function Increments(run: seq<Timed>, org: Id, camera: Id): nat {
    if run == [] then 0
    else
      var n := |run| - 1;
      var u := run[n].update;
      Increments(run[..n], org, camera) + if u.org == org && u.camera == camera && u.incrementReconnect then 1 else 0
  }

  lemma {:induction false} CountsReconnects(s: Store, run: seq<Timed>, org: Id, camera: Id)
    requires camera in s.cameras && s.cameras[camera].org == org
    ensures var s' := Exec(s, run);
            && camera in s'.cameras && s'.cameras[camera].org == org
            && s'.cameras[camera].reconnectCount == s.cameras[camera].reconnectCount + Increments(run, org, camera)
  {
    if run != [] { CountsReconnects(s, run[..|run| - 1], org, camera); }
  }

  /** The last value that one of a camera's own reports brings, or what was there before. */
  function Latest<T>(run: seq<Timed>, org: Id, camera: Id, brings: Timed -> Option<T>, before: Option<T>): Option<T> {
    if run == [] then before
    else
      var t := run[|run| - 1];
      if t.update.org == org && t.update.camera == camera && brings(t).Some? then brings(t)
      else Latest(run[..|run| - 1], org, camera, brings, before)
  }

  /** Column by column, what a camera's row holds after a run: a report brings the time it comes to the columns it marks
      and the stream's properties it knows, and leaves the others. */
  lemma {:induction false} RowFollows(s: Store, run: seq<Timed>, org: Id, camera: Id)
    requires camera in s.cameras && s.cameras[camera].org == org
    ensures var was, s' := s.cameras[camera], Exec(s, run);
            && camera in s'.cameras
            && var cam := s'.cameras[camera];
               && cam.org == org
               && cam.resolution == Latest(run, org, camera, (t: Timed) => t.update.resolution, was.resolution)
               && cam.codec == Latest(run, org, camera, (t: Timed) => t.update.codec, was.codec)
               && cam.sourceFps == Latest(run, org, camera, (t: Timed) => t.update.sourceFps, was.sourceFps)
               && cam.lastSeenAt == Latest(run, org, camera, (t: Timed) => Some(t.now), was.lastSeenAt)
               && cam.lastFrameAt
                  == Latest(run, org, camera, (t: Timed) => if t.update.markFrame then Some(t.now) else None,
                            was.lastFrameAt)
               && cam.lastInferenceAt
                  == Latest(run, org, camera, (t: Timed) => if t.update.markInference then Some(t.now) else None,
                            was.lastInferenceAt)
               && cam.lastConnectedAt
                  == Latest(run, org, camera, (t: Timed) => if t.update.markConnected then Some(t.now) else None,
                            was.lastConnectedAt)
  {
    if run != [] { RowFollows(s, run[..|run| - 1], org, camera); }
  }

  /** What the health column says of each status. */
  predicate Suits(status: CameraStatus, health: CameraHealth) {
    && (health == Healthy <==> status == Online)
    && (health == Unhealthy <==> status in {Offline, AuthFailed, InvalidStream})
    && (health == Undetermined <==> status in {Disabled, Unknown})
  }

  /** Health always suits the status, once a report has come. */
  lemma {:induction false} HealthSuits(s: Store, run: seq<Timed>, org: Id, camera: Id)
    requires camera in s.cameras && s.cameras[camera].org == org
    requires Reported(run, org, camera) != [] || Suits(s.cameras[camera].status, s.cameras[camera].health)
    ensures var s' := Exec(s, run);
            && camera in s'.cameras && s'.cameras[camera].org == org
            && Suits(s'.cameras[camera].status, s'.cameras[camera].health)
  {
    if run != [] {
      hide Suits, Emission, Kinds, Emissions, StatusAt;
      var n := |run| - 1;
      var t := run[n];
      CameraRun(s, run[..n], org, camera);
      if t.update.org == org && t.update.camera == camera {
        TouchedSuits(Exec(s, run[..n]).cameras[camera], t.update, t.now);
      } else {
        HealthSuits(s, run[..n], org, camera);
      }
      hide Touched;
    }
  }

  lemma TouchedSuits(cam: Camera, u: Update, now: int)
    ensures Suits(Touched(cam, u, now).status, Touched(cam, u, now).health) && Touched(cam, u, now).org == cam.org
  {
  }

  /** A row recorded by a report: the offline event is HIGH and comes with one of the three offline statuses, the
      recovery is INFO and comes with ONLINE; both name the report's organization, camera and site. */
  ghost predicate RecordedBy(r: Recorded, u: Update) {
    && r.org == u.org && r.camera == u.camera && r.site == u.site && r.status == u.status
    && (|| (r.kind == CameraOffline && r.severity == "HIGH" && u.status in {Offline, AuthFailed, InvalidStream})
        || (r.kind == CameraRecovered && r.severity == "INFO" && u.status == Online))
  }

  /** Every row a run records is that of one of its reports. */
  lemma {:induction false} RowsAreReports(s: Store, run: seq<Timed>)
    ensures var l := Exec(s, run).recorded;
            && s.recorded <= l
            && forall i :: |s.recorded| <= i < |l| ==> exists k :: 0 <= k < |run| && RecordedBy(l[i], run[k].update)
  {
    if run != [] {
      var n := |run| - 1;
      RowsAreReports(s, run[..n]);
      var was, l := Exec(s, run[..n]).recorded, Exec(s, run).recorded;
      assert |l| > |was| ==> RecordedBy(l[|was|], run[n].update);
      forall i | |s.recorded| <= i < |l| ensures exists k :: 0 <= k < |run| && RecordedBy(l[i], run[k].update) {
        if i < |was| {
          var k :| 0 <= k < n && RecordedBy(was[i], run[..n][k].update);
          assert RecordedBy(l[i], run[k].update);
        } else {
          assert RecordedBy(l[i], run[n].update);
        }
      }
    }
  }

  predicate Enters(start: CameraStatus, s: seq<CameraStatus>, k: nat)
    requires k < |s|
  {
    !IsOffline(StatusAt(start, s, k)) && IsOffline(s[k])
  }

  /** The offline block is left for a status other than ONLINE. */
  predicate Abandons(start: CameraStatus, s: seq<CameraStatus>, k: nat)
    requires k < |s|
  {
    IsOffline(StatusAt(start, s, k)) && !IsOffline(s[k]) && s[k] != Online
  }

  // ---------------------------------------------------------------- counting by maximal blocks

  function Count(l: seq<Emitted>, kind: Emitted): nat {
    if l == [] then 0 else Count(l[..|l| - 1], kind) + if l[|l| - 1] == kind then 1 else 0
  }

  /** Length of the leading stretch of reports that are all offline, or all not. */
  function Stretch(s: seq<CameraStatus>, offline: bool): (n: nat)
    ensures n <= |s| && forall i :: 0 <= i < n ==> IsOffline(s[i]) == offline
    ensures n < |s| ==> IsOffline(s[n]) != offline
  {
    if s == [] || IsOffline(s[0]) != offline then 0 else 1 + Stretch(s[1..], offline)
  }

  /** The maximal offline blocks, walked block by block; a block the camera already was in does not count. */
  function Blocks(offline: bool, s: seq<CameraStatus>): nat
    decreases |s|
  {
    var n := Stretch(s, offline);
    if n == |s| then 0 else (if offline then 0 else 1) + Blocks(!offline, s[n + 1..])
  }

  /** The blocks directly followed by ONLINE. */
  function RecoveredBlocks(offline: bool, s: seq<CameraStatus>): nat
    decreases |s|
  {
    var n := Stretch(s, offline);
    if n == |s| then 0
    else (if offline && s[n] == Online then 1 else 0) + RecoveredBlocks(!offline, s[n + 1..])
  }

  lemma {:induction false} CountAppend(a: seq<Emitted>, b: seq<Emitted>, kind: Emitted)
    ensures Count(a + b, kind) == Count(a, kind) + Count(b, kind)
  {
    if b == [] {
      assert a + b == a;
    } else {
      var n := |b| - 1;
      CountAppend(a, b[..n], kind);
      assert (a + b)[..|a + b| - 1] == a + b[..n];
    }
  }

  lemma Associative(a: seq<Emitted>, b: seq<Emitted>, c: seq<Emitted>)
    ensures a + b + c == a + (b + c)
  {
  }

  lemma {:induction false} EmissionsAppend(start: CameraStatus, a: seq<CameraStatus>, b: seq<CameraStatus>)
    ensures Emissions(start, a + b) == Emissions(start, a) + Emissions(StatusAt(start, a, |a|), b)
  {
    if b == [] {
      assert a + b == a;
    } else {
      hide Emissions, Emission, Kinded;
      var n, mid := |b| - 1, StatusAt(start, a, |a|);
      var p, x := b[..n], b[n];
      EmissionsAppend(start, a, p);
      assert b == p + [x] && a + b == a + p + [x];
      EmissionsSnoc(mid, p, x);
      EmissionsSnoc(start, a + p, x);
      assert StatusAt(start, a + p, |a + p|) == StatusAt(mid, p, n);
      Associative(Emissions(start, a), Emissions(mid, p), Kinded(Emission(StatusAt(mid, p, n), x)));
    }
  }

  lemma {:induction false} StretchStep(offline: bool, x: CameraStatus, rest: seq<CameraStatus>)
    ensures Stretch([x] + rest, offline) == if IsOffline(x) == offline then 1 + Stretch(rest, offline) else 0
  {
    assert ([x] + rest)[1..] == rest;
  }

  lemma {:induction false} BlocksStep(offline: bool, x: CameraStatus, rest: seq<CameraStatus>)
    ensures Blocks(offline, [x] + rest) == Blocks(IsOffline(x), rest) + if !offline && IsOffline(x) then 1 else 0
  {
    hide Stretch, RecoveredBlocks;
    StretchStep(offline, x, rest);
    var s, n := [x] + rest, Stretch(rest, offline);
    if IsOffline(x) != offline {
      assert s[1..] == rest;
    } else if n < |rest| {
      assert s[n + 2..] == rest[n + 1..];
    }
  }

  lemma {:induction false} RecoveredStep(offline: bool, x: CameraStatus, rest: seq<CameraStatus>)
    ensures RecoveredBlocks(offline, [x] + rest)
            == RecoveredBlocks(IsOffline(x), rest) + (if offline && x == Online then 1 else 0)
  {
    hide Stretch, Blocks;
    StretchStep(offline, x, rest);
    var s, n := [x] + rest, Stretch(rest, offline);
    if IsOffline(x) != offline {
      assert s[1..] == rest;
    } else if n < |rest| {
      assert s[n + 2..] == rest[n + 1..];
    }
  }

  lemma {:induction false} EmissionsStep(start: CameraStatus, x: CameraStatus, rest: seq<CameraStatus>)
    ensures Emissions(start, [x] + rest) == Kinded(Emission(start, x)) + Emissions(x, rest)
  {
    hide Emission;
    EmissionsAppend(start, [x], rest);
    assert [x][..0] == [];
    assert Emissions(start, [x]) == [] + Kinded(Emission(start, x));
  }

  lemma {:induction false} CountStep(e: Option<Emitted>, l: seq<Emitted>, kind: Emitted)
    ensures Count(Kinded(e) + l, kind) == Count(l, kind) + if e == Some(kind) then 1 else 0
  {
    CountAppend(Kinded(e), l, kind);
  }

  /** CAMERA_OFFLINE counts the maximal offline blocks entered; CAMERA_RECOVERED those directly followed by ONLINE. */
  lemma {:induction false} EventsCountBlocks(start: CameraStatus, s: seq<CameraStatus>)
    ensures Count(Emissions(start, s), CameraOffline) == Blocks(IsOffline(start), s)
    ensures Count(Emissions(start, s), CameraRecovered) == RecoveredBlocks(IsOffline(start), s)
    decreases |s|
  {
    if s != [] {
      hide Blocks, RecoveredBlocks, Emissions, Count, Kinded;
      var x, rest := s[0], s[1..];
      assert s == [x] + rest;
      BlocksStep(IsOffline(start), x, rest);
      RecoveredStep(IsOffline(start), x, rest);
      EmissionsStep(start, x, rest);
      CountStep(Emission(start, x), Emissions(x, rest), CameraOffline);
      CountStep(Emission(start, x), Emissions(x, rest), CameraRecovered);
      EventsCountBlocks(x, rest);
    }
  }

  // ---------------------------------------------------------------- the order of the events

  predicate Alternates(l: seq<Emitted>) {
    forall i, j :: 0 <= i && j == i + 1 < |l| ==> l[i] != l[j]
  }

  lemma AlternatesSnoc(l: seq<Emitted>, e: Emitted)
    ensures Alternates(l + [e]) <==> Alternates(l) && (l == [] || l[|l| - 1] != e)
  {
    var m := l + [e];
    assert forall i :: 0 <= i < |l| ==> m[i] == l[i];
    assert m[|l|] == e;
    if Alternates(m) && l != [] { assert m[|l| - 1] != m[|l|]; }
  }

  /** The ends of the event list, given where the camera stands: one that starts out of the offline statuses raises
      CAMERA_OFFLINE first. */
  lemma {:induction false} Ends(start: CameraStatus, s: seq<CameraStatus>)
    ensures var l := Emissions(start, s);
            && (l != [] && IsOffline(StatusAt(start, s, |s|)) ==> l[|l| - 1] == CameraOffline)
            && (!IsOffline(start) && l != [] ==> l[0] == CameraOffline)
            && (!IsOffline(start) && l == [] ==> !IsOffline(StatusAt(start, s, |s|)))
  {
    if s != [] {
      hide Emissions;
      var p, x := s[..|s| - 1], s[|s| - 1];
      Ends(start, p);
      EmissionsSnoc(start, p, x);
      assert p + [x] == s;
    }
  }

  /** Before every CAMERA_RECOVERED but the first event stands a CAMERA_OFFLINE. */
  predicate NoDoubleRecovery(l: seq<Emitted>) {
    forall i, j :: 0 <= i && j == i + 1 < |l| && l[j] == CameraRecovered ==> l[i] == CameraOffline
  }

  lemma NoDoubleSnoc(l: seq<Emitted>, e: Option<Emitted>)
    requires NoDoubleRecovery(l) && (e == Some(CameraRecovered) && l != [] ==> l[|l| - 1] == CameraOffline)
    ensures NoDoubleRecovery(l + Kinded(e))
  {
  }

  lemma RecoversFromOffline(prior: CameraStatus, status: CameraStatus)
    ensures Emission(prior, status) == Some(CameraRecovered) ==> IsOffline(prior)
  {
  }

  /** No two CAMERA_RECOVERED without a CAMERA_OFFLINE between them. */
  lemma {:induction false} RecoveredOnlyAfterOffline(start: CameraStatus, s: seq<CameraStatus>)
    ensures NoDoubleRecovery(Emissions(start, s))
  {
    if s != [] {
      hide Emissions, NoDoubleRecovery, Kinded, Emission, IsOffline;
      var p, x := s[..|s| - 1], s[|s| - 1];
      RecoveredOnlyAfterOffline(start, p);
      Ends(start, p);
      EmissionsSnoc(start, p, x);
      assert p + [x] == s;
      RecoversFromOffline(StatusAt(start, p, |p|), x);
      NoDoubleSnoc(Emissions(start, p), Emission(StatusAt(start, p, |p|), x));
    }
  }

  /** Some offline block was entered within the reports. */
  predicate Entered(start: CameraStatus, s: seq<CameraStatus>) {
    s != [] && (Entered(start, s[..|s| - 1]) || Enters(start, s, |s| - 1))
  }

  /** After an entry, an offline block was left for a status other than ONLINE. */
  predicate Abandoned(start: CameraStatus, s: seq<CameraStatus>) {
    s != [] && (Abandoned(start, s[..|s| - 1]) || (Entered(start, s[..|s| - 1]) && Abandons(start, s, |s| - 1)))
  }

  /** After that the camera went offline once more. */
  predicate Misses(start: CameraStatus, s: seq<CameraStatus>) {
    s != [] && (Misses(start, s[..|s| - 1]) || (Abandoned(start, s[..|s| - 1]) && IsOffline(s[|s| - 1])))
  }

  /** Where the events stand after reports without a miss. */
  lemma {:induction false} LastEvent(start: CameraStatus, s: seq<CameraStatus>)
    requires !Misses(start, s)
    ensures var l := Emissions(start, s);
            && (Entered(start, s) <==> CameraOffline in l)
            && (Abandoned(start, s) <==> l != [] && l[|l| - 1] == CameraOffline && !IsOffline(StatusAt(start, s, |s|)))
  {
    Ends(start, s);
    if s != [] {
      Ends(start, s[..|s| - 1]);
      LastEvent(start, s[..|s| - 1]);
    }
  }

  /** CAMERA_OFFLINE and CAMERA_RECOVERED strictly alternate exactly when no report sequence abandons an offline block
      it entered and goes offline again. */
  lemma {:induction false} AlternatesIff(start: CameraStatus, s: seq<CameraStatus>)
    ensures Alternates(Emissions(start, s)) <==> !Misses(start, s)
  {
    if s != [] {
      var p := s[..|s| - 1];
      AlternatesIff(start, p);
      Ends(start, p);
      AlternatesSnoc(Emissions(start, p), CameraOffline);
      AlternatesSnoc(Emissions(start, p), CameraRecovered);
      assert Emissions(start, p) + [] == Emissions(start, p);
      hide Alternates, Entered, HealthFor;
      if !Misses(start, p) { LastEvent(start, p); }
    }
  }

  /** On reports of ONLINE and the three offline statuses alone the two events alternate. */
  lemma {:induction false} OnlineOfflineAlternates(start: CameraStatus, s: seq<CameraStatus>)
    requires forall i :: 0 <= i < |s| ==> s[i] == Online || IsOffline(s[i])
    ensures !Abandoned(start, s) && !Misses(start, s) && Alternates(Emissions(start, s))
  {
    AlternatesIff(start, s);
    if s != [] { OnlineOfflineAlternates(start, s[..|s| - 1]); }
  }

  /** A RECONNECTING between two OFFLINE reports raises CAMERA_OFFLINE again, and hides the recovery. */
  lemma ReconnectingBreaksDedup()
    ensures Emissions(Online, [Offline, Reconnecting, Offline, Reconnecting, Online]) == [CameraOffline, CameraOffline]
  {
    var s := [Offline, Reconnecting, Offline, Reconnecting, Online];
    assert s[..4][..3] == [Offline, Reconnecting, Offline] && s[..4][..3][..2][..1] == [Offline];
    assert Emissions(Online, [Offline]) == [CameraOffline] by { assert [Offline][..0] == []; }
    assert Emissions(Online, s[..4][..3][..2]) == [CameraOffline];
  }
}
