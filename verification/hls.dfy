/**
 Live HLS sessions (server/src/media/hls.service.ts): one FFmpeg process per camera, started on
 demand, reaped when idle. Starts of one key do not overlap; times are in milliseconds.
 */
module Hls {
  import opened Wrappers
  import opened Keys

  const IDLE_TIMEOUT := 60_000
  const REAP_EVERY := 15_000

  datatype Session = Session(org: string, cam: string, proc: nat, startedAt: int, lastAccess: int)

  /**
   Beside the manager's own fields: the processes that have not exited, those told to die (`killed` in Node), and the
   key each process's exit handler was made for. The reaper is known by the time its next tick is due.
   */
  datatype Hls = Hls(
    sessions: map<string, Session>, reaper: Option<int>,
    running: set<nat>, killed: set<nat>, handlers: map<nat, string>, nextProc: nat)

  const NO_SESSIONS := Hls(map[], None, {}, {}, map[], 0)

  // ---------------------------------------------------------------- the steps

  predicate PlainChar(c: char) {
    'a' <= c <= 'z' || 'A' <= c <= 'Z' || '0' <= c <= '9' || c in "._-"
  }

  /** A plain file name: no separators and no dot-dot. */
  predicate PlainName(name: string) {
    name != "" && (forall i :: 0 <= i < |name| ==> PlainChar(name[i]))
    && forall i, j :: 0 <= i && j == i + 1 < |name| ==> !(name[i] == '.' && name[j] == '.')
  }

  function Touch(h: Hls, k: string, now: int): Hls {
    if k in h.sessions then h.(sessions := h.sessions[k := h.sessions[k].(lastAccess := now)]) else h
  }

  function Ensured(h: Hls, org: string, cam: string, now: int): Hls {
    var k := Join(org, cam);
    if k in h.sessions && h.sessions[k].proc !in h.killed then Touch(h, k, now)
    else
      h.(sessions := h.sessions[k := Session(org, cam, h.nextProc, now, now)],
         running := h.running + {h.nextProc}, handlers := h.handlers[h.nextProc := k], nextProc := h.nextProc + 1,
         reaper := if h.reaper.Some? then h.reaper else Some(now + REAP_EVERY))
  }

  function Read(h: Hls, org: string, cam: string, name: string, now: int): Hls {
    if PlainName(name) then Touch(h, Join(org, cam), now) else h
  }

  function Halted(h: Hls, org: string, cam: string): Hls {
    var k := Join(org, cam);
    if k !in h.sessions then h
    else h.(killed := h.killed + {h.sessions[k].proc}, sessions := h.sessions - {k})
  }

  function Exited(h: Hls, proc: nat): Hls
    requires proc in h.handlers
  {
    var k := h.handlers[proc];
    h.(running := h.running - {proc},
       sessions := if k in h.sessions && h.sessions[k].proc == proc then h.sessions - {k} else h.sessions)
  }

  predicate Idle(s: Session, now: int) {
    now - s.lastAccess > IDLE_TIMEOUT
  }

  function IdleKeys(sessions: map<string, Session>, now: int): set<string> {
    set k | k in sessions && Idle(sessions[k], now)
  }

  function ProcsOf(sessions: map<string, Session>, keys: set<string>): set<nat> {
    set k | k in keys && k in sessions :: sessions[k].proc
  }

  /** The reaper's tick kills exactly the idle sessions, and stands down when none is left. */
  function Reaped(h: Hls, now: int): Hls {
    var idle := IdleKeys(h.sessions, now);
    var left := h.sessions - idle;
    h.(sessions := left, killed := h.killed + ProcsOf(h.sessions, idle),
       reaper := if left == map[] then None else Some(now + REAP_EVERY))
  }

  function AllStopped(h: Hls): Hls {
    h.(sessions := map[], killed := h.killed + ProcsOf(h.sessions, h.sessions.Keys), reaper := None)
  }

  class HlsManager {
    var sessions: map<string, Session>
    var reaper: Option<int>
    var running: set<nat>
    var killed: set<nat>
    var handlers: map<nat, string>
    var nextProc: nat

    ghost function Contents(): Hls
      reads this
    {
      Hls(sessions, reaper, running, killed, handlers, nextProc)
    }

    constructor ()
      ensures Contents() == NO_SESSIONS
    {
      sessions, reaper, running, killed, handlers, nextProc := map[], None, {}, {}, map[], 0;
    }

    method EnsureSession(org: string, cam: string, now: int) returns (manifest: string)
      modifies this
      ensures Contents() == Ensured(old(Contents()), org, cam, now) && manifest == "index.m3u8"
    {
      var k := Join(org, cam);
      manifest := "index.m3u8";
      if k in sessions && sessions[k].proc !in killed {
        sessions := sessions[k := sessions[k].(lastAccess := now)];
        return;
      }
      sessions := sessions[k := Session(org, cam, nextProc, now, now)];
      running, handlers := running + {nextProc}, handlers[nextProc := k];
      nextProc := nextProc + 1;
      EnsureReaper(now);
    }

    method EnsureReaper(now: int)
      modifies this`reaper
      ensures reaper == if old(reaper).Some? then old(reaper) else Some(now + REAP_EVERY)
    {
      if reaper.Some? { return; }
      reaper := Some(now + REAP_EVERY);
    }

    method ReadArtifact(org: string, cam: string, name: string, now: int) returns (ok: bool)
      modifies this
      ensures Contents() == Read(old(Contents()), org, cam, name, now) && ok == PlainName(name)
    {
      ok := PlainName(name);
      if !ok { return; }
      var k := Join(org, cam);
      if k in sessions { sessions := sessions[k := sessions[k].(lastAccess := now)]; }
    }

    method StopSession(org: string, cam: string)
      modifies this
      ensures Contents() == Halted(old(Contents()), org, cam)
    {
      var k := Join(org, cam);
      if k in sessions {
        killed := killed + {sessions[k].proc};
        sessions := sessions - {k};
      }
    }

    method OnExit(proc: nat)
      requires proc in handlers
      modifies this
      ensures Contents() == Exited(old(Contents()), proc)
    {
      var k := handlers[proc];
      running := running - {proc};
      if k in sessions && sessions[k].proc == proc { sessions := sessions - {k}; }
    }

    method OnTick(now: int)
      modifies this
      ensures Contents() == Reaped(old(Contents()), now)
    {
      ghost var was := sessions;
      var rest := sessions.Keys;
      ghost var done: set<string> := {};
      while rest != {}
        invariant rest <= was.Keys && done == was.Keys - rest
        invariant Contents() == old(Contents()).(sessions := was - (IdleKeys(was, now) * done),
                                                 killed := old(killed) + ProcsOf(was, IdleKeys(was, now) * done))
      {
        var k :| k in rest;
        if now - sessions[k].lastAccess > IDLE_TIMEOUT {
          killed := killed + {sessions[k].proc};
          sessions := sessions - {k};
        }
        rest, done := rest - {k}, done + {k};
      }
      assert IdleKeys(was, now) * done == IdleKeys(was, now);
      if sessions == map[] { reaper := None; } else { reaper := Some(now + REAP_EVERY); }
    }

    method StopAll()
      modifies this
      ensures Contents() == AllStopped(old(Contents()))
    {
      var rest := sessions.Keys;
      while rest != {}
        invariant rest <= sessions.Keys
        invariant Contents() == old(Contents()).(killed := old(killed) + ProcsOf(sessions, sessions.Keys - rest))
      {
        var k :| k in rest;
        assert sessions.Keys - (rest - {k}) == sessions.Keys - rest + {k};
        killed := killed + {sessions[k].proc};
        rest := rest - {k};
      }
      assert sessions.Keys - {} == sessions.Keys;
      sessions, reaper := map[], None;
    }
  }

  // ---------------------------------------------------------------- runs

  datatype Event =
    | EnsureSession(org: string, cam: string)
    | ReadArtifact(org: string, cam: string, name: string)
    | StopSession(org: string, cam: string)
    | ProcessExits(proc: nat)
    | ReaperTicks
    | StopAll

  datatype Timed = Timed(now: int, event: Event)

  predicate Enabled(h: Hls, e: Event) {
    match e
    case ProcessExits(proc) => proc in h.running && proc in h.handlers
    case ReaperTicks => h.reaper.Some?
    case _ => true
  }

  function Next(h: Hls, t: Timed): Hls
    requires Enabled(h, t.event)
  {
    match t.event
    case EnsureSession(org, cam) => Ensured(h, org, cam, t.now)
    case ReadArtifact(org, cam, name) => Read(h, org, cam, name, t.now)
    case StopSession(org, cam) => Halted(h, org, cam)
    case ProcessExits(proc) => Exited(h, proc)
    case ReaperTicks => Reaped(h, t.now)
    case StopAll => AllStopped(h)
  }

  /** Times never go back, and the reaper does not tick before it is due. */
  predicate EnabledRun(run: seq<Timed>)
    decreases |run|, 0
  {
    run == [] ||
    var n := |run| - 1;
    && EnabledRun(run[..n])
    && Enabled(Exec(run[..n]), run[n].event)
    && (n > 0 ==> run[n - 1].now <= run[n].now)
    && (run[n].event == ReaperTicks ==> Exec(run[..n]).reaper.value <= run[n].now)
  }

  function Exec(run: seq<Timed>): Hls
    requires EnabledRun(run)
    decreases |run|, 1
  {
    if run == [] then NO_SESSIONS else Next(Exec(run[..|run| - 1]), run[|run| - 1])
  }

  /** Sessions and live processes are the same thing: a process not told to die is its key's session, and conversely. */
  predicate OneToOne(h: Hls) {
    && (forall p :: p in h.running && p !in h.killed ==>
          p in h.handlers && h.handlers[p] in h.sessions && h.sessions[h.handlers[p]].proc == p)
    && (forall k :: k in h.sessions ==>
          var p := h.sessions[k].proc;
          p in h.running && p !in h.killed && p in h.handlers && h.handlers[p] == k)
  }

  predicate ProcsUsed(h: Hls) {
    && (forall p :: p in h.running ==> p < h.nextProc && p in h.handlers)
    && (forall p :: p in h.killed ==> p < h.nextProc)
    && (forall p :: p in h.handlers ==> p < h.nextProc)
  }

  /** Whenever there is a session the reaper is armed, and no session was last used more than 75 s before the reaper's
      next tick. */
  predicate Watched(h: Hls, now: int) {
    && (h.sessions != map[] ==> h.reaper.Some?)
    && (h.reaper.Some? ==> h.reaper.value <= now + REAP_EVERY)
    && (forall k :: k in h.sessions ==>
          h.reaper.Some? && h.sessions[k].lastAccess >= h.reaper.value - REAP_EVERY - IDLE_TIMEOUT
          && h.sessions[k].lastAccess <= now)
  }

  predicate Inv(h: Hls, now: int) {
    OneToOne(h) && ProcsUsed(h) && Watched(h, now)
  }

  predicate Paired(h: Hls) {
    OneToOne(h) && ProcsUsed(h)
  }

  lemma EnsureKeepsPaired(h: Hls, org: string, cam: string, now: int)
    requires Paired(h)
    ensures Paired(Ensured(h, org, cam, now))
  {
    hide Join;
  }

  lemma TouchKeepsPaired(h: Hls, k: string, now: int)
    requires Paired(h)
    ensures Paired(Touch(h, k, now))
  {
  }

  lemma HaltKeepsPaired(h: Hls, org: string, cam: string)
    requires Paired(h)
    ensures Paired(Halted(h, org, cam))
  {
    hide Join;
  }

  lemma ExitKeepsPaired(h: Hls, proc: nat)
    requires Paired(h) && proc in h.handlers
    ensures Paired(Exited(h, proc))
  {
  }

  /** Ending any set of sessions together with their processes, as the reaper and stopAll do. */
  lemma DropKeepsPaired(h: Hls, keys: set<string>, reaper: Option<int>)
    requires Paired(h)
    ensures Paired(h.(sessions := h.sessions - keys, killed := h.killed + ProcsOf(h.sessions, keys), reaper := reaper))
  {
  }

  lemma StepKeepsOneToOne(h: Hls, t: Timed)
    requires Paired(h) && Enabled(h, t.event)
    ensures Paired(Next(h, t))
  {
    hide PlainName, Join, Paired, Ensured, Touch, Halted, Exited, IdleKeys, ProcsOf;
    match t.event {
      case EnsureSession(org, cam) => EnsureKeepsPaired(h, org, cam, t.now);
      case ReadArtifact(org, cam, _) => TouchKeepsPaired(h, Join(org, cam), t.now);
      case StopSession(org, cam) => HaltKeepsPaired(h, org, cam);
      case ProcessExits(proc) => ExitKeepsPaired(h, proc);
      case ReaperTicks => DropKeepsPaired(h, IdleKeys(h.sessions, t.now), Reaped(h, t.now).reaper);
      case StopAll =>
        assert h.sessions - h.sessions.Keys == map[];
        DropKeepsPaired(h, h.sessions.Keys, None);
    }
  }

  lemma StepKeepsWatched(h: Hls, t: Timed, now: int)
    requires Watched(h, now) && now <= t.now && Enabled(h, t.event)
    ensures Watched(Next(h, t), t.now)
  {
    hide PlainName, Join, ProcsOf;
  }

  lemma {:induction false} RunKeepsInv(run: seq<Timed>, now: int)
    requires EnabledRun(run) && (run != [] ==> run[|run| - 1].now <= now)
    ensures Inv(Exec(run), now)
  {
    if run != [] {
      hide Next, Enabled, OneToOne, ProcsUsed, Watched;
      var n := |run| - 1;
      RunKeepsInv(run[..n], run[n].now);
      StepKeepsOneToOne(Exec(run[..n]), run[n]);
      StepKeepsWatched(Exec(run[..n]), run[n], run[n].now);
    }
  }

  /** In every run: what has not been told to die is exactly what the map holds, under its own key; so once the map is
      empty nothing is left running unattended. */
  lemma {:induction false} SessionsAreProcesses(run: seq<Timed>, proc: nat)
    requires EnabledRun(run) && proc in Exec(run).running
    ensures var h := Exec(run);
            proc !in h.killed <==> proc in h.handlers && h.handlers[proc] in h.sessions
                                   && h.sessions[h.handlers[proc]].proc == proc
    ensures Exec(run).sessions == map[] ==> proc in Exec(run).killed
  {
    RunKeepsInv(run, if run == [] then 0 else run[|run| - 1].now);
    hide Exec, EnabledRun;
  }

  /** The exit of a process that was replaced or stopped changes no session; that of a live one removes only its own. */
  lemma {:induction false} LateExit(run: seq<Timed>, proc: nat)
    requires EnabledRun(run) && proc in Exec(run).running && proc in Exec(run).handlers
    ensures var h := Exec(run);
            Exited(h, proc).sessions == if proc in h.killed then h.sessions else h.sessions - {h.handlers[proc]}
  {
    RunKeepsInv(run, if run == [] then 0 else run[|run| - 1].now);
    hide Exec, EnabledRun;
  }

  /** No session outlives its last use by more than the idle timeout and one reaper period, plus however late the
      reaper's tick is; and while there is a session the reaper is armed. */
  lemma {:induction false} IdleBound(run: seq<Timed>, k: string, now: int)
    requires EnabledRun(run) && (run != [] ==> run[|run| - 1].now <= now)
    requires k in Exec(run).sessions
    ensures var h := Exec(run);
            && h.reaper.Some?
            && (now <= h.reaper.value ==> now - h.sessions[k].lastAccess <= IDLE_TIMEOUT + REAP_EVERY)
            && (now > h.reaper.value ==>
                  now - h.sessions[k].lastAccess <= IDLE_TIMEOUT + REAP_EVERY + (now - h.reaper.value))
  {
    RunKeepsInv(run, now);
    hide Exec, EnabledRun;
  }

  /** One organization's requests never touch another's session (organization ids hold no colon). */
  lemma TenantsApart(h: Hls, org: string, cam: string, name: string, now: int, org': string, cam': string)
    requires ':' !in org && ':' !in org' && (org != org' || cam != cam')
    ensures var k := Join(org', cam');
            forall g :: g in {Ensured(h, org, cam, now), Read(h, org, cam, name, now), Halted(h, org, cam)} ==>
              (k in g.sessions <==> k in h.sessions) && (k in h.sessions ==> g.sessions[k] == h.sessions[k])
  {
    if Join(org, cam) == Join(org', cam') { JoinInjective(org, cam, org', cam'); }
    hide Join, PlainName;
  }

  function SessionsOf(h: Hls, org: string): map<string, Session> {
    map k | k in h.sessions && h.sessions[k].org == org :: h.sessions[k]
  }

  /** A session lies under the key of its own organization and camera. */
  predicate Tagged(h: Hls) {
    forall k :: k in h.sessions ==>
      k == Join(h.sessions[k].org, h.sessions[k].cam) && ':' !in h.sessions[k].org
  }

  predicate PlainOrg(e: Event) {
    match e
    case EnsureSession(org, _) => ':' !in org
    case ReadArtifact(org, _, _) => ':' !in org
    case StopSession(org, _) => ':' !in org
    case _ => true
  }

  /** Neither a request of the organization, nor the exit of one of its processes, nor a tick or stopAll. */
  predicate Foreign(h: Hls, e: Event, org: string) {
    match e
    case EnsureSession(o, _) => o != org
    case ReadArtifact(o, _, _) => o != org
    case StopSession(o, _) => o != org
    case ProcessExits(proc) => forall k :: k in SessionsOf(h, org) ==> h.sessions[k].proc != proc
    case _ => false
  }

  lemma StepKeepsTagged(h: Hls, t: Timed)
    requires Tagged(h) && Enabled(h, t.event) && PlainOrg(t.event)
    ensures Tagged(Next(h, t))
  {
    hide Join, PlainName, Idle, ProcsOf;
  }

  lemma ForeignKey(h: Hls, o: string, cam: string, org: string)
    requires Tagged(h) && ':' !in o && o != org && Join(o, cam) in h.sessions
    ensures h.sessions[Join(o, cam)].org == o
  {
    var s := h.sessions[Join(o, cam)];
    JoinInjective(o, cam, s.org, s.cam);
  }

  lemma ForeignStep(h: Hls, t: Timed, org: string)
    requires Tagged(h) && Enabled(h, t.event) && PlainOrg(t.event) && Foreign(h, t.event, org)
    ensures SessionsOf(Next(h, t), org) == SessionsOf(h, org)
  {
    hide Join, PlainName, Tagged;
    match t.event {
      case EnsureSession(o, cam) => if Join(o, cam) in h.sessions { ForeignKey(h, o, cam, org); }
      case ReadArtifact(o, cam, _) => if Join(o, cam) in h.sessions { ForeignKey(h, o, cam, org); }
      case StopSession(o, cam) => if Join(o, cam) in h.sessions { ForeignKey(h, o, cam, org); }
      case ProcessExits(proc) =>
        var k := h.handlers[proc];
        if k in h.sessions && h.sessions[k].org == org { assert k in SessionsOf(h, org); }
    }
  }

  predicate PlainOrgs(run: seq<Timed>) {
    forall i :: 0 <= i < |run| ==> PlainOrg(run[i].event)
  }

  lemma {:induction false} RunKeepsTagged(run: seq<Timed>)
    requires EnabledRun(run) && PlainOrgs(run)
    ensures Tagged(Exec(run))
  {
    hide Next, Enabled, Tagged;
    if run == [] {
      NothingTagged();
    } else {
      RunKeepsTagged(run[..|run| - 1]);
      StepKeepsTagged(Exec(run[..|run| - 1]), run[|run| - 1]);
    }
  }

  lemma NothingTagged()
    ensures Tagged(NO_SESSIONS)
  {
  }

  /** From the m-th event on, nothing but foreign events. */
  ghost predicate ForeignFrom(run: seq<Timed>, m: nat, org: string)
    requires EnabledRun(run)
    decreases |run|
  {
    |run| <= m
    || (ForeignFrom(run[..|run| - 1], m, org) && Foreign(Exec(run[..|run| - 1]), run[|run| - 1].event, org))
  }

  /** Over any stretch of a run an organization's sessions are changed by its own requests, its own processes' exits,
      the reaper's ticks and stopAll, and by nothing else. */
  lemma {:induction false} OnlyOwnChange(run: seq<Timed>, m: nat, org: string)
    requires EnabledRun(run) && PlainOrgs(run) && m <= |run| && ForeignFrom(run, m, org)
    ensures EnabledRun(run[..m]) && SessionsOf(Exec(run), org) == SessionsOf(Exec(run[..m]), org)
    decreases |run|
  {
    hide Next, Enabled, Tagged, SessionsOf, Foreign;
    if m == |run| {
      assert run[..m] == run;
    } else {
      var n := |run| - 1;
      assert run[..n][..m] == run[..m];
      OnlyOwnChange(run[..n], m, org);
      RunKeepsTagged(run[..n]);
      ForeignStep(Exec(run[..n]), run[n], org);
    }
  }

  /** And a tick takes from them exactly those idle for more than a minute. */
  lemma TickTakesIdle(h: Hls, now: int, org: string)
    ensures SessionsOf(Reaped(h, now), org)
         == map k | k in SessionsOf(h, org) && !Idle(h.sessions[k], now) :: h.sessions[k]
  {
    hide Idle, ProcsOf;
  }

  // ---------------------------------------------------------------- the sessions, told from the events alone

  /** The process started for a key, when, and when it was last asked for. */
  datatype Life = Life(proc: nat, startedAt: int, lastUse: int)

  /** The session alive under a key after a run: started by the first request that finds none, kept by requests and by
      reads of plain names, ended by its own stop or exit, by stopAll, and by a tick that comes more than a minute after
      its last use. Processes are numbered in the order of their starts. */
  ghost function Alive(run: seq<Timed>, k: string): Option<Life>
    decreases |run|, 0
  {
    if run == [] then None
    else
      var p, t := run[..|run| - 1], run[|run| - 1];
      var was := Alive(p, k);
      match t.event
      case EnsureSession(org, cam) =>
        if Join(org, cam) != k then was
        else if was.Some? then Some(was.value.(lastUse := t.now)) else Some(Life(Starts(p), t.now, t.now))
      case ReadArtifact(org, cam, name) =>
        if Join(org, cam) == k && was.Some? && PlainName(name) then Some(was.value.(lastUse := t.now)) else was
      case StopSession(org, cam) => if Join(org, cam) == k then None else was
      case ProcessExits(proc) => if was.Some? && was.value.proc == proc then None else was
      case ReaperTicks => if was.Some? && t.now - was.value.lastUse > 60_000 then None else was
      case StopAll => None
  }

  /** How many processes a run has started: one for every request that finds no session. */
  ghost function Starts(run: seq<Timed>): nat
    decreases |run|, 1
  {
    if run == [] then 0
    else
      var p, e := run[..|run| - 1], run[|run| - 1].event;
      Starts(p) + if e.EnsureSession? && Alive(p, Join(e.org, e.cam)).None? then 1 else 0
  }

  /** When the reaper is due: 15 s after the start that armed it or after its last tick, as long as a session is
      left. */
  ghost function Due(run: seq<Timed>): Option<int> {
    if run == [] then None
    else
      var p, t := run[..|run| - 1], run[|run| - 1];
      match t.event
      case EnsureSession(org, cam) =>
        if Due(p).None? && Alive(p, Join(org, cam)).None? then Some(t.now + 15_000) else Due(p)
      case ReaperTicks => if forall k :: Alive(run, k).None? then None else Some(t.now + 15_000)
      case StopAll => None
      case _ => Due(p)
  }

  /** What the map holds under a key. */
  function Held(h: Hls, k: string): Option<Life> {
    if k in h.sessions then Some(Life(h.sessions[k].proc, h.sessions[k].startedAt, h.sessions[k].lastAccess)) else None
  }

  lemma StepHolds(h: Hls, t: Timed, k: string)
    requires Paired(h) && Enabled(h, t.event)
    ensures var was, now := Held(h, k), Held(Next(h, t), k);
            match t.event
            case EnsureSession(org, cam) =>
              && (Join(org, cam) != k ==> now == was)
              && (Join(org, cam) == k ==>
                    now == Some(if was.Some? then was.value.(lastUse := t.now) else Life(h.nextProc, t.now, t.now)))
            case ReadArtifact(org, cam, name) =>
              now == if Join(org, cam) == k && was.Some? && PlainName(name) then Some(was.value.(lastUse := t.now))
                     else was
            case StopSession(org, cam) => now == if Join(org, cam) == k then None else was
            case ProcessExits(proc) => now == if was.Some? && was.value.proc == proc then None else was
            case ReaperTicks => now == if was.Some? && t.now - was.value.lastUse > 60_000 then None else was
            case StopAll => now == None
  {
    hide PlainName, Join, ProcsOf;
  }

  lemma StepStarts(h: Hls, t: Timed)
    requires Paired(h) && Enabled(h, t.event)
    ensures Next(h, t).nextProc
         == h.nextProc + if t.event.EnsureSession? && Held(h, Join(t.event.org, t.event.cam)).None? then 1 else 0
    ensures var q := Next(h, t);
            match t.event
            case EnsureSession(org, cam) =>
              q.reaper == if h.reaper.None? && Held(h, Join(org, cam)).None? then Some(t.now + 15_000) else h.reaper
            case ReaperTicks => q.reaper == if forall k :: Held(q, k).None? then None else Some(t.now + 15_000)
            case StopAll => q.reaper == None
            case _ => q.reaper == h.reaper
  {
    hide PlainName, Join, ProcsOf;
    if t.event.ReaperTicks? {
      var q := Next(h, t);
      if q.sessions != map[] {
        var k :| k in q.sessions;
        assert Held(q, k).Some?;
      }
    }
  }

  /** In every run the manager's map, process count and reaper are exactly what the events tell. */
  lemma {:induction false} SessionsAreTold(run: seq<Timed>)
    requires EnabledRun(run)
    ensures forall k :: Held(Exec(run), k) == Alive(run, k)
    ensures Exec(run).nextProc == Starts(run) && Exec(run).reaper == Due(run)
  {
    if run != [] {
      hide Next, Enabled, Paired, Held, Join, PlainName;
      var n := |run| - 1;
      var h := Exec(run[..n]);
      SessionsAreTold(run[..n]);
      RunIsPaired(run[..n]);
      forall k ensures Held(Exec(run), k) == Alive(run, k) { StepHolds(h, run[n], k); }
      StepStarts(h, run[n]);
    } else {
      assert forall k :: k !in NO_SESSIONS.sessions;
    }
  }

  lemma {:induction false} RunIsPaired(run: seq<Timed>)
    requires EnabledRun(run)
    ensures Paired(Exec(run))
  {
    RunKeepsInv(run, if run == [] then 0 else run[|run| - 1].now);
    hide Exec, EnabledRun;
  }

  /** A session asked for in the last minute survives the reaper. */
  lemma {:induction false} RecentUseSurvives(run: seq<Timed>, k: string)
    requires EnabledRun(run) && run != [] && run[|run| - 1].event.ReaperTicks?
    requires Alive(run[..|run| - 1], k).Some? && run[|run| - 1].now - Alive(run[..|run| - 1], k).value.lastUse <= 60_000
    ensures k in Exec(run).sessions && Exec(run).sessions[k] == Exec(run[..|run| - 1]).sessions[k]
  {
    hide Next, Enabled;
    var n := |run| - 1;
    SessionsAreTold(run[..n]);
    SessionsAreTold(run);
    assert Held(Exec(run), k) == Alive(run, k);
    SurvivingTick(Exec(run[..n]), run[n], k);
  }

  lemma SurvivingTick(h: Hls, t: Timed, k: string)
    requires t.event.ReaperTicks? && Enabled(h, t.event) && k in Next(h, t).sessions
    ensures k in h.sessions && Next(h, t).sessions[k] == h.sessions[k]
  {
  }

  // ---------------------------------------------------------------- file names

  /** A name is served exactly if it is not empty, holds letters, digits, dots, dashes and underscores only, and nowhere
      two dots together. */
  lemma PlainNames(name: string)
    ensures PlainName(name)
       <==> && name != "" && (forall a: string, b: string :: name != a + ".." + b)
            && forall c :: c in name ==> || 'A' <= c <= 'Z' || 'a' <= c <= 'z' || '0' <= c <= '9'
                                         || c == '.' || c == '_' || c == '-'
  {
    forall a: string, b: string ensures name == a + ".." + b ==> !PlainName(name) {
      if name == a + ".." + b {
        var i, j := |a|, |a| + 1;
        assert name[i] == '.' && name[j] == '.';
      }
    }
    if i :| 0 <= i < |name| && !PlainChar(name[i]) {
      assert name[i] in name;
    } else if i, j :| 0 <= i && j == i + 1 < |name| && name[i] == '.' && name[j] == '.' {
      assert name == name[..i] + ".." + name[j + 1..];
    }
  }
}
