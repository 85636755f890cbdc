/**
 One camera's pipeline of the media worker (server/src/media/worker.ts): FFmpeg child, reconnect
 timer, frame and inference counters, periodic flush. What the runtime holds for it (running
 children, armed timeouts, live intervals, outstanding inference calls) is modelled beside its fields.
 */
module Pipeline {
  import opened Wrappers
  import opened Health

  const MAX_LATENCIES := 50

  /** The camera and configuration values the pipeline reads; times are in milliseconds. */
  datatype Settings = Settings(inferenceEnabled: bool, reconnectBaseMs: int, reconnectMaxMs: int)

  /** A frame source with the child it runs, if any. */
  datatype Source = NoSource | Source(child: Option<nat>)

  /** The flags a health report may carry. */
  datatype Mark = Unmarked | FirstFrame | Inference | Reconnect

  /** A health report; the one before a retry says which attempt it is and how long it waits. */
  datatype Report =
    | Plain(status: CameraStatus, mark: Mark)
    | Retry(attempt: nat, delay: int)

  datatype Post = Post(frames: nat, detections: nat, failures: nat, avgLatencyMs: real, accepted: bool)

  /**
   What the runtime holds for a pipeline and has sent for it: running children, armed timeouts with their delays, live
   intervals, inference calls and submissions under way, the next handle, the reports and posts issued so far.
   */
  datatype Runtime = Runtime(
    children: set<nat>, timeouts: map<nat, int>, intervals: set<nat>, inferring: nat, submitting: nat, nextId: nat,
    reports: seq<Report>, posts: seq<Post>)

  /** The fields of the source's object, and the runtime beside it. */
  datatype Pipe = Pipe(
    source: Source, reconnectAttempts: nat, reconnectTimer: Option<nat>, stopped: bool,
    inFlight: bool, frames: nat, detections: nat, failures: nat, latencies: seq<real>, statsTimer: Option<nat>,
    rt: Runtime)

  const NEW_PIPE := Pipe(NoSource, 0, None, false, false, 0, 0, 0, [], None, Runtime({}, map[], {}, 0, 0, 0, [], []))

  function StatusOf(r: Report): CameraStatus {
    match r
    case Plain(status, _) => status
    case Retry(_, _) => Reconnecting
  }

  // ---------------------------------------------------------------- the steps

  function Pow2(n: nat): (r: int)
    ensures r >= 1
  {
    if n == 0 then 1 else 2 * Pow2(n - 1)
  }

  function Min(a: int, b: int): int {
    if a < b then a else b
  }

  function Delay(cfg: Settings, attempts: nat): int
    requires attempts >= 1
  {
    Min(cfg.reconnectMaxMs, cfg.reconnectBaseMs * Pow2(Min(attempts - 1, 6)))
  }

  function Started(p: Pipe): Pipe {
    if p.stopped then p
    else
      var id := p.rt.nextId;
      p.(source := Source(Some(id)), reconnectAttempts := 0, statsTimer := Some(id + 1),
         rt := p.rt.(reports := p.rt.reports + [Plain(Connecting, Unmarked)], children := p.rt.children + {id},
                     intervals := p.rt.intervals + {id + 1}, nextId := id + 2))
  }

  function ScheduledReconnect(cfg: Settings, p: Pipe): Pipe {
    if p.stopped then p
    else
      var attempts, id := p.reconnectAttempts + 1, p.rt.nextId;
      var delay := Delay(cfg, attempts);
      p.(reconnectAttempts := attempts, reconnectTimer := Some(id),
         rt := p.rt.(reports := p.rt.reports + [Retry(attempts, delay)], timeouts := p.rt.timeouts[id := delay],
                     nextId := id + 1))
  }

  function Exited(cfg: Settings, p: Pipe, child: nat): Pipe {
    ScheduledReconnect(cfg,
      p.(source := if p.source == Source(Some(child)) then Source(None) else p.source,
         rt := p.rt.(children := p.rt.children - {child}, reports := p.rt.reports + [Plain(Offline, Reconnect)])))
  }

  /** A child that could not be spawned ends in an 'error' event, which is only logged: its source keeps the handle. */
  function SpawnFailed(p: Pipe, child: nat): Pipe {
    p.(rt := p.rt.(children := p.rt.children - {child}))
  }

  function TimedOut(p: Pipe, timer: nat): Pipe {
    var q := p.(rt := p.rt.(timeouts := p.rt.timeouts - {timer}));
    if p.stopped then q else Started(q.(source := NoSource))
  }

  function FrameCame(cfg: Settings, p: Pipe): Pipe {
    var first := p.rt.(reports := if p.frames == 0 then p.rt.reports + [Plain(Online, FirstFrame)] else p.rt.reports);
    var q := p.(frames := p.frames + 1, rt := first);
    if !cfg.inferenceEnabled || p.inFlight then q
    else q.(inFlight := true, rt := first.(inferring := first.inferring + 1))
  }

  /** The latencies after one more: pushed at the end, the oldest shifted out beyond fifty. */
  function Window(latencies: seq<real>, latency: real): seq<real> {
    var l := latencies + [latency];
    if |l| > MAX_LATENCIES then l[1..] else l
  }

  function Inferred(p: Pipe, found: nat, latency: real): Pipe
    requires p.rt.inferring > 0
  {
    p.(detections := p.detections + found, latencies := Window(p.latencies, latency),
       rt := p.rt.(reports := p.rt.reports + [Plain(Online, Inference)],
                   inferring := p.rt.inferring - 1, submitting := p.rt.submitting + 1))
  }

  function InferenceFailed(p: Pipe): Pipe
    requires p.rt.inferring > 0
  {
    p.(failures := p.failures + 1, inFlight := false, rt := p.rt.(inferring := p.rt.inferring - 1))
  }

  function Submitted(p: Pipe): Pipe
    requires p.rt.submitting > 0
  {
    p.(inFlight := false, rt := p.rt.(submitting := p.rt.submitting - 1))
  }

  function Sum(l: seq<real>): real {
    if l == [] then 0.0 else Sum(l[..|l| - 1]) + l[|l| - 1]
  }

  function Average(l: seq<real>): real {
    if l == [] then 0.0 else Sum(l) / (|l| as real)
  }

  /** Math.round to two decimals: halves go up. */
  function Round2(x: real): real {
    (x * 100.0 + 0.5).Floor as real / 100.0
  }

  /** Counters restart at zero; nothing is posted when all three are zero. */
  function Flushed(p: Pipe, accepted: bool): Pipe {
    var q := p.(frames := 0, detections := 0, failures := 0);
    if p.frames == 0 && p.detections == 0 && p.failures == 0 then q
    else
      var post := Post(p.frames, p.detections, p.failures, Round2(Average(p.latencies)), accepted);
      q.(rt := p.rt.(posts := p.rt.posts + [post]))
  }

  function ClearTimeout(timeouts: map<nat, int>, timer: Option<nat>): map<nat, int> {
    if timer.Some? then timeouts - {timer.value} else timeouts
  }

  function ClearInterval(intervals: set<nat>, timer: Option<nat>): set<nat> {
    if timer.Some? then intervals - {timer.value} else intervals
  }

  /** The children left once a source has told its own to end. */
  function StopSource(children: set<nat>, source: Source): set<nat> {
    if source.Source? && source.child.Some? then children - {source.child.value} else children
  }

  function Stopped(p: Pipe): Pipe {
    p.(stopped := true, source := NoSource,
       rt := p.rt.(timeouts := ClearTimeout(p.rt.timeouts, p.reconnectTimer),
                   intervals := ClearInterval(p.rt.intervals, p.statsTimer),
                   children := StopSource(p.rt.children, p.source)))
  }

  class CameraPipeline {
    const cfg: Settings
    var source: Source
    var reconnectAttempts: nat
    var reconnectTimer: Option<nat>
    var stopped: bool
    var inFlight: bool
    var frames: nat
    var detections: nat
    var failures: nat
    var latencies: seq<real>
    var statsTimer: Option<nat>
    var rt: Runtime

    ghost function Contents(): Pipe
      reads this
    {
      Pipe(source, reconnectAttempts, reconnectTimer, stopped, inFlight, frames, detections, failures, latencies,
           statsTimer, rt)
    }

    ghost predicate Is(p: Pipe)
      reads this
    {
      Contents() == p
    }

    constructor (cfg: Settings)
      ensures Contents() == NEW_PIPE && this.cfg == cfg
    {
      this.cfg := cfg;
      source, reconnectAttempts, reconnectTimer, stopped := NoSource, 0, None, false;
      inFlight, frames, detections, failures, latencies, statsTimer := false, 0, 0, 0, [], None;
      rt := Runtime({}, map[], {}, 0, 0, 0, [], []);
    }

    method Start()
      modifies this
      ensures Contents() == Started(old(Contents()))
    {
      if !stopped {
        var id := rt.nextId;
        rt := rt.(reports := rt.reports + [Plain(Connecting, Unmarked)]);
        source := Source(Some(id));
        rt := rt.(children := rt.children + {id});
        reconnectAttempts := 0;
        statsTimer := Some(id + 1);
        rt := rt.(intervals := rt.intervals + {id + 1}, nextId := id + 2);
      }
    }

    method ScheduleReconnect()
      modifies this
      ensures Contents() == ScheduledReconnect(cfg, old(Contents()))
    {
      if !stopped {
        reconnectAttempts := reconnectAttempts + 1;
        var delay := Delay(cfg, reconnectAttempts);
        rt := rt.(reports := rt.reports + [Retry(reconnectAttempts, delay)]);
        reconnectTimer := Some(rt.nextId);
        rt := rt.(timeouts := rt.timeouts[rt.nextId := delay], nextId := rt.nextId + 1);
      }
    }

    /** The child ended on its own: its source reports the exit. */
    method OnExit(child: nat)
      requires child in rt.children
      modifies this
      ensures Contents() == Exited(cfg, old(Contents()), child)
    {
      if source == Source(Some(child)) { source := Source(None); }
      rt := rt.(children := rt.children - {child}, reports := rt.reports + [Plain(Offline, Reconnect)]);
      ScheduleReconnect();
    }

    method OnSpawnError(child: nat)
      requires child in rt.children
      modifies this
      ensures Contents() == SpawnFailed(old(Contents()), child)
    {
      rt := rt.(children := rt.children - {child});
    }

    method OnTimeout(timer: nat)
      requires timer in rt.timeouts
      modifies this
      ensures Contents() == TimedOut(old(Contents()), timer)
    {
      rt := rt.(timeouts := rt.timeouts - {timer});
      if stopped { return; }
      source := NoSource;
      Start();
    }

    method OnFrame()
      modifies this
      ensures Contents() == FrameCame(cfg, old(Contents()))
    {
      frames := frames + 1;
      if frames == 1 { rt := rt.(reports := rt.reports + [Plain(Online, FirstFrame)]); }
      if !cfg.inferenceEnabled { return; }
      if inFlight { return; }
      inFlight := true;
      rt := rt.(inferring := rt.inferring + 1);
    }

    method OnInferred(found: nat, latency: real)
      requires rt.inferring > 0
      modifies this
      ensures Contents() == Inferred(old(Contents()), found, latency)
    {
      detections := detections + found;
      rt := rt.(reports := rt.reports + [Plain(Online, Inference)]);
      latencies := latencies + [latency];
      if |latencies| > MAX_LATENCIES { latencies := latencies[1..]; }
      rt := rt.(inferring := rt.inferring - 1, submitting := rt.submitting + 1);
    }

    method OnInferenceFailed()
      requires rt.inferring > 0
      modifies this
      ensures Contents() == InferenceFailed(old(Contents()))
    {
      rt := rt.(inferring := rt.inferring - 1);
      failures := failures + 1;
      inFlight := false;
    }

    method OnSubmitted()
      requires rt.submitting > 0
      modifies this
      ensures Contents() == Submitted(old(Contents()))
    {
      rt := rt.(submitting := rt.submitting - 1);
      inFlight := false;
    }

    method AverageLatency() returns (avg: real)
      ensures avg == Average(latencies)
    {
      avg := 0.0;
      if |latencies| > 0 {
        var sum, i := 0.0, 0;
        while i < |latencies|
          invariant 0 <= i <= |latencies| && sum == Sum(latencies[..i])
        {
          assert latencies[..i + 1][..i] == latencies[..i];
          sum := sum + latencies[i];
          i := i + 1;
        }
        assert latencies[..|latencies|] == latencies;
        avg := sum / (|latencies| as real);
      }
    }

    method FlushStats(accepted: bool)
      modifies this
      ensures Contents() == Flushed(old(Contents()), accepted)
    {
      hide Average, Round2;
      var avg := AverageLatency();
      var f, d, x := frames, detections, failures;
      frames, detections, failures := 0, 0, 0;
      if f != 0 || d != 0 || x != 0 { rt := rt.(posts := rt.posts + [Post(f, d, x, Round2(avg), accepted)]); }
    }

    method Stop()
      modifies this
      ensures Contents() == Stopped(old(Contents()))
    {
      stopped := true;
      if reconnectTimer.Some? { rt := rt.(timeouts := rt.timeouts - {reconnectTimer.value}); }
      if statsTimer.Some? { rt := rt.(intervals := rt.intervals - {statsTimer.value}); }
      if source.Source? && source.child.Some? { rt := rt.(children := rt.children - {source.child.value}); }
      source := NoSource;
    }
  }

  // ---------------------------------------------------------------- runs

  /** What can happen to a started pipeline. Frames still buffered in a pipe may arrive at any time, even after stop. */
  datatype Event =
    | ChildExits(child: nat)
    | SpawnFails(child: nat)
    | TimerFires(timer: nat)
    | FrameArrives
    | InferenceReturns(found: nat, latency: real)
    | InferenceBreaks
    | SubmissionsEnd
    | StatsTick(interval: nat, accepted: bool)
    | StopCalled

  predicate Enabled(p: Pipe, e: Event) {
    match e
    case ChildExits(child) => child in p.rt.children
    case SpawnFails(child) => child in p.rt.children
    case TimerFires(timer) => timer in p.rt.timeouts
    case InferenceReturns(_, _) => p.rt.inferring > 0
    case InferenceBreaks => p.rt.inferring > 0
    case SubmissionsEnd => p.rt.submitting > 0
    case StatsTick(interval, _) => interval in p.rt.intervals
    case _ => true
  }

  function Next(cfg: Settings, p: Pipe, e: Event): Pipe
    requires Enabled(p, e)
  {
    match e
    case ChildExits(child) => Exited(cfg, p, child)
    case SpawnFails(child) => SpawnFailed(p, child)
    case TimerFires(timer) => TimedOut(p, timer)
    case FrameArrives => FrameCame(cfg, p)
    case InferenceReturns(found, latency) => Inferred(p, found, latency)
    case InferenceBreaks => InferenceFailed(p)
    case SubmissionsEnd => Submitted(p)
    case StatsTick(_, accepted) => Flushed(p, accepted)
    case StopCalled => Stopped(p)
  }

  predicate EnabledRun(cfg: Settings, run: seq<Event>)
    decreases |run|, 0
  {
    run == [] || (EnabledRun(cfg, run[..|run| - 1]) && Enabled(Exec(cfg, run[..|run| - 1]), run[|run| - 1]))
  }

  /** A pipeline is started once, when it is created; every later start is its own. */
  function Exec(cfg: Settings, run: seq<Event>): Pipe
    requires EnabledRun(cfg, run)
    decreases |run|, 1
  {
    if run == [] then Started(NEW_PIPE) else Next(cfg, Exec(cfg, run[..|run| - 1]), run[|run| - 1])
  }

  /** While it runs a pipeline holds either one child, running or never spawned, or one pending reconnect; once stopped
      it has neither. */
  predicate Live(p: Pipe) {
    if p.stopped then p.source == NoSource && p.rt.children == {} && p.rt.timeouts == map[]
    else
      && p.source.Source?
      && p.statsTimer.Some? && p.statsTimer.value in p.rt.intervals
      && (match p.source.child
          case Some(c) => p.rt.children <= {c} && p.rt.timeouts == map[] && p.reconnectAttempts == 0
          case None => p.rt.children == {} && p.reconnectTimer.Some? && p.rt.timeouts.Keys == {p.reconnectTimer.value})
  }

  predicate IdsUsed(p: Pipe) {
    && (forall i :: i in p.rt.children ==> i < p.rt.nextId)
    && (forall i :: i in p.rt.timeouts ==> i < p.rt.nextId)
    && (forall i :: i in p.rt.intervals ==> i < p.rt.nextId)
  }

  /** An inference is outstanding exactly while the flag is up, and then only one. */
  predicate OneInference(p: Pipe) {
    p.rt.inferring + p.rt.submitting == if p.inFlight then 1 else 0
  }

  predicate Inv(p: Pipe) {
    Live(p) && IdsUsed(p) && OneInference(p)
  }

  lemma StepKeepsInv(cfg: Settings, p: Pipe, e: Event)
    requires Inv(p) && Enabled(p, e)
    ensures Inv(Next(cfg, p, e)) && (p.stopped ==> Next(cfg, p, e).stopped)
    ensures e.StopCalled? ==>
              Next(cfg, p, e) == Stopped(p) && Next(cfg, p, e).stopped && Next(cfg, p, e).rt.reports == p.rt.reports
  {
    hide Delay, Average, Round2;
  }

  lemma IdleWhenStopped(p: Pipe)
    requires Inv(p) && p.stopped
    ensures p.rt.children == {} && p.rt.timeouts == map[]
  {
  }

  /** In every run: never a child and a pending reconnect together, nor two of either; never two inferences at once. */
  lemma {:induction false} PipelineRun(cfg: Settings, run: seq<Event>)
    requires EnabledRun(cfg, run)
    ensures Inv(Exec(cfg, run))
    ensures var p := Exec(cfg, run); |p.rt.children| + |p.rt.timeouts| <= 1 && p.rt.inferring + p.rt.submitting <= 1
  {
    if run != [] {
      hide Next, Enabled, Inv;
      PipelineRun(cfg, run[..|run| - 1]);
      StepKeepsInv(cfg, Exec(cfg, run[..|run| - 1]), run[|run| - 1]);
    }
    AtMostOne(Exec(cfg, run));
  }

  lemma AtMostOne(p: Pipe)
    requires Inv(p)
    ensures |p.rt.children| + |p.rt.timeouts| <= 1 && p.rt.inferring + p.rt.submitting <= 1
  {
    if !p.stopped && p.source.child.Some? { SubsetSize(p.rt.children, {p.source.child.value}); }
    if !p.stopped && p.source.child.None? { assert |p.rt.timeouts| == |p.rt.timeouts.Keys|; }
  }

  predicate OnlyOnlineAfter(reports: seq<Report>, n: nat) {
    forall i :: n <= i < |reports| ==> reports[i].Plain? && reports[i].status == Online
  }

  lemma StepAfterStop(cfg: Settings, p: Pipe, e: Event)
    requires Inv(p) && p.stopped && Enabled(p, e)
    ensures p.rt.reports <= Next(cfg, p, e).rt.reports && OnlyOnlineAfter(Next(cfg, p, e).rt.reports, |p.rt.reports|)
  {
  }

  /** From stop on nothing is running or armed, and nothing is ever started again; at most late frames still report. */
  lemma {:induction false} AfterStop(cfg: Settings, run: seq<Event>, k: nat)
    requires EnabledRun(cfg, run) && k < |run| && run[k] == StopCalled
    ensures var p := Exec(cfg, run); p.stopped && p.rt.children == {} && p.rt.timeouts == map[]
    ensures EnabledRun(cfg, run[..k])
    ensures var before := Exec(cfg, run[..k]).rt.reports;
            before <= Exec(cfg, run).rt.reports && OnlyOnlineAfter(Exec(cfg, run).rt.reports, |before|)
  {
    hide Next, Inv, Enabled, Stopped;
    var n := |run| - 1;
    PipelineRun(cfg, run[..n]);
    StepKeepsInv(cfg, Exec(cfg, run[..n]), run[n]);
    if k < n {
      assert run[..n][..k] == run[..k];
      AfterStop(cfg, run[..n], k);
      StepAfterStop(cfg, Exec(cfg, run[..n]), run[n]);
    }
    IdleWhenStopped(Exec(cfg, run));
  }

  /** Nothing runs and nothing is pending. */
  predicate Idle(p: Pipe) {
    p.rt.children == {} && p.rt.timeouts == map[] && (p.stopped || (p.source.Source? && p.source.child.Some?))
  }

  lemma StepStaysIdle(cfg: Settings, p: Pipe, e: Event)
    requires Idle(p) && Enabled(p, e)
    ensures Idle(Next(cfg, p, e))
    ensures p.rt.reports <= Next(cfg, p, e).rt.reports && OnlyOnlineAfter(Next(cfg, p, e).rt.reports, |p.rt.reports|)
  {
    hide Average, Round2, Delay;
  }

  lemma FailureIsIdle(cfg: Settings, p: Pipe, child: nat)
    requires Inv(p) && child in p.rt.children
    ensures Idle(SpawnFailed(p, child))
  {
  }

  /** After a spawn that fails the pipeline is stuck: no health report tells of it, no reconnect follows, and nothing is
      ever started again. */
  lemma {:induction false} StuckForGood(cfg: Settings, run: seq<Event>, k: nat)
    requires EnabledRun(cfg, run) && k < |run| && run[k].SpawnFails?
    ensures Idle(Exec(cfg, run)) && EnabledRun(cfg, run[..k])
    ensures var before := Exec(cfg, run[..k]).rt.reports;
            before <= Exec(cfg, run).rt.reports && OnlyOnlineAfter(Exec(cfg, run).rt.reports, |before|)
  {
    hide Next, Inv, Enabled, Idle;
    var n := |run| - 1;
    PipelineRun(cfg, run[..n]);
    if k < n {
      assert run[..n][..k] == run[..k];
      StuckForGood(cfg, run[..n], k);
      StepStaysIdle(cfg, Exec(cfg, run[..n]), run[n]);
    } else {
      FailingStep(cfg, Exec(cfg, run[..n]), run[n]);
    }
  }

  lemma FailingStep(cfg: Settings, p: Pipe, e: Event)
    requires Inv(p) && Enabled(p, e) && e.SpawnFails?
    ensures Idle(Next(cfg, p, e)) && Next(cfg, p, e).rt.reports == p.rt.reports
  {
    FailureIsIdle(cfg, p, e.child);
  }

  // ---------------------------------------------------------------- counting

  function Frames(run: seq<Event>): nat {
    if run == [] then 0 else Frames(run[..|run| - 1]) + if run[|run| - 1].FrameArrives? then 1 else 0
  }

  function Found(run: seq<Event>): nat {
    if run == [] then 0
    else Found(run[..|run| - 1]) + if run[|run| - 1].InferenceReturns? then run[|run| - 1].found else 0
  }

  function Breaks(run: seq<Event>): nat {
    if run == [] then 0 else Breaks(run[..|run| - 1]) + if run[|run| - 1].InferenceBreaks? then 1 else 0
  }

  function Fires(run: seq<Event>): nat {
    if run == [] then 0 else Fires(run[..|run| - 1]) + if run[|run| - 1].TimerFires? then 1 else 0
  }

  function Exits(run: seq<Event>): nat {
    if run == [] then 0 else Exits(run[..|run| - 1]) + if run[|run| - 1].ChildExits? then 1 else 0
  }

  datatype Totals = Totals(frames: nat, detections: nat, failures: nat)

  function Plus(t: Totals, p: Post): Totals {
    Totals(t.frames + p.frames, t.detections + p.detections, t.failures + p.failures)
  }

  /** What the posts carried: the accepted ones, or the ones that never arrived. */
  function Carried(posts: seq<Post>, accepted: bool): Totals {
    if posts == [] then Totals(0, 0, 0)
    else
      var n := |posts| - 1;
      var t := Carried(posts[..n], accepted);
      if posts[n].accepted == accepted then Plus(t, posts[n]) else t
  }

  /** The camera's inference_stats row: inserted by the first accepted post, added to by the others. */
  function Stored(posts: seq<Post>): Option<Totals> {
    if posts == [] then None
    else
      var n := |posts| - 1;
      var row := Stored(posts[..n]);
      if !posts[n].accepted then row
      else if row.None? then Some(Totals(posts[n].frames, posts[n].detections, posts[n].failures))
      else Some(Plus(row.value, posts[n]))
  }

  lemma {:induction false} StoredIsCarried(posts: seq<Post>)
    ensures Stored(posts).GetOr(Totals(0, 0, 0)) == Carried(posts, true)
  {
    if posts != [] { StoredIsCarried(posts[..|posts| - 1]); }
  }

  /** All a pipeline has counted: posted or still in its counters. */
  function Counted(p: Pipe): Totals {
    var a, b := Carried(p.rt.posts, true), Carried(p.rt.posts, false);
    Totals(a.frames + b.frames + p.frames, a.detections + b.detections + p.detections,
           a.failures + b.failures + p.failures)
  }

  lemma {:induction false} CarriedSnoc(posts: seq<Post>, post: Post, accepted: bool)
    ensures Carried(posts + [post], accepted)
            == if post.accepted == accepted then Plus(Carried(posts, accepted), post) else Carried(posts, accepted)
  {
    assert (posts + [post])[..|posts|] == posts;
  }

  lemma StepCounts(cfg: Settings, p: Pipe, e: Event)
    requires Enabled(p, e)
    ensures var c, d := Counted(p), Counted(Next(cfg, p, e));
            && d.frames == c.frames + (if e.FrameArrives? then 1 else 0)
            && d.detections == c.detections + (if e.InferenceReturns? then e.found else 0)
            && d.failures == c.failures + (if e.InferenceBreaks? then 1 else 0)
  {
    hide Average, Round2, Delay, Carried;
    if e.StatsTick? {
      var post := Post(p.frames, p.detections, p.failures, Round2(Average(p.latencies)), e.accepted);
      CarriedSnoc(p.rt.posts, post, true);
      CarriedSnoc(p.rt.posts, post, false);
    }
  }

  /** Nothing is counted twice or dropped: every frame, detection and failure of a run is in the stored row, in a post
      that was not accepted, or still in the counters. */
  lemma {:induction false} Conservation(cfg: Settings, run: seq<Event>)
    requires EnabledRun(cfg, run)
    ensures var p := Exec(cfg, run);
            var stored, lost := Stored(p.rt.posts).GetOr(Totals(0, 0, 0)), Carried(p.rt.posts, false);
            && Frames(run) == stored.frames + lost.frames + p.frames
            && Found(run) == stored.detections + lost.detections + p.detections
            && Breaks(run) == stored.failures + lost.failures + p.failures
  {
    StoredIsCarried(Exec(cfg, run).rt.posts);
    if run != [] {
      var q := Exec(cfg, run[..|run| - 1]);
      Conservation(cfg, run[..|run| - 1]);
      StoredIsCarried(q.rt.posts);
      StepCounts(cfg, q, run[|run| - 1]);
      hide Next, Stored, Carried;
    }
  }

  /** The retries announced: always attempt 1, always after the base delay, since every start resets the counter. */
  predicate FirstRetries(cfg: Settings, reports: seq<Report>) {
    forall r :: r in reports && r.Retry? ==> r == Retry(1, Min(cfg.reconnectMaxMs, cfg.reconnectBaseMs))
  }

  predicate BaseDelays(cfg: Settings, timeouts: map<nat, int>) {
    forall t :: t in timeouts ==> timeouts[t] == Min(cfg.reconnectMaxMs, cfg.reconnectBaseMs)
  }

  lemma StepRetries(cfg: Settings, p: Pipe, e: Event)
    requires Inv(p) && Enabled(p, e) && FirstRetries(cfg, p.rt.reports) && BaseDelays(cfg, p.rt.timeouts)
    ensures FirstRetries(cfg, Next(cfg, p, e).rt.reports) && BaseDelays(cfg, Next(cfg, p, e).rt.timeouts)
  {
    assert Delay(cfg, 1) == Min(cfg.reconnectMaxMs, cfg.reconnectBaseMs);
    hide Delay, Average, Round2, IdsUsed;
  }

  lemma {:induction false} BackoffNeverGrows(cfg: Settings, run: seq<Event>)
    requires EnabledRun(cfg, run)
    ensures FirstRetries(cfg, Exec(cfg, run).rt.reports) && BaseDelays(cfg, Exec(cfg, run).rt.timeouts)
  {
    if run != [] {
      hide FirstRetries, BaseDelays, Next, Inv, Enabled;
      BackoffNeverGrows(cfg, run[..|run| - 1]);
      PipelineRun(cfg, run[..|run| - 1]);
      StepRetries(cfg, Exec(cfg, run[..|run| - 1]), run[|run| - 1]);
    }
  }

  lemma {:induction false} OneMore(cfg: Settings, run: seq<Event>, e: Event)
    requires EnabledRun(cfg, run) && Enabled(Exec(cfg, run), e)
    ensures EnabledRun(cfg, run + [e]) && Exec(cfg, run + [e]) == Next(cfg, Exec(cfg, run), e)
    ensures Exits(run + [e]) == Exits(run) + if e.ChildExits? then 1 else 0
    ensures Fires(run + [e]) == Fires(run) + if e.TimerFires? then 1 else 0
  {
    hide Next, Enabled;
    assert (run + [e])[..|run|] == run;
  }

  predicate Runs(p: Pipe, child: nat) {
    !p.stopped && p.rt.children == {child} && p.source == Source(Some(child)) && p.rt.timeouts == map[]
    && p.reconnectAttempts == 0
  }

  /** OFFLINE, the announcement of attempt 1 after the base delay, CONNECTING. */
  function Round(cfg: Settings): seq<Report> {
    [Plain(Offline, Reconnect), Retry(1, Min(cfg.reconnectMaxMs, cfg.reconnectBaseMs)), Plain(Connecting, Unmarked)]
  }

  /** An exit and the restart it leads to. */
  lemma ExitAndRestart(cfg: Settings, p: Pipe, child: nat)
    requires Runs(p, child)
    ensures var q := Exited(cfg, p, child);
            && p.rt.nextId in q.rt.timeouts
            && Runs(TimedOut(q, p.rt.nextId), p.rt.nextId + 1)
            && TimedOut(q, p.rt.nextId).rt.reports == p.rt.reports + Round(cfg)
  {
    assert Delay(cfg, 1) == Min(cfg.reconnectMaxMs, cfg.reconnectBaseMs);
    hide Delay;
    var q := Exited(cfg, p, child);
    assert q.rt.reports == p.rt.reports + [Round(cfg)[0]] + [Round(cfg)[1]];
    OneByOne(p.rt.reports, Round(cfg)[0], Round(cfg)[1], Round(cfg)[2]);
  }

  lemma OneByOne(l: seq<Report>, a: Report, b: Report, c: Report)
    ensures l + [a] + [b] + [c] == l + [a, b, c]
  {
  }

  /** A pipeline that is running may lose its child and restart; the reports it adds are always the same. */
  lemma {:induction false} OneRound(cfg: Settings, run: seq<Event>, child: nat) returns (longer: seq<Event>, next: nat)
    requires EnabledRun(cfg, run) && Runs(Exec(cfg, run), child)
    ensures EnabledRun(cfg, longer) && Runs(Exec(cfg, longer), next)
    ensures Exits(longer) == Exits(run) + 1 && Fires(longer) == Fires(run) + 1
    ensures Exec(cfg, longer).rt.reports == Exec(cfg, run).rt.reports + Round(cfg)
  {
    var p := Exec(cfg, run);
    assert child in p.rt.children;
    ExitAndRestart(cfg, p, child);
    hide Exec, EnabledRun, Exits, Fires, Exited, TimedOut, Delay, Round, Runs;
    OneMore(cfg, run, ChildExits(child));
    OneMore(cfg, run + [ChildExits(child)], TimerFires(p.rt.nextId));
    longer, next := run + [ChildExits(child)] + [TimerFires(p.rt.nextId)], p.rt.nextId + 1;
  }

  /** Two rounds announce attempt 1 twice, with the same delay. */
  lemma SecondRetryIsFirst(cfg: Settings) returns (run: seq<Event>)
    ensures EnabledRun(cfg, run) && Exits(run) == 2
    ensures Exec(cfg, run).rt.reports == Started(NEW_PIPE).rt.reports + Round(cfg) + Round(cfg)
  {
    var child: nat;
    assert EnabledRun(cfg, []) && Exec(cfg, []) == Started(NEW_PIPE) && Runs(Exec(cfg, []), 0) && Exits([]) == 0;
    hide Exec, EnabledRun, Exits, Fires, Runs, Round, Started;
    run, child := OneRound(cfg, [], 0);
    run, child := OneRound(cfg, run, child);
  }

  lemma StepIntervals(cfg: Settings, p: Pipe, e: Event)
    requires Inv(p) && Enabled(p, e)
    requires p.stopped ==> p.statsTimer.Some? && p.statsTimer.value !in p.rt.intervals
    ensures var q := Next(cfg, p, e);
            && |q.rt.intervals| + (if q.stopped then 1 else 0)
               == |p.rt.intervals| + (if p.stopped then 1 else 0) + (if e.TimerFires? then 1 else 0)
            && (q.stopped ==> q.statsTimer.Some? && q.statsTimer.value !in q.rt.intervals)
  {
    hide Delay, Average, Round2;
  }

  /** Every start leaves a stats interval behind and stop clears only the last: one per start while running, one per
      reconnect for ever after. */
  lemma {:induction false} IntervalsLeak(cfg: Settings, run: seq<Event>)
    requires EnabledRun(cfg, run)
    ensures var p := Exec(cfg, run);
            && |p.rt.intervals| == Fires(run) + (if p.stopped then 0 else 1)
            && (p.stopped ==> p.statsTimer.Some? && p.statsTimer.value !in p.rt.intervals)
  {
    if run != [] {
      hide Next, Inv, Enabled;
      IntervalsLeak(cfg, run[..|run| - 1]);
      PipelineRun(cfg, run[..|run| - 1]);
      StepIntervals(cfg, Exec(cfg, run[..|run| - 1]), run[|run| - 1]);
    }
  }

  /** Two restarts and a stop leave two intervals ticking. */
  lemma LeakExample(cfg: Settings) returns (run: seq<Event>)
    ensures EnabledRun(cfg, run) && run != [] && run[|run| - 1] == StopCalled && Fires(run) == 2
    ensures Exec(cfg, run).stopped && |Exec(cfg, run).rt.intervals| == 2
  {
    var child: nat;
    assert EnabledRun(cfg, []) && Exec(cfg, []) == Started(NEW_PIPE) && Runs(Exec(cfg, []), 0) && Fires([]) == 0;
    hide Exec, EnabledRun, Exits, Fires, Runs, Round, Started;
    run, child := OneRound(cfg, [], 0);
    run, child := OneRound(cfg, run, child);
    OneMore(cfg, run, StopCalled);
    run := run + [StopCalled];
    IntervalsLeak(cfg, run);
  }

  function Latencies(run: seq<Event>): seq<real> {
    if run == [] then []
    else Latencies(run[..|run| - 1]) + if run[|run| - 1].InferenceReturns? then [run[|run| - 1].latency] else []
  }

  function LastOf(l: seq<real>, n: nat): seq<real> {
    if |l| <= n then l else l[|l| - n..]
  }

  lemma StepLatencies(cfg: Settings, p: Pipe, e: Event, all: seq<real>)
    requires Enabled(p, e) && p.latencies == LastOf(all, MAX_LATENCIES)
    ensures Next(cfg, p, e).latencies
            == LastOf(all + if e.InferenceReturns? then [e.latency] else [], MAX_LATENCIES)
  {
    hide Delay, Average, Round2;
    assert all + [] == all;
  }

  /** The average posted is over the last fifty inferences, whatever was flushed in between. */
  lemma {:induction false} LatencyWindow(cfg: Settings, run: seq<Event>)
    requires EnabledRun(cfg, run)
    ensures Exec(cfg, run).latencies == LastOf(Latencies(run), MAX_LATENCIES)
  {
    if run != [] {
      hide Next, Enabled, LastOf;
      LatencyWindow(cfg, run[..|run| - 1]);
      StepLatencies(cfg, Exec(cfg, run[..|run| - 1]), run[|run| - 1], Latencies(run[..|run| - 1]));
    }
  }

  // ---------------------------------------------------------------- the state, told from the events alone

  function Returns(run: seq<Event>): nat {
    if run == [] then 0 else Returns(run[..|run| - 1]) + if run[|run| - 1].InferenceReturns? then 1 else 0
  }

  function Submissions(run: seq<Event>): nat {
    if run == [] then 0 else Submissions(run[..|run| - 1]) + if run[|run| - 1].SubmissionsEnd? then 1 else 0
  }

  /** How many frames were analysed: with inference enabled, those that arrive when every earlier analysis has broken
      off or has been submitted; with inference disabled, none. */
  function Analysed(enabled: bool, run: seq<Event>): nat {
    if run == [] then 0
    else
      var p := run[..|run| - 1];
      var before := Analysed(enabled, p);
      if run[|run| - 1].FrameArrives? && enabled && before == Breaks(p) + Submissions(p) then before + 1 else before
  }

  lemma StepAnalyses(cfg: Settings, p: Pipe, e: Event, started: nat, returned: nat, broken: nat, submitted: nat)
    requires OneInference(p) && Enabled(p, e)
    requires p.rt.inferring + returned + broken == started && p.rt.submitting + submitted == returned
    ensures var q := Next(cfg, p, e);
            && q.rt.inferring + returned + broken + (if e.InferenceReturns? || e.InferenceBreaks? then 1 else 0)
               == started + (if e.FrameArrives? && cfg.inferenceEnabled && started == broken + submitted then 1 else 0)
            && q.rt.submitting + submitted + (if e.SubmissionsEnd? then 1 else 0)
               == returned + (if e.InferenceReturns? then 1 else 0)
  {
    hide Delay, Average, Round2, Window;
  }

  /** In every run: an inference is started for exactly the frames told above, and what is under way is what was started
      and has not come back. */
  lemma {:induction false} AnalysedExactly(cfg: Settings, run: seq<Event>)
    requires EnabledRun(cfg, run)
    ensures var p, started := Exec(cfg, run), Analysed(cfg.inferenceEnabled, run);
            && p.rt.inferring + Returns(run) + Breaks(run) == started
            && p.rt.submitting + Submissions(run) == Returns(run)
            && (p.inFlight <==> started != Breaks(run) + Submissions(run))
  {
    PipelineRun(cfg, run);
    if run != [] {
      hide Next, Inv, Enabled;
      var init, e := run[..|run| - 1], run[|run| - 1];
      AnalysedExactly(cfg, init);
      PipelineRun(cfg, init);
      StepAnalyses(cfg, Exec(cfg, init), e, Analysed(cfg.inferenceEnabled, init), Returns(init), Breaks(init),
                   Submissions(init));
    }
  }

  /** What has happened since the last statistics tick. */
  function SinceTick(run: seq<Event>): Totals {
    if run == [] then Totals(0, 0, 0)
    else
      var t := SinceTick(run[..|run| - 1]);
      match run[|run| - 1]
      case FrameArrives => t.(frames := t.frames + 1)
      case InferenceReturns(found, _) => t.(detections := t.detections + found)
      case InferenceBreaks => t.(failures := t.failures + 1)
      case StatsTick(_, _) => Totals(0, 0, 0)
      case _ => t
  }

  /** The health reports one event causes. */
  function Tells(cfg: Settings, e: Event, firstFrame: bool): seq<Report> {
    match e
    case ChildExits(_) =>
      var delay := if cfg.reconnectMaxMs < cfg.reconnectBaseMs then cfg.reconnectMaxMs else cfg.reconnectBaseMs;
      [Plain(Offline, Reconnect), Retry(1, delay)]
    case TimerFires(_) => [Plain(Connecting, Unmarked)]
    case FrameArrives => if firstFrame then [Plain(Online, FirstFrame)] else []
    case InferenceReturns(_, _) => [Plain(Online, Inference)]
    case _ => []
  }

  /** The health reports of a run: one for every start, two for every exit, one for the first frame after a start or a
      statistics tick, and one for every inference that returns. */
  function Told(cfg: Settings, run: seq<Event>): seq<Report> {
    if run == [] then [Plain(Connecting, Unmarked)]
    else
      var p := run[..|run| - 1];
      Told(cfg, p) + Tells(cfg, run[|run| - 1], SinceTick(p).frames == 0)
  }

  /** The mean of a list, rounded to the nearest hundredth, halves up; 0 for an empty one. */
  ghost predicate IsMean(l: seq<real>, mean: real) {
    if l == [] then mean == 0.0
    else
      var cents := 100.0 * mean;
      cents == cents.Floor as real && cents - 0.5 <= 100.0 * (Sum(l) / (|l| as real)) < cents + 0.5
  }

  /** The posts of a run: one for every statistics tick with something to tell, with the mean of the last fifty
      latencies. */
  ghost predicate Posted(run: seq<Event>, posts: seq<Post>) {
    if run == [] then posts == []
    else
      var p := run[..|run| - 1];
      match run[|run| - 1]
      case StatsTick(_, accepted) =>
        var t := SinceTick(p);
        if t == Totals(0, 0, 0) then Posted(p, posts)
        else
          && posts != [] && Posted(p, posts[..|posts| - 1])
          && var post := posts[|posts| - 1];
             && post.frames == t.frames && post.detections == t.detections && post.failures == t.failures
             && post.accepted == accepted && IsMean(LastOf(Latencies(p), 50), post.avgLatencyMs)
      case _ => Posted(p, posts)
  }

  lemma RoundsMean(l: seq<real>)
    ensures IsMean(l, Round2(Average(l)))
  {
    if l != [] {
      var cents := (100.0 * (Sum(l) / (|l| as real)) + 0.5).Floor;
      assert Round2(Average(l)) == cents as real / 100.0;
      assert (cents as real).Floor == cents;
    }
  }

  lemma StepTells(cfg: Settings, p: Pipe, e: Event)
    requires Inv(p) && Enabled(p, e)
    ensures Next(cfg, p, e).rt.reports == p.rt.reports + Tells(cfg, e, p.frames == 0)
  {
    assert Delay(cfg, 1) == Min(cfg.reconnectMaxMs, cfg.reconnectBaseMs);
    hide Average, Round2, Window, Delay, IdsUsed, OneInference;
    var l := p.rt.reports;
    assert l + [] == l;
    if e.ChildExits? {
      var r := Tells(cfg, e, false);
      assert l + [r[0]] + [r[1]] == l + r;
    }
  }

  lemma {:induction false} StepSince(cfg: Settings, p: Pipe, e: Event, run: seq<Event>)
    requires Enabled(p, e) && SinceTick(run) == Totals(p.frames, p.detections, p.failures)
    ensures var q := Next(cfg, p, e); SinceTick(run + [e]) == Totals(q.frames, q.detections, q.failures)
  {
    assert (run + [e])[..|run|] == run;
    hide Average, Round2, Window, Delay;
  }

  /** The reports issued are those the events tell, and the counters hold what has happened since the last tick. */
  lemma {:induction false} ReportsAreTold(cfg: Settings, run: seq<Event>)
    requires EnabledRun(cfg, run)
    ensures var p := Exec(cfg, run);
            p.rt.reports == Told(cfg, run) && SinceTick(run) == Totals(p.frames, p.detections, p.failures)
  {
    if run != [] {
      hide Next, Inv, Enabled, Tells, SinceTick;
      var init, e := run[..|run| - 1], run[|run| - 1];
      ReportsAreTold(cfg, init);
      PipelineRun(cfg, init);
      StepTells(cfg, Exec(cfg, init), e);
      StepSince(cfg, Exec(cfg, init), e, init);
      assert init + [e] == run;
    }
  }

  lemma StepPosts(cfg: Settings, p: Pipe, e: Event)
    requires Enabled(p, e)
    ensures Next(cfg, p, e).rt.posts
         == if e.StatsTick? && !(p.frames == p.detections == p.failures == 0)
            then p.rt.posts + [Post(p.frames, p.detections, p.failures, Round2(Average(p.latencies)), e.accepted)]
            else p.rt.posts
  {
    hide Average, Round2, Window, Delay;
  }

  /** And so are the posts. */
  lemma {:induction false} PostsAreTold(cfg: Settings, run: seq<Event>)
    requires EnabledRun(cfg, run)
    ensures Posted(run, Exec(cfg, run).rt.posts)
  {
    if run != [] {
      hide Next, Inv, Enabled, IsMean, Average, Round2, LastOf;
      var init, e := run[..|run| - 1], run[|run| - 1];
      var p, q := Exec(cfg, init), Exec(cfg, run);
      PostsAreTold(cfg, init);
      ReportsAreTold(cfg, init);
      LatencyWindow(cfg, init);
      StepPosts(cfg, p, e);
      RoundsMean(p.latencies);
      assert |q.rt.posts| > |p.rt.posts| ==> q.rt.posts[..|q.rt.posts| - 1] == p.rt.posts;
    }
  }

  /** The delays of successive attempts, had they ever grown: doubled up to the sixth time, within the maximum. */
  lemma DelayDoubles(cfg: Settings, n: nat)
    requires 1 <= n
    ensures Delay(cfg, n) <= cfg.reconnectMaxMs
    ensures cfg.reconnectBaseMs <= cfg.reconnectMaxMs ==> Delay(cfg, 1) == cfg.reconnectBaseMs
    ensures n < 7 && 2 * Delay(cfg, n) <= cfg.reconnectMaxMs && Delay(cfg, n) < cfg.reconnectMaxMs ==>
              Delay(cfg, n + 1) == 2 * Delay(cfg, n)
    ensures n >= 7 ==> Delay(cfg, n) == Delay(cfg, 7)
  {
  }

  // ---------------------------------------------------------------- what the reports make of the camera's health

  function Statuses(reports: seq<Report>): seq<CameraStatus> {
    if reports == [] then [] else Statuses(reports[..|reports| - 1]) + [StatusOf(reports[|reports| - 1])]
  }

  function Offlines(n: nat): seq<Emitted> {
    if n == 0 then [] else Offlines(n - 1) + [CameraOffline]
  }

  /** One more report. */
  lemma {:induction false} OneReport(start: CameraStatus, reports: seq<Report>, r: Report)
    ensures Statuses(reports + [r]) == Statuses(reports) + [StatusOf(r)]
    ensures var s := Statuses(reports);
            var e := Emission(StatusAt(start, s, |s|), StatusOf(r));
            Emissions(start, Statuses(reports + [r]))
            == if e.Some? then Emissions(start, s) + [e.value] else Emissions(start, s)
  {
    assert (reports + [r])[..|reports|] == reports;
    EmissionsSnoc(start, Statuses(reports), StatusOf(r));
  }

  /** The reports end outside the offline statuses and have raised CAMERA_OFFLINE so many times, and nothing else. */
  predicate HealthView(reports: seq<Report>, exits: nat, start: CameraStatus) {
    var s := Statuses(reports);
    s != [] && !IsOffline(s[|s| - 1]) && Emissions(start, s) == Offlines(exits)
  }

  lemma StepHealth(cfg: Settings, p: Pipe, e: Event, exits: nat, start: CameraStatus)
    requires Inv(p) && Enabled(p, e) && HealthView(p.rt.reports, exits, start)
    ensures HealthView(Next(cfg, p, e).rt.reports, if e.ChildExits? then exits + 1 else exits, start)
  {
    hide Emissions, Statuses, Delay, Average, Round2, IdsUsed;
    match e {
      case ChildExits(child) =>
        OneReport(start, p.rt.reports, Plain(Offline, Reconnect));
        OneReport(start, p.rt.reports + [Plain(Offline, Reconnect)], Retry(1, Delay(cfg, 1)));
      case TimerFires(_) => OneReport(start, p.rt.reports, Plain(Connecting, Unmarked));
      case FrameArrives => OneReport(start, p.rt.reports, Plain(Online, FirstFrame));
      case InferenceReturns(_, _) => OneReport(start, p.rt.reports, Plain(Online, Inference));
      case _ =>
    }
  }

  lemma FirstReport(start: CameraStatus)
    ensures HealthView([Plain(Connecting, Unmarked)], 0, start)
  {
    assert [Plain(Connecting, Unmarked)][..0] == [] && [Connecting][..0] == [];
  }

  /** Every exit raises CAMERA_OFFLINE, and CAMERA_RECOVERED is never raised: the RECONNECTING report that follows each
      OFFLINE takes the camera out of the offline statuses before it can come online. */
  lemma {:induction false} PipelineNeverRecovers(cfg: Settings, run: seq<Event>, start: CameraStatus)
    requires EnabledRun(cfg, run)
    ensures HealthView(Exec(cfg, run).rt.reports, Exits(run), start)
  {
    hide HealthView;
    if run == [] {
      FirstReport(start);
      assert Exec(cfg, run).rt.reports == [Plain(Connecting, Unmarked)];
    } else {
      hide Next, Inv, Enabled;
      var n := |run| - 1;
      PipelineNeverRecovers(cfg, run[..n], start);
      PipelineRun(cfg, run[..n]);
      StepHealth(cfg, Exec(cfg, run[..n]), run[n], Exits(run[..n]), start);
    }
  }

  // ---------------------------------------------------------------- end to end

  /** The reports as the API receives them, in order. */
  function Delivered(reports: seq<Report>, org: Id, camera: Id, site: Id, clock: nat -> int): seq<Timed> {
    if reports == [] then []
    else
      var n := |reports| - 1;
      var r := reports[n];
      var update := Update(org, camera, site, StatusOf(r), None, None, None, None,
                           r.Plain? && r.mark == Reconnect, r.Plain? && r.mark == FirstFrame,
                           r.Plain? && r.mark == Inference, r.Plain? && r.mark == FirstFrame);
      Delivered(reports[..n], org, camera, site, clock) + [Timed(update, clock(n))]
  }

  function Reconnects(reports: seq<Report>): nat {
    if reports == [] then 0
    else
      var r := reports[|reports| - 1];
      Reconnects(reports[..|reports| - 1]) + if r.Plain? && r.mark == Reconnect then 1 else 0
  }

  lemma {:induction false} DeliveredIs(reports: seq<Report>, org: Id, camera: Id, site: Id, clock: nat -> int)
    ensures var d := Delivered(reports, org, camera, site, clock);
            Reported(d, org, camera) == Statuses(reports) && Increments(d, org, camera) == Reconnects(reports)
  {
    if reports != [] {
      var p := reports[..|reports| - 1];
      DeliveredIs(p, org, camera, site, clock);
      var d := Delivered(reports, org, camera, site, clock);
      assert d[..|d| - 1] == Delivered(p, org, camera, site, clock);
    }
  }

  lemma {:induction false} ReconnectsSnoc(reports: seq<Report>, r: Report)
    ensures Reconnects(reports + [r]) == Reconnects(reports) + if r.Plain? && r.mark == Reconnect then 1 else 0
  {
    assert (reports + [r])[..|reports|] == reports;
  }

  lemma StepReconnects(cfg: Settings, p: Pipe, e: Event)
    requires Inv(p) && Enabled(p, e)
    ensures Reconnects(Next(cfg, p, e).rt.reports) == Reconnects(p.rt.reports) + if e.ChildExits? then 1 else 0
  {
    hide Reconnects, Delay, Average, Round2, IdsUsed;
    match e {
      case ChildExits(child) =>
        ReconnectsSnoc(p.rt.reports, Plain(Offline, Reconnect));
        ReconnectsSnoc(p.rt.reports + [Plain(Offline, Reconnect)], Retry(1, Delay(cfg, 1)));
      case TimerFires(_) => ReconnectsSnoc(p.rt.reports, Plain(Connecting, Unmarked));
      case FrameArrives => ReconnectsSnoc(p.rt.reports, Plain(Online, FirstFrame));
      case InferenceReturns(_, _) => ReconnectsSnoc(p.rt.reports, Plain(Online, Inference));
      case _ =>
    }
  }

  lemma StartReconnects()
    ensures Reconnects(Started(NEW_PIPE).rt.reports) == 0
  {
    ReconnectsSnoc([], Plain(Connecting, Unmarked));
    assert Started(NEW_PIPE).rt.reports == [] + [Plain(Connecting, Unmarked)];
  }

  lemma {:induction false} ExitsAreReconnects(cfg: Settings, run: seq<Event>)
    requires EnabledRun(cfg, run)
    ensures Reconnects(Exec(cfg, run).rt.reports) == Exits(run)
  {
    hide Next, Inv, Enabled, Reconnects;
    if run == [] {
      StartReconnects();
    } else {
      var n := |run| - 1;
      ExitsAreReconnects(cfg, run[..n]);
      PipelineRun(cfg, run[..n]);
      StepReconnects(cfg, Exec(cfg, run[..n]), run[n]);
    }
  }

  /** A pipeline's whole run, seen from the database: the camera's reconnect_count has grown by the number of exits, and
      the events recorded for it are one CAMERA_OFFLINE per exit and nothing else. */
  lemma {:induction false} RunInDatabase(cfg: Settings, run: seq<Event>, s: Store, org: Id, camera: Id, site: Id,
                                         clock: nat -> int)
    requires EnabledRun(cfg, run) && camera in s.cameras && s.cameras[camera].org == org
    ensures var s' := Health.Exec(s, Delivered(Exec(cfg, run).rt.reports, org, camera, site, clock));
            && camera in s'.cameras
            && s'.cameras[camera].reconnectCount == s.cameras[camera].reconnectCount + Exits(run)
            && Kinds(s'.recorded, org, camera) == Kinds(s.recorded, org, camera) + Offlines(Exits(run))
  {
    var reports := Exec(cfg, run).rt.reports;
    var d := Delivered(reports, org, camera, site, clock);
    DeliveredIs(reports, org, camera, site, clock);
    ExitsAreReconnects(cfg, run);
    PipelineNeverRecovers(cfg, run, s.cameras[camera].status);
    CameraRun(s, d, org, camera);
    CountsReconnects(s, d, org, camera);
    hide Exec, Health.Exec, Delivered, Kinds;
  }
}
