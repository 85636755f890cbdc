# A model of the CCTV backend and its proofs

The backend serves many organizations from one database. A worker process cuts frames out of FFmpeg streams and has
them analysed; detections pass through a tracker, the camera's rules and a detection engine that groups them into
incidents; health reports, live sessions, exports and a cache hang off the same tables. This project models those parts
in Dafny and proves what they keep over every input, every run and every reachable state.

Verify everything with `dafny verify dfyconfig.toml`.

| file | component | main results |
|---|---|---|
| `pool.dfy` | `withTenant`, row policies, connection pool | statements run under their holder's organization; non-interference of interleaved transactions, foreign keys and cascades included |
| `statements.dfy` | statements and transactions | what each statement does to the rows, exact conditions for its refusal, transactions keep the tables consistent |
| `tables.dfy` | foreign keys, routes that insert and delete | references never leave an organization, so cascades stay inside it; what each delete takes along; non-interference of routes |
| `engine.dfy` | detection engine | burst theorem, independence of cooldown slots, what each burst stores and returns, alerts, what is turned away |
| `tracker.dfy` | session tracker | greedy matching, what the score measures, witnessed dwell times, bound on live tracks |
| `zone.dfy` | zone geometry | what triangles and polygons mean, additivity, rotation and reversal invariance, bounding box |
| `frames.dfy` | JPEG splitter | chunk independence with its exact condition, images come back |
| `pipeline.dfy`, `worker.dfy` | media worker | one child or one pending reconnect, frames analysed, reports and posts told from the events, conservation, poll of cameras |
| `hls.dfy` | live sessions | sessions told from the events, sessions are exactly the live processes, idle bound |
| `health.dfy` | camera health | every column of the row over runs, events counted by offline blocks, exact condition for alternation |
| `rules.dfy` | rules and schedules | a type is raised gate by gate, loop equals first-per-type, schedule laws |
| `csv.dfy` | events export | round trip by section 2 of RFC 4180, exact condition for CR |
| `cache.dfy` | tenant cache | a get returns the organization's last live set |
| `slug.dfy` | organization slugs | a base is the name's words, first free candidate within one more probe than slugs |
| `keys.dfy`, `wrappers.dfy` | joined string keys, decimals, option and result | injectivity |

How the model is built: what the source does step by step is a class with the source's fields, or a method with the
source's loop. Each method is proved equal to a specification function of the old state, and the theorems are about
runs of those functions. Time, generated ids, chunk boundaries, process exits and the answers of other services are
inputs. Every run is a sequence of such steps, one at a time.

Where the repository's own text and its code disagree, the model follows the code:

- README.md:246-249 promises that fire and smoke within 60 s become one incident. They do exactly when no pause between
  consecutive accepted detections from the one to the other reaches the cooldown then running (30 s by default), and
  some detection of their burst confirms its opener, that is, complements it within 60 s of it, or the burst was opened
  by a FIRE_AND_SMOKE signal (`Engine.CorrelatedPair`, `Engine.SlidingExample`, `Engine.OpenedAsBothExample`,
  `Engine.UncorrelatedExample`).
- server/src/media/worker.ts:17 speaks of exponential backoff. Each restart resets the attempt counter, so the delay is
  always the base delay (`Pipeline.BackoffNeverGrows`).
- server/src/routes/sites.routes.ts:104-105 says that row security confines the cascade. Cascades ignore it; the parent
  checks of the routes do the work (`Tables.CascadeStaysInOrgIff`, `Tables.CascadeCrossesUnchecked`), also when
  transactions interleave (`Pool.InterleavedRefsInOrg`).
- server/src/media/health.service.ts:109-110 says that the events are deduplicated. The worker's own RECONNECTING report
  after every OFFLINE makes each exit raise CAMERA_OFFLINE again and hides every recovery
  (`Health.AlternatesIff`, `Pipeline.PipelineNeverRecovers`).
- server/src/routes/reports.routes.ts:170-173 quotes commas, quotes and line feeds but not a bare carriage return
  (`Csv.CrReaderIff`).

## Model

| member | source | states |
|---|---|---|
| Pool.AppPool.Perform | server/src/db/pool.ts:84-110 | one step of one request (connect, BEGIN, set_config, statement, COMMIT, ROLLBACK, release) gives exactly the next world and answer |
| Pool.AppPool.RunStatements | server/src/db/pool.ts:99-102 | the callback's statements up to the first that fails, all on the connection's own uncommitted writes |
| Pool.AppPool.Open | server/src/db/pool.ts:84-98 | connect, BEGIN and set_config leave the connection bound to the request, and nothing else changed |
| Pool.AppPool.Close | server/src/db/pool.ts:103-109 | COMMIT makes the pending writes the rows' unless a statement failed, ROLLBACK drops them; either way the connection is idle and unbound |
| Pool.AppPool.WithTenant | server/src/db/pool.ts:80-111 | undisturbed, all of the script's writes are committed with its answers, or nothing is changed and the error is returned; the connection goes back idle |
| Pool.ScriptFails | server/src/db/pool.ts:102-108 | after a failed statement nothing more is written, whatever follows |
| Pool.BoundContext | server/src/db/migrations/0001_init.sql:33-60 | the policies let a bound connection see exactly its holder's organization, and nothing if that is empty or the connection is unbound |
| Pool.StatementGathers | server/src/services/resource.service.ts:40-57 | what a statement writes, its cascades included, and the ids it hands out are of its own organization |
| Pool.ConsistentIsOwned | server/src/db/migrations/0001_init.sql:140-291 | rows consistent in the sense of `tables.dfy` meet the invariant's demand on rows |
| Pool.StepKeepsInv | server/src/db/pool.ts:84-110 | every step keeps: settings only while bound, rows and pending writes with references inside their organization only, pending writes only of the holder's, session values blank |
| Pool.RunKeepsInv | server/src/db/pool.ts:80-111 | the same over whole interleaved runs |
| Pool.InterleavedRefsInOrg | server/src/routes/sites.routes.ts:97-107 | however transactions interleave, no CASCADE reference leaves its organization |
| Pool.ContextIsHolders | server/src/db/pool.ts:71-76 | after any run on a reused pool, the next statement runs under the organization of the request holding the connection, and an unbound connection carries none |
| Pool.EmptyOrgSeesNothing | server/src/db/pool.ts:77-78 | without an organization no row is seen, every answer is that of an empty table, and nothing is written |
| Pool.OwnViewSuffices | server/src/services/resource.service.ts:5-12 | a statement does the same over its own organization's rows alone as over all rows |
| Pool.ReferencesTellIff | server/src/routes/sites.routes.ts:155-162 | the database alone would accept a row without the others' rows, too, exactly when all its references stay inside the organization |
| Pool.UnfoundReferenceExample | server/src/routes/sites.routes.ts:155-162 | a zone under another organization's site, which the database accepts only if that site exists and the routes never write |
| Pool.StatementAlike | server/src/db/migrations/0001_init.sql:368-396 | a statement, foreign-key checks and cascades past the policies included, answers and writes the same in two worlds that agree on its own organization's rows |
| Pool.OwnStepAlike | server/src/db/pool.ts:80-111 | an organization's own step answers the same and keeps two such worlds alike |
| Pool.OtherStepAlike | server/src/db/pool.ts:80-111 | a step of any other organization is invisible |
| Pool.NonInterference | server/src/db/pool.ts:71-76 | for every interleaving of many organizations' transactions over one pool, an organization's answers and final rows are those of running its own steps alone |
| Pool.SilentOrgKeepsRows | server/src/db/migrations/0001_init.sql:368-396 | an organization that sends nothing keeps its rows |
| Pool.PlatformSeesEveryRow | server/src/db/migrations/0001_init.sql:48-60 | with the platform flag on, a statement sees every row, so the theorems need it off |
| Statements.ReadMeans | server/src/services/resource.service.ts:40-57 | a query is computed from the organization's own rows and changes nothing; a lookup finds a row exactly if it is one of them, of that table; both give out the ids shown and referred to |
| Statements.InsertMeans | server/src/routes/events.routes.ts:249-256 | an insert that is not refused adds exactly its row, or nothing when the organization has used its correlation id |
| Statements.InsertAcceptedIff | server/src/routes/sites.routes.ts:155-162 | it is refused exactly if the row is not the organization's, its id is taken, it would not be consistent with the organization's rows, or it refers to something not shown to the transaction |
| Statements.UpdateMeans | server/src/routes/cameras.routes.ts:114-130 | an update that is not refused rewrites the organization's matching rows and no others; table, correlation id and NOT NULL references stay |
| Statements.UpdateAcceptedIff | server/src/db/migrations/0001_init.sql:368-396 | it is refused exactly if a row would leave the organization, lose a NOT NULL reference or get a new one that is bad or was not shown |
| Statements.DeleteMeans | server/src/db/migrations/0001_init.sql:140-291 | a delete removes the organization's matching rows with all that cascades take along, and clears the other references to them |
| Statements.StatementConsistent | server/src/db/migrations/0001_init.sql:140-291 | every statement on a bound connection takes consistent rows to consistent rows |
| Statements.TransactionConsistent | server/src/db/pool.ts:80-111 | so does every undisturbed transaction, of any statements, committed or not |
| Statements.DeleteCommitted | server/src/routes/sites.routes.ts:97-107 | a committed delete leaves the tables without the closure, over all rows, of what it deleted |
| Tables.DoomedIsLeast | server/src/db/migrations/0001_init.sql:140-291 | the rows a delete takes along are the least set closed under the CASCADE references |
| Tables.ZoneDeleteTakes | server/src/routes/sites.routes.ts:170-180 | deleting a zone takes its schedules along and nothing else |
| Tables.CameraDeleteTakes | server/src/routes/cameras.routes.ts:150-165 | deleting a camera takes along exactly what hangs on it and on its events |
| Tables.SiteDeleteTakes | server/src/routes/sites.routes.ts:97-112 | deleting a site takes along exactly its zones with their schedules and its cameras with all that hangs on them |
| Tables.CascadeStaysInOrgIff | server/src/routes/sites.routes.ts:97-107 | cascades stay in one organization, whatever row they start from, if and only if no CASCADE reference crosses organizations |
| Tables.CascadeCrossesUnchecked | server/src/routes/sites.routes.ts:155-162 | without the parent check, deleting a site of one organization removes another's zone |
| Tables.TenantStore.RequireTenantResource | server/src/services/resource.service.ts:40-57 | the row when it is of that table and organization, NotFound otherwise |
| Tables.TenantStore.CreateSite | server/src/routes/sites.routes.ts:45-70 | inserts a site of the caller's organization |
| Tables.TenantStore.CreateZone | server/src/routes/sites.routes.ts:149-168 | inserts a zone only under a visible site |
| Tables.TenantStore.CreateCamera | server/src/routes/cameras.routes.ts:56-106 | inserts a camera only under visible parents and below the plan's limit, with the source's order of errors |
| Tables.CreateAnswers | server/src/routes/cameras.routes.ts:63-90 | a create answers not found exactly without a parent, forbidden exactly when the plan's number of cameras is reached, and otherwise inserts its row |
| Tables.TenantStore.IngestEvent | server/src/routes/events.routes.ts:201-265 | inserts an event at the site of the camera that was found; for a correlation id in use it inserts nothing and returns the event that has it, or fails if the id is empty |
| Tables.IngestTwice | server/src/routes/events.routes.ts:249-265 | ingesting the same correlation id again changes nothing and returns the same event |
| Tables.IngestAnswers | server/src/routes/events.routes.ts:241-265 | not found exactly without camera or named rule; the answer is an event with the correlation id sent; a new one is at the camera, its site and under the rule |
| Tables.TenantStore.DeleteRow | server/src/routes/sites.routes.ts:97-112 | removes exactly the closure of the deleted row and nulls the SET NULL references to it |
| Tables.DeleteAnswers | server/src/routes/sites.routes.ts:97-112 | not found for a row that is not the organization's, which changes nothing; otherwise the row goes |
| Tables.RemoveKeeps | server/src/db/migrations/0001_init.sql:140-291 | removing a closed set leaves no dangling reference and no row without its required parents |
| Tables.StepKeepsConsistent | server/src/routes/cameras.routes.ts:63-90 | every route keeps every reference inside its organization, every event at its camera's site and every correlation id unique in its organization |
| Tables.ReachableIsConsistent | server/src/routes/cameras.routes.ts:114-133 | hence so do all reachable states |
| Tables.EventsSitAtCamera | server/src/routes/events.routes.ts:241-256 | in consistent tables an event names the site of its camera |
| Tables.DeleteStaysInOrg | server/src/routes/sites.routes.ts:97-107 | a delete removes only rows of the caller's organization; every other row is exactly as before |
| Tables.OwnStep | server/src/services/resource.service.ts:40-57 | an operation depends on and changes only its own organization's rows |
| Tables.RouteNonInterference | server/src/routes/sites.routes.ts:97-162 | in every run an organization's final rows and next answer are those of its own operations alone |
| Tables.CameraLimitHolds | server/src/routes/cameras.routes.ts:68-76 | no organization ever has more cameras than its plan allows |
| Engine.DetectionEngine.ProcessDetection | server/src/ai/engine.ts:101-249 | result, incident, cooldown row, evidence and notifications are exactly those of the specified outcome, including both early exits and the disabled rule |
| Engine.DetectionEngine.Correlate | server/src/ai/engine.ts:147-168 | upgrades the active incident exactly for a complementary recent signal |
| Engine.DetectionEngine.DispatchNotifications | server/src/services/notification.service.ts:16-42 | writes one row per matching recipient and reports how many |
| Engine.DetectionEngine.MaybeAttachEvidence | server/src/ai/engine.ts:251-271 | adds one evidence row exactly when there is a snapshot |
| Engine.Refusals | server/src/ai/engine.ts:105-120 | in the input's fields: exactly what is an error, what is answered as if nothing had arrived, with nothing written, and what is accepted |
| Engine.RowsWritten | server/src/ai/engine.ts:140-226 | next to its answer, what an accepted detection writes: the incident as opened, field by field, or as upgraded, one evidence row for a snapshot, and for an alert one audit row and the recipients' notifications, for anything else none |
| Engine.DispatchIsPerRecipient | server/src/services/notification.service.ts:16-42 | recipients are served in order, each exactly if the severity reaches its threshold |
| Engine.CooldownWritten | server/src/ai/engine.ts:195-206 | the cooldown row left names the incident, ends as the rule says or after 30 s, and remembers when the burst opened |
| Engine.CooldownPointsHome | server/src/ai/engine.ts:195-206 | in every reachable state a cooldown row points at an incident of its own organization, camera and bucket |
| Engine.CooldownIsLast | server/src/ai/engine.ts:195-206 | the cooldown row of a slot is what the slot's last accepted detection wrote |
| Engine.OpensExactlyAfterGap | server/src/ai/engine.ts:127-141 | an accepted detection opens an incident exactly when it is its slot's first or comes at or after the end of the last one's cooldown |
| Engine.BurstTheorem | server/src/ai/engine.ts:108-206 | incidents of a slot number one plus its gaps, whatever arrives on other slots or is rejected |
| Engine.SlotIndependence | server/src/ai/engine.ts:61-66 | a slot looks as if only its own accepted detections had been processed |
| Engine.IncidentLife | server/src/ai/engine.ts:140-168 | over any stretch of a run an incident keeps its identity, its type changes at most to FIRE_AND_SMOKE, and severity and confidence never fall |
| Engine.TypeChangesExactly | server/src/ai/engine.ts:147-168 | an incident's type changes exactly on an accepted complementary signal of its slot within cooldown and 60 s |
| Engine.SlotTells | server/src/ai/engine.ts:140-206 | in every reachable state all incidents of a slot, and its cooldown row, are what the slot's bursts make of them |
| Engine.StoredByBurst | server/src/ai/engine.ts:147-168 | the whole row of every burst's incident, finished or not: the opener's, upgraded by the first detection to confirm it; so FIRE_AND_SMOKE exactly when some detection confirms the opener or the burst was opened by a FIRE_AND_SMOKE signal, CRITICAL and the greater of the two confidences when confirmed, else the opener's severity and confidence |
| Engine.GroupedByBurst | server/src/ai/engine.ts:127-193 | every accepted detection is grouped into the incident of its burst's opener; it opens one iff it is the opener, and upgrades it iff it is the first to confirm |
| Engine.RowAfter | server/src/ai/engine.ts:140-206 | the returned incident's row after the call, from the burst up to it |
| Engine.SameIncidentIff | server/src/ai/engine.ts:127-206 | any two accepted detections of a slot share an incident exactly when no gap lies between them, whatever arrives in between |
| Engine.NeighboursShare | server/src/ai/engine.ts:124-141 | two consecutive accepted detections of a slot share an incident exactly if the second comes within the first one's rule's cooldown, or 30 s without a rule |
| Engine.CorrelatedPair | README.md:246-249 | any two complementary ones share a FIRE_AND_SMOKE incident exactly when, besides, their burst's opener is confirmed or is itself a FIRE_AND_SMOKE signal; if the first is the opener and the second comes within 60 s, the gap alone decides |
| Engine.SlidingExample | server/src/ai/engine.ts:195-206 | fire, fire 25 s later and smoke at 50 s are one incident |
| Engine.OpenedAsBothExample | server/src/ai/engine.ts:147-168 | a FIRE_AND_SMOKE signal, then fire and smoke: one FIRE_AND_SMOKE incident that nothing confirms |
| Engine.UncorrelatedExample | README.md:246-249 | fire, then smoke 40 s later, gives two incidents |
| Engine.AlertBound | server/src/ai/engine.ts:208-226 | every incident is alerted exactly once, or exactly twice if its type has changed since it opened |
| Engine.AlertTellsTheRow | server/src/ai/engine.ts:208-249 | when alerted, returned type and severity and the notification rows are those of the stored incident |
| Engine.QuietTypeOutsideFire | server/src/ai/engine.ts:228-229 | without an alert the returned type is the signal's, which outside the fire bucket is the stored one |
| Engine.ReturnedTypeIff | server/src/ai/engine.ts:228-248 | the returned type is the stored one iff the detection opens or upgrades the incident or the incident had the signal's type before; over the history: iff it is the first to confirm, or the burst's type is the signal's |
| Engine.ReturnedSeverityIff | server/src/ai/engine.ts:228-248 | the same for the severity |
| Engine.StaleTypeExample | server/src/ai/engine.ts:228-229 | fire, smoke, fire returns FIRE for a FIRE_AND_SMOKE row |
| Engine.LateSmokeExample | server/src/ai/engine.ts:228-229 | a smoke signal at 61 s of a fire burst returns SMOKE for a FIRE row |
| Engine.StaleSeverityExample | server/src/ai/engine.ts:228-229 | outside the fire bucket, a repeated detection returns its own lower severity |
| Engine.ActiveIncidentIsOwn | server/src/ai/engine.ts:127-142 | a detection is grouped only into an incident of its own organization, camera and bucket |
| Engine.BucketInjective | server/src/ai/engine.ts:61-66 | two types share a cooldown key only if equal or both fire types |
| Engine.SlotsMeet | server/src/ai/engine.ts:61-66 | two detections meet in a cooldown row exactly if of one organization and camera, and of one type or both about fire or smoke |
| Tracker.IouSymmetric | server/src/ai/tracker.ts:31-41 | the score does not depend on the order of the boxes |
| Tracker.IouRange | server/src/ai/tracker.ts:31-41 | the score lies in [0, 1] for all boxes, of any sign |
| Tracker.IouOne | server/src/ai/tracker.ts:31-41 | the score is 1 exactly for equal boxes of positive size |
| Tracker.InterIsCommon | server/src/ai/tracker.ts:31-36 | the intersection term is the area of the box of exactly the points both boxes hold, or 0 if there is none |
| Tracker.IouIs | server/src/ai/tracker.ts:37-41 | the score times the area of the two together is the common area |
| Tracker.ShiftedBox | server/src/ai/tracker.ts:31-41 | a box moved sideways by d of its width w scores (w - d) / (w + d) |
| Tracker.NearMeans | server/src/ai/tracker.ts:84-94 | the threshold is reached exactly if 13 times the common area is at least 3 times the sum of the two areas |
| Tracker.NewExactlyIf | server/src/ai/tracker.ts:76-108 | a detection starts a new track exactly if no live, unclaimed track of its label is that near; otherwise it continues a near one with its dwell |
| Tracker.SessionTracker.Update | server/src/ai/tracker.ts:63-110 | results and the camera's new tracks are those of expiry followed by greedy matching; other cameras are untouched |
| Tracker.SessionTracker.PresentLabels | server/src/ai/tracker.ts:113-121 | exactly the labels of tracks seen in the last 10 s |
| Tracker.TrackIdInjective | server/src/ai/tracker.ts:102-103 | ids made with different counter values differ, whatever the labels and random suffixes |
| Tracker.BestIsBest | server/src/ai/tracker.ts:84-94 | the scan finds an unclaimed track of the label with the greatest score, if any reaches 0.3 |
| Tracker.Matching | server/src/ai/tracker.ts:76-108 | one result per detection, distinct ids, each the best unclaimed live track of its label, new exactly when none reaches 0.3 |
| Tracker.RunHistories | server/src/ai/tracker.ts:63-110 | every track of every reachable state has its chain of sightings in the run |
| Tracker.DwellIsWitnessed | server/src/ai/tracker.ts:95-100 | behind a reported dwell of d ms stands a chain of sightings begun exactly d ms ago, gaps at most 10 s, neighbours overlapping by 0.3 |
| Tracker.LiveTracksBounded | server/src/ai/tracker.ts:76-79 | a camera has no more tracks than detections received in the last 10 s |
| Zone.PointInPolygon | server/src/ai/zone.ts:34-43 | the loop computes the parity of the crossed edges, with no division by zero |
| Zone.DetectionInZone | server/src/ai/zone.ts:49-64 | decides the box's centre against the geometry, branch by branch |
| Zone.GeometryMeans | server/src/ai/zone.ts:49-64 | key by key, what a stored shape means for the middle of a box: rectangle with its defaults, polygon, or the whole frame |
| Zone.MeetXSymmetric | server/src/ai/zone.ts:39 | where an edge meets the ray does not depend on the direction it is walked |
| Zone.MeetXBetween | server/src/ai/zone.ts:39 | it lies between the edge's ends |
| Zone.CrossesMeans | server/src/ai/zone.ts:37-40 | the ray crosses an edge exactly if the point is strictly left of one going up past it or right of one going down |
| Zone.TriangleMeans | server/src/ai/zone.ts:34-43 | a point strictly on the inner side of all three edges of a triangle is inside, one strictly on the outer side of some edge is not |
| Zone.PolygonMeans | server/src/ai/zone.ts:34-43 | off the edges of its fan, a point is inside a polygon of any shape exactly if an odd number of the fan's triangles hold it |
| Zone.DiagonalAdditivity | server/src/ai/zone.ts:34-43 | cutting along the diagonal between two vertices, a point is inside the polygon iff it is inside exactly one of the two pieces |
| Zone.RotationInvariance | server/src/ai/zone.ts:34-43 | starting at another vertex changes nothing |
| Zone.ReversalInvariance | server/src/ai/zone.ts:34-43 | walking the other way round changes nothing |
| Zone.FanTriangulation | server/src/ai/zone.ts:34-43 | a polygon is the exclusive-or of its fan of triangles |
| Zone.EvenCrossings | server/src/ai/zone.ts:39 | a closed vertex list crosses any horizontal line an even number of times |
| Zone.OutsideBoundsIsOutside | server/src/ai/zone.ts:34-43 | every point outside the bounding box is outside |
| Zone.RectangleAsPolygon | server/src/ai/zone.ts:34-61 | a rectangle drawn as a polygon is exactly the half-open box, whatever the signs of its extents |
| Zone.RectangleBranchesAgree | server/src/ai/zone.ts:52-61 | the two branches disagree exactly on the right and top edges, and for a negative extent on the whole half-open box |
| Frames.FrameSource.Start | server/src/media/frame-source.ts:57-93 | a child is spawned unless one is there, the source was stopped or nothing is configured, which is an error event |
| Frames.FrameSource.OnExit | server/src/media/frame-source.ts:86-92 | child and buffer are dropped; the exit is reported only when not asked for |
| Frames.FrameSource.Stop | server/src/media/frame-source.ts:116-127 | stopped for good, the child is killed |
| Frames.FrameSource.OnData | server/src/media/frame-source.ts:95-114 | emits and keeps what draining the old buffer with the chunk gives; the loop terminates |
| Frames.DrainIsScan | server/src/media/frame-source.ts:99-113 | a drain is a byte-by-byte scan, except that a reset forgets a last FF |
| Frames.ChunkIndependence | server/src/media/frame-source.ts:95-114 | for every cutting into chunks the frames and the frame in progress are those of one scan, if and only if no reset fell between an FF and a D8 |
| Frames.FeedIsOneDrain | server/src/media/frame-source.ts:95-114 | without a reset, chunks and one pass agree to the last byte kept |
| Frames.DrainResumes | server/src/media/frame-source.ts:99-113 | a drain may stop after any prefix that is not thrown away and go on from what was kept |
| Frames.LostMarkerExample | server/src/media/frame-source.ts:101-104 | a stream that loses its frame to a reset |
| Frames.ImagesComeBack | server/src/media/frame-source.ts:95-114 | however a concatenation of images is cut, exactly those images come out and nothing is kept |
| Frames.ImagesAre | server/src/media/frame-source.ts:21-22 | an image in bytes: 255 216 in front, 255 217 at the end and nowhere before |
| Frames.NoiseIsKeptOrDropped | server/src/media/frame-source.ts:101-104 | bytes without a start marker are kept up to 8 MiB and dropped beyond |
| Pipeline.CameraPipeline.Start | server/src/media/worker.ts:76-114 | the whole new state, or none once stopped |
| Pipeline.CameraPipeline.ScheduleReconnect | server/src/media/worker.ts:116-129 | attempt, delay, report and timer |
| Pipeline.CameraPipeline.OnExit | server/src/media/worker.ts:102-106 | an exit is reported OFFLINE with a reconnect counted, then a reconnect is scheduled |
| Pipeline.CameraPipeline.OnSpawnError | server/src/media/frame-source.ts:83-85 | a spawn that fails ends the process without an exit: nothing is reported and nothing scheduled |
| Pipeline.CameraPipeline.OnTimeout | server/src/media/worker.ts:123-128 | the timer restarts the stream unless stopped |
| Pipeline.CameraPipeline.OnFrame | server/src/media/worker.ts:131-138 | counts every frame, reports the first, starts an inference unless one is in flight |
| Pipeline.CameraPipeline.OnInferred | server/src/media/worker.ts:139-146 | counts detections, reports ONLINE, keeps the last fifty latencies |
| Pipeline.CameraPipeline.OnInferenceFailed | server/src/media/worker.ts:147-152 | counts the failure and lowers the flag |
| Pipeline.CameraPipeline.OnSubmitted | server/src/media/worker.ts:144-152 | the flag falls only after the submissions |
| Pipeline.CameraPipeline.FlushStats | server/src/media/worker.ts:234-256 | counters restart at zero and are posted with the rounded average, unless all are zero |
| Pipeline.CameraPipeline.Stop | server/src/media/worker.ts:258-264 | stopped, with the last timers cleared and the child told to end |
| Pipeline.PipelineRun | server/src/media/worker.ts:76-153 | in every run at most one child or pending reconnect, and at most one inference outstanding; while running one of the two, unless a spawn failed |
| Pipeline.AnalysedExactly | server/src/media/worker.ts:131-152 | over every run, the inferences returned, broken off and outstanding are as many as the frames that came with inference enabled and none under way |
| Pipeline.ReportsAreTold | server/src/media/worker.ts:76-146 | the health reports of a run are those told from its events alone: one per start, two per exit, one per first frame since a start or tick, one per inference |
| Pipeline.PostsAreTold | server/src/media/worker.ts:234-256 | the posts of a run are one per tick with something counted since the last, with the mean of the last fifty latencies rounded to hundredths |
| Pipeline.DelayDoubles | server/src/media/worker.ts:119-121 | the delay doubles with each attempt up to the sixth, within the maximum |
| Pipeline.StuckForGood | server/src/media/worker.ts:101 | after a failed spawn nothing is started again and at most late frames report: no OFFLINE, no reconnect |
| Pipeline.AfterStop | server/src/media/worker.ts:258-264 | from stop on every child has been told to end, no reconnect is pending, and none of either is started again; at most late frames report |
| Pipeline.StoredIsCarried | server/src/routes/internal.routes.ts:204-216 | the stored row is the sum of the accepted posts |
| Pipeline.Conservation | server/src/media/worker.ts:234-256 | every frame, detection and failure of a run is in the stored row, in a post that was not accepted, or still in the counters |
| Pipeline.BackoffNeverGrows | server/src/media/worker.ts:109-122 | every retry ever announced is attempt 1 after min(max, base) |
| Pipeline.SecondRetryIsFirst | server/src/media/worker.ts:109-122 | a run whose two exits both announce attempt 1 with the same delay |
| Pipeline.IntervalsLeak | server/src/media/worker.ts:112-113 | one live stats interval per start while running, one per reconnect for ever after stop |
| Pipeline.LeakExample | server/src/media/worker.ts:112-113 | two exits, two reconnects and a stop leave two live intervals |
| Pipeline.LatencyWindow | server/src/media/worker.ts:142-143 | the latencies kept are the last fifty of the run |
| Pipeline.PipelineNeverRecovers | server/src/media/worker.ts:102-122 | the reports of a run raise one CAMERA_OFFLINE per exit and never CAMERA_RECOVERED |
| Pipeline.RunInDatabase | server/src/media/health.service.ts:77-145 | a pipeline's whole run, applied to the camera row, adds its exits to reconnect_count and one CAMERA_OFFLINE per exit, nothing else |
| Worker.MediaWorker.Reconcile | server/src/media/worker.ts:272-307 | afterwards there is a pipeline exactly for the chosen cameras: old ones untouched, new ones started with their row's settings, the others stopped |
| Worker.MediaWorker.StartMissing | server/src/media/worker.ts:281-299 | the first loop, with its limit |
| Worker.MediaWorker.StopGone | server/src/media/worker.ts:300-306 | the second loop |
| Worker.ChosenIsPrefix | server/src/media/worker.ts:281-285 | the chosen cameras are those of a first stretch of the rows: all, or as many as the limit allows |
| Hls.HlsManager.EnsureSession | server/src/media/hls.service.ts:55-91 | touches a live session or starts a process and arms the reaper |
| Hls.HlsManager.ReadArtifact | server/src/media/hls.service.ts:94-105 | a plain name marks access; any other name is refused |
| Hls.HlsManager.StopSession | server/src/media/hls.service.ts:107-114 | kills and forgets the session |
| Hls.HlsManager.OnExit | server/src/media/hls.service.ts:83-86 | forgets the session only if it is still this process's |
| Hls.HlsManager.OnTick | server/src/media/hls.service.ts:118-130 | kills exactly the idle sessions and stands down when none is left |
| Hls.HlsManager.StopAll | server/src/media/hls.service.ts:133-140 | kills every session's process and the reaper |
| Hls.SessionsAreTold | server/src/media/hls.service.ts:55-140 | in every run the sessions, their processes and the reaper are those told from the events alone |
| Hls.PlainNames | server/src/media/hls.service.ts:96 | a name is served exactly if non-empty, of letters, digits, dots, dashes and underscores, and without two dots together |
| Hls.SessionsAreProcesses | server/src/media/hls.service.ts:55-91 | in every run the processes not told to die are exactly those of the session map, each under its own key |
| Hls.LateExit | server/src/media/hls.service.ts:83-86 | the exit of a replaced or stopped process changes no session; that of a live one removes only its own |
| Hls.IdleBound | server/src/media/hls.service.ts:116-131 | no session outlives its last use by more than 60 s and one 15 s period plus the tick's delay, and while there is one the reaper is armed |
| Hls.RecentUseSurvives | server/src/media/hls.service.ts:118-130 | a session asked for in the last minute survives the reaper's tick unchanged |
| Hls.TenantsApart | server/src/media/hls.service.ts:37-39 | one organization's requests never touch another's session |
| Hls.OnlyOwnChange | server/src/media/hls.service.ts:55-133 | over any stretch of a run an organization's sessions are changed by its own requests, its own processes' exits, the reaper's ticks and stopAll, and by nothing else |
| Hls.TickTakesIdle | server/src/media/hls.service.ts:118-130 | a tick takes from an organization exactly the sessions idle for over a minute |
| Health.HealthService.ApplyHealthUpdate | server/src/media/health.service.ts:64-148 | the whole new camera row and what is recorded, nothing for a camera the organization cannot see |
| Health.CameraRun | server/src/media/health.service.ts:64-148 | whatever is reported for other cameras or organizations in between, a camera's status and events are those of its own reports |
| Health.CountsReconnects | server/src/media/health.service.ts:84 | reconnect_count grows by the camera's own flagged reports |
| Health.RowFollows | server/src/media/health.service.ts:77-103 | over any run, each column holds the last value or time that one of the camera's own reports brought it |
| Health.HealthSuits | server/src/media/health.service.ts:25-40 | the health column always suits the status |
| Health.RowsAreReports | server/src/media/health.service.ts:105-145 | every row recorded is that of one report, HIGH for going offline and INFO for recovering |
| Health.EventsCountBlocks | server/src/media/health.service.ts:105-112 | CAMERA_OFFLINE counts the maximal offline blocks entered, CAMERA_RECOVERED those directly followed by ONLINE |
| Health.RecoveredOnlyAfterOffline | server/src/media/health.service.ts:105-112 | no two CAMERA_RECOVERED without a CAMERA_OFFLINE between them |
| Health.Ends | server/src/media/health.service.ts:105-112 | a camera that starts out of the offline statuses raises CAMERA_OFFLINE first, and one that stands in them raised it last |
| Health.AlternatesIff | server/src/media/health.service.ts:105-112 | the two events strictly alternate exactly when no offline block is left for a status other than ONLINE before another begins |
| Health.OnlineOfflineAlternates | server/src/media/health.service.ts:109-110 | on ONLINE and the offline statuses alone they alternate |
| Health.ReconnectingBreaksDedup | server/src/media/health.service.ts:105-112 | RECONNECTING between two OFFLINE raises CAMERA_OFFLINE twice and hides the recovery |
| Rules.AfterHoursMeans | server/src/ai/schedule.ts:31-53 | after hours means: there is a schedule and no row of it is open now |
| Rules.OpenByMeans | server/src/ai/schedule.ts:17-51 | a window by the calendar: weekday of the day number since 1970, minute of the day, overnight wrap |
| Rules.Weekly | server/src/ai/schedule.ts:17-24 | the answer repeats every week |
| Rules.OvernightSplits | server/src/ai/schedule.ts:45-51 | an overnight window may be written as two on its own day |
| Rules.EveryDayIsSevenRows | server/src/ai/schedule.ts:42 | a row without a weekday may be written as seven |
| Rules.OvernightStaysOnItsDay | server/src/ai/schedule.ts:42-51 | a Monday night window opens the small hours of Monday, not of Tuesday |
| Rules.ZoneGate | server/src/ai/rule-eval.ts:79-101 | the cached lookup decides as the direct one |
| Rules.EvaluateDetection | server/src/ai/rule-eval.ts:55-130 | the loop returns, in rule order, the first passing rule of each type; fire and smoke pass through |
| Rules.RaisedByFirst | server/src/ai/rule-eval.ts:92-127 | every event raised is that of the first passing rule of its type |
| Rules.NoTypeTwice | server/src/ai/rule-eval.ts:118-126 | no type is raised twice |
| Rules.PassingIsRaised | server/src/ai/rule-eval.ts:92-127 | every type with a passing rule is raised |
| Rules.RaisesMeans | server/src/ai/rule-eval.ts:74-126 | a type is raised iff some enabled rule of the camera, meant for the class, passes all gates |
| Rules.RaisesGateByGate | server/src/ai/rule-eval.ts:65-126 | a type is raised exactly if some rule asks for it and the class, confidence, zone, opening hours and dwell all fit, each gate in the fields of rule, detection and tables |
| Rules.FirePassesThrough | server/src/ai/rule-eval.ts:60-63 | fire and smoke are raised under their own names without any rule |
| Rules.MoreRaisesMore | server/src/ai/rule-eval.ts:93-116 | a surer or longer-staying detection raises every type it raised before |
| Csv.LineReads | server/src/routes/reports.routes.ts:160-162 | reading a printed line gives its fields |
| Csv.ReadsBack | server/src/routes/reports.routes.ts:158-166 | reading the document gives header and fields back when no unquoted name holds a line end of the reader |
| Csv.RoundTrip | server/src/routes/reports.routes.ts:158-173 | with LF line ends that is every list of rows, whatever the names hold |
| Csv.CrReaderIff | server/src/routes/reports.routes.ts:170-173 | with CR as a line end, too, exactly the lists where no unquoted name holds a CR |
| Csv.CrSplitsRow | server/src/routes/reports.routes.ts:170-173 | a row whose camera name holds a CR is not read back by such a reader |
| Csv.ExportInjective | server/src/routes/reports.routes.ts:158-173 | equal texts are of equal rows |
| Cache.TenantCache.Get | server/src/services/cache.service.ts:24-33 | the unexpired entry under the key; an expired one is dropped |
| Cache.TenantCache.Set | server/src/services/cache.service.ts:35-40 | the entry with its expiry, refused for an empty organization |
| Cache.TenantCache.Invalidate | server/src/services/cache.service.ts:43-52 | one key, or every key with the organization's prefix |
| Cache.KeyInjective | server/src/services/cache.service.ts:19-22 | keys of colon-free organizations name one pair only |
| Cache.PrefixIsTenant | server/src/services/cache.service.ts:48-51 | a prefix picks out exactly its organization's keys |
| Cache.ColonCollides | server/src/services/cache.service.ts:19-22 | with a colon in an id two tenants would share an entry |
| Cache.GetReturnsLastSet | server/src/services/cache.service.ts:4-8 | in every run a get answers with its own organization's last set value, if not invalidated since and not expired |
| Cache.EntriesAreSet | server/src/services/cache.service.ts:35-40 | every entry is one some organization has set, with its expiry; none is without an organization |
| Slug.BaseIsSlug | server/src/services/auth.service.ts:113-118 | the base is non-empty, at most 40 characters of a-z, 0-9 and single dashes, and starts with no dash |
| Slug.BaseMeans | server/src/services/auth.service.ts:113-118 | the base is the first 40 characters of the name's words in lower case, joined by dashes, or `org` |
| Slug.CandidatesDiffer | server/src/services/auth.service.ts:126-127 | candidates of different numbers differ |
| Slug.UniqueSlug | server/src/services/auth.service.ts:112-129 | the first free candidate, found within one more probe than there are slugs |
| Keys.JoinInjective | server/src/ai/tracker.ts:55-57 | a joined key names one pair, the left part holding no colon |
| Keys.DecimalInjective | server/src/services/auth.service.ts:127 | printing a number is injective |

## Left out

- Overlapping asynchronous runs where the code takes no lock: two polls of the worker around the credential query
  (server/src/media/worker.ts:286-298), two session starts around the directory creation
  (server/src/media/hls.service.ts:57-63), two detections reading one cooldown row (server/src/ai/engine.ts:128-134).
  Every step of a run is atomic and serial, except in `pool.dfy`, whose transactions interleave statement by statement.
- Pool.NonInterference: row locks, unique constraints other than the primary key and the correlation id, a failed
  ROLLBACK, a dropped connection and a change of isolation level are not modelled; so runs are allowed in which a parent
  is deleted under a row that is not yet committed. Ids are assumed never to be drawn by two organizations, as random
  UUIDs, and a handler writes references only to rows the transaction has been shown, or that those refer to, as the
  routes do. A statement computes its answer and its changes from all the rows it may see; an insert adds one row.
- Statements.TransactionConsistent: two transactions that interleave may each leave consistent tables and break them
  together, since locks are not modelled; what holds of every interleaving is Pool.InterleavedRefsInOrg.
- Pipeline.RunInDatabase: health reports are sent without waiting and their failures are swallowed
  (server/src/media/worker.ts:78-134 and 222-232); the theorem is about reports that all arrive, in order, one at a time.
- Floating-point rounding, the rounding of `numeric(4,3)` columns and the difference between the process clock and the
  database clock: reals and one clock.
- Tables.ReachableIsConsistent: columns that are neither the organization nor a reference are dropped, and each
  SET NULL column is simply removed from its row.
- Tables.CameraLimitHolds: a plan's limit does not change within a run; a downgrade can leave an organization above it.
- Engine.IncidentLife: an operator's change of an incident's status and its later deletion are not part of the runs.
- Slug.BaseIsSlug: lower-casing covers the ASCII letters only.
- Rules.EvaluateDetection: one clock reading per evaluation; a `minDwellMs` that is not a number is not modelled.
- Zone.DetectionInZone: keys of the stored geometry other than the six named ones are not modelled.
- Csv.RoundTrip: the six columns that are ids, enum names, numbers and times are taken as text without comma, quote or
  line end.
- Hls.IdleBound: paths, the playlist and the segments on disk are not modelled.
- Evidence bytes and storage keys, audit rows, realtime messages, encryption of credentials, sessions and passwords:
  opaque or one-branch, and no theorem needs them.
- The web application, the Python inference service, deployment files, dashboards, role and permission tables.
