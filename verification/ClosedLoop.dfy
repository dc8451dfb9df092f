/**
 The whole loop across hubs: users create policies on the global hub, the policy controller labels
 them with their origin, each regional hub's spec syncer applies them below, its status syncer
 reports them back into the syncer's namespace, and the controller feeds those copies' counts to
 the origin policy. Each syncer is the machine of `SyncMachine`, unchanged; this module puts any
 number of them, with any interleaving, around one global hub.
 */
module ClosedLoop {
  import opened Options
  import opened KubeObjects
  import opened Compliance
  import opened SyncMachine
  import opened SyncSoundness
  import opened SyncConvergence
  import opened SyncRuns
  import opened SummaryCodec
  import opened PolicyController
  import ConcurrentReports

  /** A report for a policy's summary, with the copy and the status it was read from. */
  datatype Feed = Feed(target: Key, report: ClusterSummary, source: Key, status: Value)

  /** A worker of the policy controller with a report to write: the policy as it got it, and the conflicts so far. */
  datatype Updater = Updater(feed: Feed, held: Option<Stored>, attempt: nat)

  datatype World = World(
    syncers: set<string>,
    policies: map<Key, Stored>,          // the policies in users' namespaces of the global hub
    clock: nat,                          // the next resource version there
    downs: map<string, State>,           // each syncer's spec syncer; its target is the regional hub
    ups: map<string, State>,             // each syncer's status syncer; its target is the syncer's namespace
    regional: map<string, map<Key, Value>>,   // the status of each policy on each regional hub
    hubCache: map<Key, Stored>,          // the policy controller's informer cache
    hubDirty: set<Key>,                  // its queue
    updaters: map<nat, Updater>,         // its workers that have a report to write
    // History, never read by the program:
    fed: map<Key, seq<Feed>>,            // the reports written to each policy since it was created
    missed: set<Key>,                    // copies whose latest report was given up, or went to a policy since removed
    created: set<Key>,                   // policies ever created by users
    reports: set<(string, Key, Value)>,  // statuses ever set on a regional hub
    spoiled: set<string>)                // names of policies that some user did not treat with care

  function Start(syncers: set<string>): World {
    World(syncers, map[], 0, map s | s in syncers :: Init(Down, s), map s | s in syncers :: Init(Up, s),
          map s | s in syncers :: map[], map[], {}, map[], map[], {}, {}, {}, {})
  }

  datatype Move =
    | Create(obj: Object)
    | Edit(obj: Object)
    | Remove(key: Key)
    | DownObserve(syncer: string, key: Key)
    | DownStep(syncer: string, action: Action)
    | RegionalReport(syncer: string, key: Key, status: Value)
    | UpObserve(syncer: string, key: Key)
    | UpStep(syncer: string, action: Action)
    | HubObserve(key: Key)
    | HubReconcile(worker: nat, key: Key, accepted: bool)
    | ReportGet(worker: nat)
    | ReportWrite(worker: nat, accepted: bool)

  ghost predicate WellFormed(w: World) {
    w.downs.Keys == w.syncers && w.ups.Keys == w.syncers && w.regional.Keys == w.syncers && "" !in w.syncers
  }

  /** What the global hub stores under k: a copy if k is in a syncer's namespace, else a user's policy. */
  function GlobalAt(w: World, k: Key): Option<Stored> {
    if k.namespace in w.ups then Lookup(w.ups[k.namespace].target, k) else Lookup(w.policies, k)
  }

  predicate OriginAbsentOrOwn(o: Object) {
    ORIGIN !in LabelsOf(o) || HasOrigin(o, o.meta.namespace)
  }

  /** Users create policies in namespaces that are not syncers'. */
  predicate MayCreate(w: World, obj: Object) {
    var k := KeyOf(POLICIES, obj);
    |k.namespace| > 0 && k.namespace !in w.syncers && k !in w.policies
  }

  /** A careful user does not falsify the origin label, and lets an earlier policy of the name come to its end first. */
  ghost predicate CreatesWithCare(w: World, obj: Object) {
    var k := KeyOf(POLICIES, obj);
    OriginAbsentOrOwn(obj) && forall s | s in w.downs :: k !in w.downs[s].cache && !Busy(w.downs[s], k)
  }

  predicate MayEdit(w: World, obj: Object) {
    KeyOf(POLICIES, obj) in w.policies
  }

  /** A careful user neither strips nor falsifies the origin label. */
  predicate EditsWithCare(w: World, obj: Object)
    requires MayEdit(w, obj)
  {
    var k := KeyOf(POLICIES, obj);
    OriginAbsentOrOwn(obj) && (HasOrigin(w.policies[k].obj, k.namespace) ==> HasOrigin(obj, k.namespace))
  }

  /** The policy as the regional hub has it: the applied configuration with the status set there. */
  function RegionalAt(w: World, s: string, k: Key): Option<Object>
    requires s in w.downs && s in w.regional
  {
    if k !in w.downs[s].target then None
    else Some(WithStatus(w.downs[s].target[k].obj, if k in w.regional[s] then w.regional[s][k] else Null))
  }

  function Store(w: World, k: Key, obj: Object): World {
    w.(policies := w.policies[k := Stored(obj, w.clock)], clock := w.clock + 1)
  }

  /** The statuses of the policies that are on the hub; a status goes with its policy. */
  function Kept(statuses: map<Key, Value>, target: map<Key, Stored>): map<Key, Value> {
    map k | k in statuses && k in target :: statuses[k]
  }

  function SetDown(w: World, s: string, d: State): World
    requires s in w.regional
  {
    w.(downs := w.downs[s := d], regional := w.regional[s := Kept(w.regional[s], d.target)])
  }

  function SetUp(w: World, s: string, u: State): World {
    w.(ups := w.ups[s := u])
  }

  function Observation(k: Key, seen: Option<Object>): Action {
    if seen.Some? then Observe(k.resource, seen.value) else ObserveDelete(k)
  }

  /** The cached object is labelled in place, then on the hub, where a stale update is rejected and an error not retried. */
  function LabelStep(w: World, k: Key, accepted: bool): (r: World)
    requires k in w.hubCache
    ensures r.syncers == w.syncers && r.downs == w.downs && r.ups.Keys == w.ups.Keys && r.regional == w.regional && r.spoiled == w.spoiled
    ensures r.policies.Keys == w.policies.Keys
  {
    var cached, stored := w.hubCache[k], GlobalAt(w, k);
    var labelled := WithOrigin(cached.obj);
    var w1 := w.(hubCache := w.hubCache[k := cached.(obj := labelled)]);
    if !accepted || stored.None? || stored.value.version != cached.version then w1
    else if k.namespace in w.ups then SetUp(w1, k.namespace, TouchStep(w.ups[k.namespace], k, LabelsOf(labelled)))
    else Store(w1, k, WithStatus(labelled, StatusOf(stored.value.obj)))
  }

  /** Some worker has a report from this copy to write. */
  predicate Held(w: World, source: Key) {
    exists u | u in w.updaters :: w.updaters[u].feed.source == source
  }

  /** A worker can take a key if it is free, and the key is queued and not being processed. */
  predicate Takes(w: World, worker: nat, k: Key) {
    worker !in w.updaters && k in w.hubDirty && !Held(w, k)
  }

  /** The report that the cached copy makes. */
  function CachedFeed(w: World, source: Key): Option<Feed> {
    if source !in w.hubCache then None
    else
      var o := w.hubCache[source].obj;
      match Decide(o)
      case ReportTo(origin, report) => Some(Feed(source.(namespace := origin), report, source, StatusOf(o)))
      case _ => None
  }

  /** A free worker takes a key and reconciles its cached object: it labels it, or sets out to report its counts, or leaves it. */
  function ReconcileStep(w: World, worker: nat, k: Key, accepted: bool): (r: World)
    ensures r.syncers == w.syncers && r.downs == w.downs && r.ups.Keys == w.ups.Keys && r.regional == w.regional && r.spoiled == w.spoiled
    ensures r.policies.Keys == w.policies.Keys
  {
    if !Takes(w, worker, k) then w
    else
      var taken := w.(hubDirty := w.hubDirty - {k}, missed := w.missed - {k});
      if k !in w.hubCache then taken
      else if Decide(w.hubCache[k].obj) == NeedsLabel then LabelStep(taken, k, accepted)
      else
        match CachedFeed(w, k)
        case Some(feed) => taken.(updaters := w.updaters[worker := Updater(feed, None, 0)])
        case None => taken
  }

  /** A worker gives up its report; it is not tried again. */
  function GiveUpReport(w: World, worker: nat): World
    requires worker in w.updaters
  {
    w.(updaters := w.updaters - {worker}, missed := w.missed + {w.updaters[worker].feed.source})
  }

  /** A worker with a report gets the policy it goes to; if there is none, it gives up. */
  function ReportGetStep(w: World, worker: nat): (r: World)
    ensures r == w.(updaters := r.updaters, missed := r.missed)
  {
    if worker !in w.updaters || w.updaters[worker].held.Some? then w
    else
      var up := w.updaters[worker];
      if up.feed.target in w.policies then w.(updaters := w.updaters[worker := up.(held := Some(w.policies[up.feed.target]))])
      else GiveUpReport(w, worker)
  }

  function FeedsTo(w: World, k: Key): seq<Feed> {
    if k in w.fed then w.fed[k] else []
  }

  /** The worker has computed a status from the policy as it still is, and its write is accepted. */
  predicate Commits(w: World, worker: nat, accepted: bool) {
    && worker in w.updaters && w.updaters[worker].held.Some? && accepted
    && var up := w.updaters[worker];
    && up.feed.target in w.policies && w.policies[up.feed.target].version == up.held.value.version
    && NewStatus(up.held.value.obj, up.feed.report).Some?
  }

  function CommitStep(w: World, worker: nat): (r: World)
    requires Commits(w, worker, true)
    ensures r == w.(updaters := w.updaters - {worker}, policies := r.policies, clock := r.clock, fed := r.fed)
    ensures r.policies.Keys == w.policies.Keys
  {
    var up := w.updaters[worker];
    var k, status := up.feed.target, NewStatus(up.held.value.obj, up.feed.report).value;
    Store(w, k, WithStatus(w.policies[k].obj, Dict(FieldsOf(status))))
      .(updaters := w.updaters - {worker}, fed := w.fed[k := FeedsTo(w, k) + [up.feed]])
  }

  /** On a conflict it gets the policy again, some times over; on any other error it gives up. */
  function RetryStep(w: World, worker: nat): (r: World)
    requires worker in w.updaters && w.updaters[worker].held.Some?
    ensures r == w.(updaters := r.updaters, missed := r.missed)
  {
    var up := w.updaters[worker];
    var conflict := up.feed.target in w.policies && w.policies[up.feed.target].version != up.held.value.version;
    if NewStatus(up.held.value.obj, up.feed.report).Some? && conflict && up.attempt + 1 < ConcurrentReports.ATTEMPTS then
      w.(updaters := w.updaters[worker := up.(held := None, attempt := up.attempt + 1)])
    else GiveUpReport(w, worker)
  }

  /** It writes the status computed from what it got. */
  function ReportWriteStep(w: World, worker: nat, accepted: bool): (r: World)
    ensures r == w.(updaters := r.updaters, policies := r.policies, clock := r.clock, fed := r.fed, missed := r.missed)
    ensures r.policies.Keys == w.policies.Keys
  {
    if worker !in w.updaters || w.updaters[worker].held.None? then w
    else if Commits(w, worker, accepted) then CommitStep(w, worker)
    else RetryStep(w, worker)
  }

  // ------------------------------------------------------------------- moves

  /** From w to t, no syncer and no regional hub changed. */
  predicate SyncersKept(w: World, t: World) {
    t.syncers == w.syncers && t.downs == w.downs && t.ups == w.ups && t.regional == w.regional && t.reports == w.reports
  }

  /** The cached copies whose report goes to policy k. */
  function Sources(w: World, k: Key): set<Key> {
    set c | c in w.hubCache && CachedFeed(w, c).Some? && CachedFeed(w, c).value.target == k
  }

  /** A user creates a policy; its status is not the user's to set. What was reported to an earlier one is gone. */
  ghost function CreateStep(w: World, obj: Object): (r: World)
    ensures SyncersKept(w, r) && w.spoiled <= r.spoiled && w.policies.Keys <= r.policies.Keys
  {
    var k := KeyOf(POLICIES, obj);
    if MayCreate(w, obj) then
      Store(w, k, WithStatus(obj, Null))
        .(created := w.created + {k}, fed := w.fed - {k}, missed := w.missed + Sources(w, k),
          spoiled := if CreatesWithCare(w, obj) then w.spoiled else w.spoiled + {k.name})
    else w
  }

  function EditStep(w: World, obj: Object): (r: World)
    ensures SyncersKept(w, r) && w.spoiled <= r.spoiled && w.policies.Keys <= r.policies.Keys
  {
    var k := KeyOf(POLICIES, obj);
    if MayEdit(w, obj) then
      Store(w, k, WithStatus(obj, StatusOf(w.policies[k].obj)))
        .(spoiled := if EditsWithCare(w, obj) then w.spoiled else w.spoiled + {k.name})
    else w
  }

  /** The spec syncer's informer sees a key as it is on the global hub. */
  function DownObserveStep(w: World, s: string, k: Key): (r: World)
    requires s in w.syncers ==> s in w.downs && s in w.regional
    ensures r == w.(downs := r.downs, regional := r.regional) && (s !in w.syncers ==> r == w)
  {
    if s !in w.syncers then w
    else
      var seen := GlobalAt(w, k);
      SetDown(w, s, Step(w.downs[s], Observation(k, if seen.Some? then Some(seen.value.obj) else None)))
  }

  function DownInternalStep(w: World, s: string, a: Action): (r: World)
    requires s in w.syncers ==> s in w.downs && s in w.regional
    ensures r == w.(downs := r.downs, regional := r.regional)
  {
    if s in w.syncers && Internal(a) then SetDown(w, s, Step(w.downs[s], a)) else w
  }

  /** A regional hub sets the status of a policy it has. */
  function RegionalReportStep(w: World, s: string, k: Key, status: Value): (r: World)
    requires s in w.syncers ==> s in w.downs && s in w.regional
    ensures r == w.(regional := r.regional, reports := r.reports)
  {
    if s !in w.syncers || k !in w.downs[s].target then w
    else w.(regional := w.regional[s := w.regional[s][k := status]], reports := w.reports + {(s, k, status)})
  }

  /** The status syncer's informer sees a key as it is on the regional hub. */
  function UpObserveStep(w: World, s: string, k: Key): (r: World)
    requires s in w.syncers ==> s in w.downs && s in w.ups && s in w.regional
    ensures r == w.(ups := r.ups)
  {
    if s in w.syncers then SetUp(w, s, Step(w.ups[s], Observation(k, RegionalAt(w, s, k)))) else w
  }

  function UpInternalStep(w: World, s: string, a: Action): (r: World)
    requires s in w.syncers ==> s in w.ups
    ensures r == w.(ups := r.ups)
  {
    if s in w.syncers && Internal(a) then SetUp(w, s, Step(w.ups[s], a)) else w
  }

  /** The policy controller's informer sees a key as it is, and every event is enqueued. */
  function HubObserveStep(w: World, k: Key): (r: World)
    ensures r == w.(hubCache := r.hubCache, hubDirty := w.hubDirty + {k})
  {
    var seen := GlobalAt(w, k);
    w.(hubCache := if seen.Some? then w.hubCache[k := seen.value] else w.hubCache - {k}, hubDirty := w.hubDirty + {k})
  }

  ghost function Next(w: World, m: Move): (r: World)
    requires WellFormed(w)
    ensures WellFormed(r) && r.syncers == w.syncers
  {
    match m
    case Create(obj) => CreateStep(w, obj)
    case Edit(obj) => EditStep(w, obj)
    case Remove(k) => w.(policies := w.policies - {k})
    case DownObserve(s, k) => DownObserveStep(w, s, k)
    case DownStep(s, a) => DownInternalStep(w, s, a)
    case RegionalReport(s, k, status) => RegionalReportStep(w, s, k, status)
    case UpObserve(s, k) => UpObserveStep(w, s, k)
    case UpStep(s, a) => UpInternalStep(w, s, a)
    case HubObserve(k) => HubObserveStep(w, k)
    case HubReconcile(worker, k, accepted) => ReconcileStep(w, worker, k, accepted)
    case ReportGet(worker) => ReportGetStep(w, worker)
    case ReportWrite(worker, accepted) => ReportWriteStep(w, worker, accepted)
  }

  ghost function RunMoves(w: World, moves: seq<Move>): (r: World)
    requires WellFormed(w)
    ensures WellFormed(r) && r.syncers == w.syncers
  {
    if moves == [] then w else Next(RunMoves(w, moves[..|moves| - 1]), moves[|moves| - 1])
  }

  /** The loop after any moves of users, controller, syncers and regional hubs. */
  ghost function RunLoop(syncers: set<string>, moves: seq<Move>): (r: World)
    requires "" !in syncers
    ensures WellFormed(r) && r.syncers == syncers
  {
    RunMoves(Start(syncers), moves)
  }

  // -------------------------------------------------------- the spec syncers

  predicate UserKey(syncers: set<string>, k: Key) {
    k.resource == POLICIES && |k.namespace| > 0 && k.namespace !in syncers
  }

  /** An object in a syncer's namespace carries the origin of a user's policy. */
  predicate CarriesOrigin(syncers: set<string>, o: Object) {
    ORIGIN in LabelsOf(o) && LabelsOf(o)[ORIGIN] !in syncers
  }

  predicate DownCacheOk(syncers: set<string>, created: set<Key>, k: Key, o: Object) {
    && |k.namespace| > 0
    && if k.namespace in syncers then CarriesOrigin(syncers, o)
       else k.resource == POLICIES && k in created && OriginAbsentOrOwn(o)
  }

  // The invariants speak of the policies of one name: what happens to others has no part in it.

  /** Everything of this name that a spec syncer is busy with, holds or has applied is a user's policy with its own namespace as origin. */
  ghost predicate DownClean(syncers: set<string>, name: string, created: set<Key>, d: State) {
    && d.dir == Down && SyncSoundness.Sound(d)
    && (forall k | k in d.cache && k.name == name :: DownCacheOk(syncers, created, k, d.cache[k]))
    && (forall k | Busy(d, k) && k.name == name :: UserKey(syncers, k) && k in created && (k in d.cache ==> HasOrigin(d.cache[k], k.namespace)))
    && SnapshotsOk(name, d.jobs)
    && DownTargetClean(syncers, name, created, d)
  }

  predicate SnapshotOk(job: Job) {
    match job.phase
    case Read(Some(o)) => HasOrigin(o, job.key.namespace)
    case Fetched(o, _) => HasOrigin(o, job.key.namespace)
    case Patched(o) => HasOrigin(o, job.key.namespace)
    case _ => true
  }

  ghost predicate SnapshotsOk(name: string, jobs: map<nat, Job>) {
    forall v | v in jobs && jobs[v].key.name == name :: SnapshotOk(jobs[v])
  }

  ghost predicate DownTargetClean(syncers: set<string>, name: string, created: set<Key>, d: State) {
    && (forall k | k in d.target :: k in d.applied && KeyOf(k.resource, d.target[k].obj) == k)
    && (forall k | k in d.target && k.name == name :: HasOrigin(d.target[k].obj, k.namespace))
    && (forall k | k in d.applied && k.name == name :: UserKey(syncers, k) && k in created)
  }

  /** What a spec syncer reads for a key it is busy with carries its origin. */
  lemma DownReadClean(syncers: set<string>, name: string, created: set<Key>, d: State, w: nat, failed: bool)
    requires DownClean(syncers, name, created, d)
    ensures var t := ReadStep(d, w, failed);
            t.cache == d.cache && DownTargetClean(syncers, name, created, t) && SnapshotsOk(name, t.jobs)
  {
  }

  lemma ApplyDownClean(syncers: set<string>, name: string, created: set<Key>, d: State, w: nat, o: Object, outcome: Outcome)
    requires w in d.jobs && DownTargetClean(syncers, name, created, d) && KeyOf(d.jobs[w].key.resource, o) == d.jobs[w].key
    requires var k := d.jobs[w].key; k.name == name ==> UserKey(syncers, k) && k in created && HasOrigin(o, k.namespace)
    ensures DownTargetClean(syncers, name, created, ApplyDown(d, w, o, outcome))
  {
    var k := d.jobs[w].key;
    assert HasOrigin(Stripped(o, k.namespace), k.namespace) == HasOrigin(o, k.namespace) && KeyOf(k.resource, Stripped(o, k.namespace)) == k;
  }

  lemma DeleteDownClean(syncers: set<string>, name: string, created: set<Key>, d: State, w: nat, outcome: Outcome)
    requires w in d.jobs && DownTargetClean(syncers, name, created, d)
    ensures DownTargetClean(syncers, name, created, DeleteDown(d, w, outcome))
  {
  }

  lemma DownWriteClean(syncers: set<string>, name: string, created: set<Key>, d: State, w: nat, outcome: Outcome)
    requires DownClean(syncers, name, created, d)
    ensures DownTargetClean(syncers, name, created, WriteStep(d, w, outcome))
  {
    if w in d.jobs {
      assert Busy(d, d.jobs[w].key) && PhaseSound(Down, d.jobs[w]);
      match d.jobs[w].phase
      case Read(Some(o)) => ApplyDownClean(syncers, name, created, d, w, o, outcome);
      case Read(None) => DeleteDownClean(syncers, name, created, d, w, outcome);
      case _ =>
    }
  }

  /** A worker's move that takes no new snapshot. */
  lemma WriteTakesNoSnapshot(name: string, d: State, w: nat, outcome: Outcome)
    requires SnapshotsOk(name, d.jobs)
    ensures var t := WriteStep(d, w, outcome); t.cache == d.cache && t.seen == d.seen && SnapshotsOk(name, t.jobs)
  {
    WriteMoves(d, w, outcome);
  }

  lemma DownInternal(syncers: set<string>, name: string, created: set<Key>, d: State, a: Action)
    requires DownClean(syncers, name, created, d) && Internal(a)
    ensures var t := Step(d, a); DownClean(syncers, name, created, t) && t.cache == d.cache && forall k | Busy(t, k) :: Busy(d, k)
  {
    InternalFacts(d, a);
    DownSides(syncers, name, created, d, a);
    DownCleanFrom(syncers, name, created, d, Step(d, a));
  }

  lemma DownSides(syncers: set<string>, name: string, created: set<Key>, d: State, a: Action)
    requires DownClean(syncers, name, created, d) && Internal(a)
    ensures var t := Step(d, a);
            t.cache == d.cache && DownTargetClean(syncers, name, created, t) && SnapshotsOk(name, t.jobs)
  {
    if a.ReadCache? {
      hide Busy, SyncSoundness.Sound, DownTargetClean, SnapshotsOk, ReadStep;
      DownReadClean(syncers, name, created, d, a.w, a.failed);
    } else if a.Fetch? {
      hide Busy, SyncSoundness.Sound, DownTargetClean, SnapshotsOk;
      assert Step(d, a) == d;
    } else if a.Write? {
      hide Busy, SyncSoundness.Sound, DownTargetClean, WriteStep;
      DownWriteClean(syncers, name, created, d, a.w, a.outcome);
      WriteTakesNoSnapshot(name, d, a.w, a.outcome);
    } else {
      hide Step, Busy, SyncSoundness.Sound;
      QuietStep(d, a);
    }
  }

  lemma DownCleanFrom(syncers: set<string>, name: string, created: set<Key>, d: State, t: State)
    requires DownClean(syncers, name, created, d) && t.dir == Down && SyncSoundness.Sound(t) && t.cache == d.cache
    requires DownTargetClean(syncers, name, created, t) && SnapshotsOk(name, t.jobs)
    requires forall k | Busy(t, k) :: Busy(d, k)
    ensures DownClean(syncers, name, created, t)
  {
  }

  /** The informer shows the spec syncer an object; its key gets busy only if it carries its own namespace. */
  lemma DownSees(syncers: set<string>, name: string, created: set<Key>, d: State, k: Key, obj: Object)
    requires DownClean(syncers, name, created, d) && KeyOf(k.resource, obj) == k
    requires k.name == name ==> DownCacheOk(syncers, created, k, obj) && (Busy(d, k) ==> HasOrigin(obj, k.namespace))
    ensures var t := ObserveStep(d, k.resource, obj);
            && DownClean(syncers, name, created, t) && t.applied == d.applied && t.target == d.target
            && (forall x | Busy(t, x) && x.name == name :: Busy(d, x) || (x == k && HasOrigin(obj, k.namespace)))
  {
    var t := ObserveStep(d, k.resource, obj);
    ObserveSound(d, k.resource, obj);
    ObserveBusy(d, k, obj);
    DownCleanAfterEvent(syncers, name, created, d, t, k);
  }

  lemma ObserveBusy(d: State, k: Key, obj: Object)
    requires d.dir == Down && KeyOf(k.resource, obj) == k
    ensures forall x | Busy(ObserveStep(d, k.resource, obj), x) :: Busy(d, x) || (x == k && (|k.namespace| > 0 ==> HasOrigin(obj, k.namespace)))
  {
  }

  /** The informer loses an object. */
  lemma DownSeesGone(syncers: set<string>, name: string, created: set<Key>, d: State, k: Key)
    requires DownClean(syncers, name, created, d)
    ensures var t := ObserveDeleteStep(d, k);
            && DownClean(syncers, name, created, t) && t.applied == d.applied && t.target == d.target
            && (forall x | Busy(t, x) && x.name == name :: Busy(d, x) || (x == k && k in d.cache && HasOrigin(d.cache[k], k.namespace)))
  {
    if k in d.cache {
      var t := ObserveDeleteStep(d, k);
      ObserveDeleteSound(d, k);
      assert KeyOf(k.resource, d.cache[k]) == k;
      if k.name == name { assert DownCacheOk(syncers, created, k, d.cache[k]); }
      assert forall n | n in t.inbox :: n in d.inbox || n == t.inbox[|d.inbox|];
      DownCleanAfterEvent(syncers, name, created, d, t, k);
    }
  }

  lemma DownCleanAfterEvent(syncers: set<string>, name: string, created: set<Key>, d: State, t: State, k: Key)
    requires DownClean(syncers, name, created, d) && t.dir == Down && SyncSoundness.Sound(t)
    requires t.jobs == d.jobs && t.target == d.target && t.applied == d.applied
    requires forall x | x in t.cache && x != k :: x in d.cache && t.cache[x] == d.cache[x]
    requires k.name == name && k in t.cache ==> DownCacheOk(syncers, created, k, t.cache[k])
    requires forall x | Busy(t, x) && x.name == name :: Busy(d, x) || (x == k && UserKey(syncers, k) && k in created)
    requires k.name == name && Busy(t, k) && k in t.cache ==> HasOrigin(t.cache[k], k.namespace)
    ensures DownClean(syncers, name, created, t)
  {
  }

  // ------------------------------------------------------ the status syncers

  /** No other of these keys has the name of k. */
  ghost predicate NameIsOwn(keys: set<Key>, k: Key) {
    forall j | j in keys && j.name == k.name :: j == k
  }

  /** The status is missing or was set for k on the regional hub of s. */
  predicate Known(reports: set<(string, Key, Value)>, s: string, k: Key, status: Value) {
    status == Null || (s, k, status) in reports
  }

  function OriginKey(k: Key, o: Object): Key
    requires ORIGIN in LabelsOf(o)
  {
    k.(namespace := LabelsOf(o)[ORIGIN])
  }

  /**
   A copy in the namespace of syncer s carries the origin of a policy that s applied below; if no
   other policy applied there has its name, its status is one that policy had on that hub.
   */
  ghost predicate CopyOk(reports: set<(string, Key, Value)>, s: string, base: set<Key>, k: Key, o: Object) {
    && k.namespace == s && KeyOf(k.resource, o) == k && ORIGIN in LabelsOf(o) && OriginKey(k, o) in base
    && (NameIsOwn(base, OriginKey(k, o)) ==> Known(reports, s, OriginKey(k, o), StatusOf(o)))
  }

  predicate Reportable(reports: set<(string, Key, Value)>, s: string, k: Key, o: Object) {
    HasOrigin(o, k.namespace) && Known(reports, s, k, StatusOf(o))
  }

  predicate UpSnapshotOk(reports: set<(string, Key, Value)>, s: string, job: Job) {
    match job.phase
    case Read(Some(o)) => Reportable(reports, s, job.key, o)
    case Fetched(o, _) => Reportable(reports, s, job.key, o)
    case Patched(o) => Reportable(reports, s, job.key, o)
    case _ => true
  }

  ghost predicate UpSnapshotsOk(reports: set<(string, Key, Value)>, s: string, name: string, jobs: map<nat, Job>) {
    forall v | v in jobs && jobs[v].key.name == name :: UpSnapshotOk(reports, s, jobs[v])
  }

  ghost predicate UpTargetClean(reports: set<(string, Key, Value)>, s: string, name: string, base: set<Key>, u: State) {
    forall k | k in u.target && k.name == name :: CopyOk(reports, s, base, k, u.target[k].obj)
  }

  ghost predicate UpClean(reports: set<(string, Key, Value)>, s: string, name: string, base: set<Key>, u: State) {
    && u.dir == Up && u.syncer == s && SyncSoundness.Sound(u) && u.seen <= base && TargetSound(u)
    && (forall k | k in base && k.name == name :: k.resource == POLICIES && |k.namespace| > 0)
    && (forall k | k in u.cache && k.name == name :: Reportable(reports, s, k, u.cache[k]))
    && UpSnapshotsOk(reports, s, name, u.jobs)
    && UpTargetClean(reports, s, name, base, u)
  }

  lemma UpCleanGrows(reports: set<(string, Key, Value)>, more: set<(string, Key, Value)>, s: string, name: string, base: set<Key>, bigger: set<Key>, u: State)
    requires UpClean(reports, s, name, base, u) && reports <= more && base <= bigger
    requires forall k | k in bigger && k.name == name :: k.resource == POLICIES && |k.namespace| > 0
    ensures UpClean(more, s, name, bigger, u)
  {
  }

  /** The copy made of a reportable object carries its origin. */
  lemma FreshCopyOk(reports: set<(string, Key, Value)>, s: string, base: set<Key>, k: Key, o: Object, status: Value)
    requires k in base && KeyOf(k.resource, o) == k && Reportable(reports, s, k, o)
    requires NameIsOwn(base, k) ==> Known(reports, s, k, status)
    ensures CopyOk(reports, s, base, k.(namespace := s), WithStatus(Stripped(o, s), status))
  {
  }

  /** The status already in the copy of k is one of k's, if no other applied policy has its name. */
  lemma OldStatusKnown(reports: set<(string, Key, Value)>, s: string, name: string, base: set<Key>, u: State, k: Key)
    requires k.name == name && UpTargetClean(reports, s, name, base, u) && k in base && NameIsOwn(base, k) && k.(namespace := s) in u.target
    ensures var tk := k.(namespace := s);
            ORIGIN in LabelsOf(u.target[tk].obj) && OriginKey(tk, u.target[tk].obj) == k && Known(reports, s, k, StatusOf(u.target[tk].obj))
  {
  }

  lemma ApplyUpClean(reports: set<(string, Key, Value)>, s: string, name: string, base: set<Key>, u: State, w: nat, o: Object, outcome: Outcome)
    requires UpClean(reports, s, name, base, u) && w in u.jobs
    requires u.jobs[w].key.name == name && Reportable(reports, s, u.jobs[w].key, o)
    requires KeyOf(u.jobs[w].key.resource, o) == u.jobs[w].key
    ensures UpTargetClean(reports, s, name, base, ApplyUp(u, w, o, outcome))
  {
    hide QueueSound, CopyOk, Reportable, ApplyUp;
    var k := u.jobs[w].key;
    assert k in u.seen;
    var tk := k.(namespace := s);
    assert TargetKey(u, k) == tk;
    var oldStatus := if tk in u.target then StatusOf(u.target[tk].obj) else Null;
    if NameIsOwn(base, k) && tk in u.target { OldStatusKnown(reports, s, name, base, u, k); }
    FreshCopyOk(reports, s, base, k, o, oldStatus);
    ApplyUpTarget(u, w, o, outcome);
  }

  lemma ApplyUpTarget(u: State, w: nat, o: Object, outcome: Outcome)
    requires w in u.jobs && u.dir == Up
    ensures var t, tk := ApplyUp(u, w, o, outcome), TargetKey(u, u.jobs[w].key);
            && (forall x | x in t.target && x != tk :: x in u.target && t.target[x] == u.target[x])
            && (tk in t.target ==>
                  || (tk in u.target && t.target[tk] == u.target[tk])
                  || t.target[tk].obj == WithStatus(Stripped(o, tk.namespace), if tk in u.target then StatusOf(u.target[tk].obj) else Null))
  {
  }

  lemma UpdatedCopyOk(reports: set<(string, Key, Value)>, s: string, base: set<Key>, k: Key, copy: Object, o: Object)
    requires k in base && Reportable(reports, s, k, o) && CopyOk(reports, s, base, k.(namespace := s), copy)
    ensures CopyOk(reports, s, base, k.(namespace := s), WithStatus(copy, StatusOf(o)))
  {
  }

  lemma UpdateUpClean(reports: set<(string, Key, Value)>, s: string, name: string, base: set<Key>, u: State, w: nat, o: Object, version: nat, outcome: Outcome)
    requires UpClean(reports, s, name, base, u) && w in u.jobs
    requires u.jobs[w].key.name == name && Reportable(reports, s, u.jobs[w].key, o)
    ensures UpTargetClean(reports, s, name, base, UpdateUp(u, w, o, version, outcome))
  {
    hide QueueSound, CopyOk, Reportable, UpdateUp;
    var k := u.jobs[w].key;
    assert k in u.seen;
    assert TargetKey(u, k) == k.(namespace := s);
    if k.(namespace := s) in u.target {
      UpdatedCopyOk(reports, s, base, k, u.target[k.(namespace := s)].obj, o);
    }
    StatusUpTargets(u, w, o, version, outcome);
  }

  /** Writing a status leaves every other copy, and everything but the status of its own. */
  lemma StatusUpTargets(u: State, w: nat, o: Object, version: nat, outcome: Outcome)
    requires w in u.jobs
    ensures forall t | t == UpdateUp(u, w, o, version, outcome) || t == ApplyStatusUp(u, w, o, outcome) ::
              var tk := TargetKey(u, u.jobs[w].key);
              forall x | x in t.target :: x in u.target && (t.target[x] == u.target[x] || (x == tk && t.target[x].obj == WithStatus(u.target[x].obj, StatusOf(o))))
  {
    hide WithStatus, StatusOf;
  }

  lemma ApplyStatusUpClean(reports: set<(string, Key, Value)>, s: string, name: string, base: set<Key>, u: State, w: nat, o: Object, outcome: Outcome)
    requires UpClean(reports, s, name, base, u) && w in u.jobs
    requires u.jobs[w].key.name == name && Reportable(reports, s, u.jobs[w].key, o)
    ensures UpTargetClean(reports, s, name, base, ApplyStatusUp(u, w, o, outcome))
  {
    hide QueueSound, CopyOk, Reportable, ApplyStatusUp;
    var k := u.jobs[w].key;
    assert k in u.seen;
    assert TargetKey(u, k) == k.(namespace := s);
    if k.(namespace := s) in u.target {
      UpdatedCopyOk(reports, s, base, k, u.target[k.(namespace := s)].obj, o);
    }
    StatusUpTargets(u, w, o, 0, outcome);
  }

  lemma UpWriteClean(reports: set<(string, Key, Value)>, s: string, name: string, base: set<Key>, u: State, w: nat, outcome: Outcome)
    requires UpClean(reports, s, name, base, u)
    ensures UpTargetClean(reports, s, name, base, WriteStep(u, w, outcome))
  {
    if w in u.jobs && u.jobs[w].key.name != name {
      WriteOnlyAt(u, w, outcome);
    } else if w in u.jobs {
      assert UpSnapshotOk(reports, s, u.jobs[w]) && PhaseSound(Up, u.jobs[w]);
      match u.jobs[w].phase
      case Fetched(o, None) => ApplyUpClean(reports, s, name, base, u, w, o, outcome);
      case Fetched(o, Some(version)) => UpdateUpClean(reports, s, name, base, u, w, o, version, outcome);
      case Patched(o) => ApplyStatusUpClean(reports, s, name, base, u, w, o, outcome);
      case _ =>
    }
  }

  lemma UpReadClean(reports: set<(string, Key, Value)>, s: string, name: string, base: set<Key>, u: State, a: Action)
    requires UpClean(reports, s, name, base, u) && (a.ReadCache? || a.Fetch?)
    ensures var t := Step(u, a);
            t.cache == u.cache && t.seen == u.seen && t.target == u.target && UpSnapshotsOk(reports, s, name, t.jobs)
  {
    hide QueueSound, WorkersSound;
    if a.w in u.jobs && u.jobs[a.w].key.name == name { assert UpSnapshotOk(reports, s, u.jobs[a.w]); }
    SnapshotMoves(u, a);
  }

  lemma UpWriteSnapshots(reports: set<(string, Key, Value)>, s: string, name: string, base: set<Key>, u: State, w: nat, outcome: Outcome)
    requires UpClean(reports, s, name, base, u)
    ensures var t := WriteStep(u, w, outcome);
            t.cache == u.cache && t.seen == u.seen && UpSnapshotsOk(reports, s, name, t.jobs)
  {
    hide SyncSoundness.Sound, UpTargetClean, Reportable;
    if w in u.jobs && u.jobs[w].key.name == name { assert UpSnapshotOk(reports, s, u.jobs[w]); }
    WriteMoves(u, w, outcome);
  }

  lemma UpSides(reports: set<(string, Key, Value)>, s: string, name: string, base: set<Key>, u: State, a: Action)
    requires UpClean(reports, s, name, base, u) && Internal(a)
    ensures var t := Step(u, a);
            && t.cache == u.cache && t.seen == u.seen && UpTargetClean(reports, s, name, base, t)
            && UpSnapshotsOk(reports, s, name, t.jobs)
  {
    if a.ReadCache? || a.Fetch? {
      UpReadClean(reports, s, name, base, u, a);
    } else if a.Write? {
      UpWriteClean(reports, s, name, base, u, a.w, a.outcome);
      UpWriteSnapshots(reports, s, name, base, u, a.w, a.outcome);
    } else {
      hide Step, SyncSoundness.Sound, CopyOk, Reportable;
      QuietStep(u, a);
    }
  }

  lemma UpInternal(reports: set<(string, Key, Value)>, s: string, name: string, base: set<Key>, u: State, a: Action)
    requires UpClean(reports, s, name, base, u) && Internal(a)
    ensures UpClean(reports, s, name, base, Step(u, a))
  {
    InternalFacts(u, a);
    StepTargetSound(u, a);
    UpSides(reports, s, name, base, u, a);
  }

  lemma UpSees(reports: set<(string, Key, Value)>, s: string, name: string, base: set<Key>, u: State, k: Key, seen: Option<Object>)
    requires UpClean(reports, s, name, base, u)
    requires seen.Some? ==> k in base && KeyOf(k.resource, seen.value) == k && (k.name == name ==> Reportable(reports, s, k, seen.value))
    ensures UpClean(reports, s, name, base, Step(u, Observation(k, seen)))
  {
    StepSound(u, Observation(k, seen));
    StepTargetSound(u, Observation(k, seen));
  }
}
