/**
 When a stored summary is current. The policy controller's queue gives every change of a copy to one
 worker at a time, but a report that is refused or abandoned is not tried again. Exactly when the
 entry of a hub is what its copy reports, and what becomes of a report that was missed.
 */
module CurrentSummaries {
  import opened Options
  import opened KubeObjects
  import opened Compliance
  import opened SyncMachine
  import opened PolicyController
  import opened ClosedLoop
  import opened StoredSummaries
  import LoopConvergence
  import Provenance

  /** The latest report of a hub among those written to a policy. */
  function Entry(w: World, k: Key, hub: string): Option<ClusterSummary> {
    var reports := Reports(FeedsTo(w, k));
    if hub in Hubs(reports) then Some(Latest(reports, hub)) else None
  }

  /** A report goes from a copy, under the name of its namespace, to a policy of its name. */
  predicate Shaped(f: Feed) {
    f.report.name == f.source.namespace && f.target.name == f.source.name && f.target.resource == f.source.resource
  }

  predicate Cached(w: World) {
    forall k | k in w.hubCache :: KeyOf(k.resource, w.hubCache[k].obj) == k
  }

  /** A worker's report is what the cached copy reports, unless the copy is queued again; no two workers hold one copy. */
  ghost predicate HoldersOk(w: World) {
    && (forall u | u in w.updaters :: Shaped(w.updaters[u].feed))
    && (forall u | u in w.updaters :: w.updaters[u].feed.source in w.hubDirty || CachedFeed(w, w.updaters[u].feed.source) == Some(w.updaters[u].feed))
    && (forall u, v | u in w.updaters && v in w.updaters && w.updaters[u].feed.source == w.updaters[v].feed.source :: u == v)
  }

  /** A worker has exactly this report to write. */
  ghost predicate Underway(w: World, f: Feed) {
    exists u :: u in w.updaters && w.updaters[u].feed == f
  }

  /** What a cached copy reports is queued, underway, missed, or the entry of its hub. */
  ghost predicate Tended(w: World, c: Key) {
    CachedFeed(w, c).Some? ==>
      var f := CachedFeed(w, c).value;
      c in w.hubDirty || c in w.missed || Underway(w, f) || (f.target in w.policies ==> Entry(w, f.target, f.report.name) == Some(f.report))
  }

  ghost predicate AllTended(w: World) {
    HoldersOk(w) && forall c | c in w.hubCache :: Tended(w, c)
  }

  lemma CachedIsShaped(w: World, c: Key)
    requires Cached(w) && CachedFeed(w, c).Some?
    ensures Shaped(CachedFeed(w, c).value) && CachedFeed(w, c).value.source == c
  {
  }

  lemma EntryAppend(feeds: seq<Feed>, f: Feed, hub: string)
    ensures var before, after := Reports(feeds), Reports(feeds + [f]);
            && (hub in Hubs(after) <==> hub in Hubs(before) || hub == f.report.name)
            && Latest(after, hub) == if hub == f.report.name then f.report else Latest(before, hub)
  {
    var before, after := Reports(feeds), Reports(feeds + [f]);
    assert after[..|after| - 1] == before && after[|after| - 1] == f.report;
  }

  // ------------------------------------------------------------ preservation

  /** Nothing that matters to reports changed, unless a policy went away or a copy was queued. */
  lemma TendedCarries(w: World, t: World)
    requires AllTended(w) && t.hubCache == w.hubCache && t.updaters == w.updaters && t.fed == w.fed
    requires w.hubDirty <= t.hubDirty && w.missed <= t.missed && t.policies.Keys <= w.policies.Keys
    ensures AllTended(t)
  {
    hide Entry, Shaped;
    forall c ensures CachedFeed(t, c) == CachedFeed(w, c) { SameCache(w, t, c); }
    hide CachedFeed;
    forall c | c in t.hubCache ensures Tended(t, c) {
      assert Tended(w, c);
      SameEntry(w, t);
    }
  }

  lemma SameCache(w: World, t: World, c: Key)
    requires Lookup(t.hubCache, c) == Lookup(w.hubCache, c)
    ensures CachedFeed(t, c) == CachedFeed(w, c)
  {
  }

  lemma SameEntry(w: World, t: World)
    requires t.fed == w.fed
    ensures forall k, hub :: Entry(t, k, hub) == Entry(w, k, hub)
  {
  }

  lemma CreateTended(w: World, obj: Object)
    requires AllTended(w)
    ensures AllTended(CreateStep(w, obj))
  {
    hide MayCreate, CreatesWithCare, WithStatus, Shaped;
    if MayCreate(w, obj) {
      var t, k := CreateStep(w, obj), KeyOf(POLICIES, obj);
      forall c ensures CachedFeed(t, c) == CachedFeed(w, c) { SameCache(w, t, c); }
      hide CachedFeed;
      forall c | c in t.hubCache ensures Tended(t, c) {
        assert Tended(w, c);
        if CachedFeed(w, c).Some? && CachedFeed(w, c).value.target != k { assert FeedsTo(t, CachedFeed(w, c).value.target) == FeedsTo(w, CachedFeed(w, c).value.target); }
      }
    }
  }

  lemma HubObserveTended(w: World, k: Key)
    requires AllTended(w)
    ensures AllTended(HubObserveStep(w, k))
  {
    hide Shaped, Entry, GlobalAt;
    var t := HubObserveStep(w, k);
    forall c | c != k ensures CachedFeed(t, c) == CachedFeed(w, c) { SameCache(w, t, c); }
    hide CachedFeed;
    SameEntry(w, t);
    forall c | c in t.hubCache ensures Tended(t, c) {
      if c != k { assert Tended(w, c); }
    }
  }

  /** After labelling, the labelled object reports nothing; all others are as they were. */
  lemma LabelTended(w: World, k: Key, accepted: bool)
    requires k in w.hubCache && Decide(w.hubCache[k].obj) == NeedsLabel && HoldersOk(w) && !Held(w, k)
    requires forall c | c in w.hubCache && c != k :: Tended(w, c)
    ensures AllTended(LabelStep(w, k, accepted))
  {
    hide Shaped, Entry;
    var t := LabelStep(w, k, accepted);
    LabelFrame(w, k, accepted);
    forall c | c != k ensures CachedFeed(t, c) == CachedFeed(w, c) { SameCache(w, t, c); }
    LabelledReportsNothing(w.hubCache[k].obj);
    assert CachedFeed(t, k) == None;
    hide CachedFeed, LabelStep;
    SameEntry(w, t);
    forall c | c in t.hubCache ensures Tended(t, c) {
      if c != k { assert Tended(w, c); }
    }
  }

  lemma LabelledReportsNothing(o: Object)
    ensures Decide(WithOrigin(o)) == FromGlobalHub
  {
  }

  lemma LabelFrame(w: World, k: Key, accepted: bool)
    requires k in w.hubCache
    ensures var t := LabelStep(w, k, accepted);
            && t.updaters == w.updaters && t.fed == w.fed && t.hubDirty == w.hubDirty && t.missed == w.missed && t.policies.Keys == w.policies.Keys
            && t.hubCache.Keys == w.hubCache.Keys && t.hubCache[k].obj == WithOrigin(w.hubCache[k].obj)
            && forall c | c != k :: Lookup(t.hubCache, c) == Lookup(w.hubCache, c)
  {
    hide TouchStep, WithStatus, WithOrigin;
  }

  lemma TakenTended(w: World, taken: World, worker: nat, k: Key)
    requires AllTended(w) && Takes(w, worker, k) && taken == w.(hubDirty := w.hubDirty - {k}, missed := w.missed - {k})
    ensures HoldersOk(taken) && !Held(taken, k) && forall c | c in taken.hubCache && c != k :: Tended(taken, c)
    ensures forall c :: CachedFeed(taken, c) == CachedFeed(w, c)
  {
    hide Shaped, Entry;
    forall c ensures CachedFeed(taken, c) == CachedFeed(w, c) { SameCache(w, taken, c); }
    hide CachedFeed;
    SameEntry(w, taken);
    forall c | c in taken.hubCache && c != k ensures Tended(taken, c) { assert Tended(w, c); }
  }

  lemma StartReportHolders(w: World, worker: nat, f: Feed, t: World)
    requires HoldersOk(w) && !Held(w, f.source) && worker !in w.updaters && Shaped(f) && CachedFeed(w, f.source) == Some(f)
    requires t == w.(updaters := w.updaters[worker := Updater(f, None, 0)])
    requires forall c :: CachedFeed(t, c) == CachedFeed(w, c)
    ensures HoldersOk(t) && forall g | Underway(w, g) :: Underway(t, g)
  {
    hide Shaped, CachedFeed;
    forall g | Underway(w, g) ensures Underway(t, g) {
      var u :| u in w.updaters && w.updaters[u].feed == g;
      assert u in t.updaters && t.updaters[u].feed == g;
    }
  }

  lemma StartReportTended(w: World, worker: nat, k: Key, t: World)
    requires HoldersOk(w) && !Held(w, k) && worker !in w.updaters && Cached(w) && CachedFeed(w, k).Some?
    requires forall c | c in w.hubCache && c != k :: Tended(w, c)
    requires t == w.(updaters := w.updaters[worker := Updater(CachedFeed(w, k).value, None, 0)])
    ensures AllTended(t)
  {
    hide Shaped, Entry, Held, Cached;
    CachedIsShaped(w, k);
    forall c ensures CachedFeed(t, c) == CachedFeed(w, c) { SameCache(w, t, c); }
    hide CachedFeed;
    StartReportHolders(w, worker, CachedFeed(w, k).value, t);
    hide HoldersOk;
    SameEntry(w, t);
    assert t.updaters[worker].feed == CachedFeed(t, k).value;
    forall c | c in t.hubCache ensures Tended(t, c) {
      if c != k { assert Tended(w, c); }
    }
  }

  lemma ReconcileTended(w: World, worker: nat, k: Key, accepted: bool)
    requires AllTended(w) && Cached(w)
    ensures AllTended(ReconcileStep(w, worker, k, accepted))
  {
    hide AllTended, LabelStep, CachedFeed, Decide, HoldersOk, Tended, Held;
    if Takes(w, worker, k) {
      var taken := w.(hubDirty := w.hubDirty - {k}, missed := w.missed - {k});
      TakenTended(w, taken, worker, k);
      if k in w.hubCache && Decide(w.hubCache[k].obj) == NeedsLabel {
        LabelTended(taken, k, accepted);
      } else if CachedFeed(w, k).Some? {
        CachedFeedSource(w, k);
        StartReportTended(taken, worker, k, ReconcileStep(w, worker, k, accepted));
      } else {
        SilentTended(taken, k);
      }
    }
  }

  lemma SilentTended(w: World, k: Key)
    requires HoldersOk(w) && CachedFeed(w, k).None? && forall c | c in w.hubCache && c != k :: Tended(w, c)
    ensures AllTended(w)
  {
    hide CachedFeed, Entry;
  }

  /** From w to t, one worker went on with its report, or gave it up. */
  ghost predicate WorkerMoves(w: World, t: World, worker: nat) {
    && worker in w.updaters && t == w.(updaters := t.updaters, missed := t.missed)
    && t.updaters.Keys <= w.updaters.Keys <= t.updaters.Keys + {worker}
    && (forall u | u in t.updaters :: t.updaters[u].feed == w.updaters[u].feed)
    && t.missed == (if worker in t.updaters then w.missed else w.missed + {w.updaters[worker].feed.source})
  }

  lemma WorkerHolders(w: World, t: World, worker: nat)
    requires HoldersOk(w) && WorkerMoves(w, t, worker) && forall c :: CachedFeed(t, c) == CachedFeed(w, c)
    ensures HoldersOk(t)
  {
    hide Shaped, CachedFeed;
  }

  lemma WorkerTended(w: World, t: World, worker: nat)
    requires AllTended(w) && WorkerMoves(w, t, worker)
    ensures AllTended(t)
  {
    hide Shaped, Entry;
    forall c ensures CachedFeed(t, c) == CachedFeed(w, c) { SameCache(w, t, c); }
    hide CachedFeed;
    SameEntry(w, t);
    WorkerHolders(w, t, worker);
    hide HoldersOk;
    forall c | c in t.hubCache ensures Tended(t, c) {
      assert Tended(w, c);
      if CachedFeed(w, c).Some? && Underway(w, CachedFeed(w, c).value) {
        var u :| u in w.updaters && w.updaters[u].feed == CachedFeed(w, c).value;
        CachedFeedSource(w, c);
        if u in t.updaters { assert t.updaters[u].feed == CachedFeed(w, c).value; }
      }
    }
  }

  lemma CachedFeedSource(w: World, c: Key)
    requires CachedFeed(w, c).Some?
    ensures c in w.hubCache && CachedFeed(w, c).value.source == c
  {
  }

  lemma GetMoves(w: World, worker: nat)
    ensures ReportGetStep(w, worker) == w || WorkerMoves(w, ReportGetStep(w, worker), worker)
  {
  }

  lemma RetryMoves(w: World, worker: nat)
    requires worker in w.updaters && w.updaters[worker].held.Some?
    ensures WorkerMoves(w, RetryStep(w, worker), worker)
  {
    hide NewStatus;
  }

  /** A report written is the entry of its hub; entries of other hubs and policies stay. */
  lemma CommitEntry(w: World, worker: nat, k: Key, hub: string)
    requires Commits(w, worker, true)
    ensures var t, f := CommitStep(w, worker), w.updaters[worker].feed;
            Entry(t, k, hub) == if k == f.target && hub == f.report.name then Some(f.report) else Entry(w, k, hub)
  {
    hide NewStatus, WithStatus;
    EntryAppend(FeedsTo(w, w.updaters[worker].feed.target), w.updaters[worker].feed, hub);
    hide Reports, Latest, Hubs;
  }

  lemma CommitHolders(w: World, worker: nat)
    requires HoldersOk(w) && Commits(w, worker, true)
    ensures var t := CommitStep(w, worker);
            && HoldersOk(t) && t.hubCache == w.hubCache && t.hubDirty == w.hubDirty && t.missed == w.missed && t.policies.Keys == w.policies.Keys
            && forall g | Underway(w, g) :: Underway(t, g) || g == w.updaters[worker].feed
  {
    hide NewStatus, WithStatus, Shaped;
    var t := CommitStep(w, worker);
    forall c ensures CachedFeed(t, c) == CachedFeed(w, c) { SameCache(w, t, c); }
    hide CachedFeed;
    forall g | Underway(w, g) ensures Underway(t, g) || g == w.updaters[worker].feed {
      var u :| u in w.updaters && w.updaters[u].feed == g;
      if u != worker { assert u in t.updaters && t.updaters[u].feed == g; }
    }
  }

  /** Reports of one name to one policy come from one copy. */
  lemma SameSource(f: Feed, g: Feed)
    requires Shaped(f) && Shaped(g) && f.target == g.target && f.report.name == g.report.name
    ensures f.source == g.source
  {
  }

  lemma CommitTended(w: World, worker: nat)
    requires AllTended(w) && Cached(w) && Commits(w, worker, true)
    ensures AllTended(CommitStep(w, worker))
  {
    hide Entry, Shaped, Cached;
    var t, g := CommitStep(w, worker), w.updaters[worker].feed;
    CommitHolders(w, worker);
    forall c | c in t.hubCache ensures Tended(t, c) {
      assert Tended(w, c);
      SameCache(w, t, c);
      if CachedFeed(w, c).Some? {
        var f := CachedFeed(w, c).value;
        CommitEntry(w, worker, f.target, f.report.name);
        CachedIsShaped(w, c);
        hide CachedFeed, CommitStep;
        if f.target == g.target && f.report.name == g.report.name {
          SameSource(f, g);
          assert g.source == c;
        }
      }
    }
  }

  lemma WriteTended(w: World, worker: nat, accepted: bool)
    requires AllTended(w) && Cached(w)
    ensures AllTended(ReportWriteStep(w, worker, accepted))
  {
    hide AllTended, CommitStep, RetryStep, Cached;
    if worker in w.updaters && w.updaters[worker].held.Some? {
      if Commits(w, worker, accepted) {
        CommitTended(w, worker);
      } else {
        RetryMoves(w, worker);
        WorkerTended(w, RetryStep(w, worker), worker);
      }
    }
  }

  lemma NextTended(w: World, m: Move)
    requires WellFormed(w) && AllTended(w) && Cached(w)
    ensures AllTended(Next(w, m))
  {
    hide AllTended, Cached, CreateStep, EditStep, ReconcileStep, ReportGetStep, ReportWriteStep, HubObserveStep;
    match m
    case Create(obj) => CreateTended(w, obj);
    case HubObserve(k) => HubObserveTended(w, k);
    case HubReconcile(worker, k, accepted) => ReconcileTended(w, worker, k, accepted);
    case ReportGet(worker) =>
      GetMoves(w, worker);
      if ReportGetStep(w, worker) != w { WorkerTended(w, ReportGetStep(w, worker), worker); }
    case ReportWrite(worker, accepted) => WriteTended(w, worker, accepted);
    case _ =>
      OtherMovesLeaveReports(w, m);
      hide Next;
      TendedCarries(w, Next(w, m));
  }

  /** What users' edits, syncers and regional hubs do is not seen by the controller at once. */
  lemma OtherMovesLeaveReports(w: World, m: Move)
    requires WellFormed(w)
    requires m.Edit? || m.Remove? || m.DownObserve? || m.DownStep? || m.RegionalReport? || m.UpObserve? || m.UpStep?
    ensures var t := Next(w, m);
            && t.hubCache == w.hubCache && t.updaters == w.updaters && t.fed == w.fed
            && t.hubDirty == w.hubDirty && t.missed == w.missed && t.policies.Keys <= w.policies.Keys
  {
    hide DownObserveStep, DownInternalStep, RegionalReportStep, UpObserveStep, UpInternalStep, EditsWithCare, WithStatus;
  }

  lemma {:induction false} RunTended(syncers: set<string>, moves: seq<Move>)
    requires "" !in syncers
    ensures AllTended(RunLoop(syncers, moves))
  {
    hide Next;
    if moves != [] {
      hide AllTended;
      var w := RunLoop(syncers, moves[..|moves| - 1]);
      RunTended(syncers, moves[..|moves| - 1]);
      assert Provenance.Reachable(syncers, w);
      LoopConvergence.AnyPolicy(syncers, w);
      NextTended(w, moves[|moves| - 1]);
    }
  }

  // ------------------------------------------------------------------ theorems

  lemma Reachable(syncers: set<string>, w: World)
    requires Provenance.Reachable(syncers, w)
    ensures WellFormed(w) && w.syncers == syncers && AllTended(w) && Cached(w)
  {
    hide Next, AllTended;
    var moves :| RunLoop(syncers, moves) == w;
    RunTended(syncers, moves);
    LoopConvergence.AnyPolicy(syncers, w);
  }

  /** The latest report of a hub is its entry in the stored summary, and the only one of its name. */
  lemma EntryIsStored(syncers: set<string>, w: World, k: Key, hub: string)
    requires Provenance.Reachable(syncers, w) && k in w.policies
    ensures StoredSummary(w, k).Some?
    ensures forall e | e in StoredSummary(w, k).value.summaries && e.name == hub :: Entry(w, k, hub) == Some(e)
    ensures Entry(w, k, hub).Some? ==> Entry(w, k, hub).value in StoredSummary(w, k).value.summaries && Entry(w, k, hub).value.name == hub
  {
    hide Provenance.Reachable, StoredSummary, Latest, FeedsTo, Reports;
    StoredSummaryIsRecomputed(syncers, w, k);
    var reports := Reports(FeedsTo(w, k));
    var hubs, entries := Hubs(reports), LatestOf(reports, Hubs(reports));
    if hub in hubs {
      var i :| 0 <= i < |hubs| && hubs[i] == hub;
      assert entries[i] == Latest(reports, hub);
    }
    forall e | e in entries && e.name == hub ensures Entry(w, k, hub) == Some(e) {
      var i :| 0 <= i < |entries| && entries[i] == e;
      assert e == Latest(reports, hubs[i]);
    }
  }

  /**
   No report is lost but by a failed attempt: in every reachable world, what a copy the controller
   has cached reports is queued again, underway, missed, or in the summary stored in its policy.
   */
  lemma ReportIsCurrent(syncers: set<string>, w: World, c: Key)
    requires Provenance.Reachable(syncers, w) && CachedFeed(w, c).Some? && CachedFeed(w, c).value.target in w.policies
    ensures var f := CachedFeed(w, c).value;
            || c in w.hubDirty || c in w.missed || Underway(w, f)
            || (StoredSummary(w, f.target).Some? && f.report in StoredSummary(w, f.target).value.summaries)
  {
    hide Provenance.Reachable, Entry, StoredSummary, HoldersOk, Cached;
    Reachable(syncers, w);
    CachedFeedSource(w, c);
    assert Tended(w, c);
    hide CachedFeed;
    var f := CachedFeed(w, c).value;
    EntryIsStored(syncers, w, f.target, f.report.name);
  }

  /**
   An attempt to report, exactly: when it ends, the report is the entry of its hub if and only if it
   was before, or it was written: accepted, under the version it was computed from.
   */
  lemma AttemptEnds(w: World, worker: nat, accepted: bool)
    requires WellFormed(w) && worker in w.updaters && w.updaters[worker].held.Some?
    ensures var t, f := Next(w, ReportWrite(worker, accepted)), w.updaters[worker].feed;
            && (Entry(t, f.target, f.report.name) == Some(f.report) <==>
                Commits(w, worker, accepted) || Entry(w, f.target, f.report.name) == Some(f.report))
            && t.missed == (if worker in t.updaters || Commits(w, worker, accepted) then w.missed else w.missed + {f.source})
  {
    hide Entry, CommitStep, NewStatus;
    if Commits(w, worker, accepted) {
      CommitEntry(w, worker, w.updaters[worker].feed.target, w.updaters[worker].feed.report.name);
    } else {
      SameEntry(w, RetryStep(w, worker));
    }
  }

  /** A worker that takes a copy starts afresh: what was missed before is no longer. */
  lemma TakenIsNotMissed(w: World, worker: nat, c: Key, accepted: bool)
    requires WellFormed(w) && Takes(w, worker, c)
    ensures var t := Next(w, HubReconcile(worker, c, accepted)); c !in t.missed && c !in t.hubDirty
  {
    hide Decide, CachedFeed, LabelStep, Takes;
    var taken := w.(hubDirty := w.hubDirty - {c}, missed := w.missed - {c});
    if c in w.hubCache { LabelFrame(taken, c, accepted); }
  }

  /** A conflict is not the end: the first four send the worker back to get the policy again, the fifth ends the attempt. */
  lemma ConflictIsRetried(w: World, worker: nat, accepted: bool)
    requires WellFormed(w) && worker in w.updaters && w.updaters[worker].held.Some?
    requires var up := w.updaters[worker];
             && up.feed.target in w.policies && w.policies[up.feed.target].version != up.held.value.version
             && NewStatus(up.held.value.obj, up.feed.report).Some?
    ensures var t, up := Next(w, ReportWrite(worker, accepted)), w.updaters[worker];
            && t.policies == w.policies
            && if up.attempt < 4 then worker in t.updaters && t.updaters[worker] == up.(held := None, attempt := up.attempt + 1)
               else worker !in t.updaters
  {
    hide NewStatus;
  }

  /** Policy k is not removed or created again, and the controller's informer does not see the copy. */
  predicate Leaves(m: Move, c: Key, k: Key) {
    m != HubObserve(c) && m != Remove(k) && !(m.Create? && KeyOf(POLICIES, m.obj) == k)
  }

  /** Nobody is to report from this copy. */
  ghost predicate Done(w: World, c: Key) {
    c !in w.hubDirty && !Held(w, c)
  }

  /** Such a move keeps the policy, and no entry of it changes but by a report. */
  lemma LeavesPolicy(w: World, m: Move, c: Key, k: Key)
    requires WellFormed(w) && Leaves(m, c, k) && k in w.policies
    ensures k in Next(w, m).policies
  {
    hide CreateStep, EditStep, DownObserveStep, DownInternalStep, RegionalReportStep, UpObserveStep, UpInternalStep, HubObserveStep;
    hide ReconcileStep, ReportGetStep, ReportWriteStep;
  }

  lemma ReconcileLeaves(w: World, worker: nat, j: Key, accepted: bool, c: Key)
    requires Done(w, c)
    ensures var t := ReconcileStep(w, worker, j, accepted); Done(t, c) && t.fed == w.fed
  {
    hide Decide, LabelStep;
    var taken := w.(hubDirty := w.hubDirty - {j}, missed := w.missed - {j});
    if j in w.hubCache { LabelFrame(taken, j, accepted); }
    if CachedFeed(w, j).Some? { CachedFeedSource(w, j); }
    hide CachedFeed;
  }

  lemma WriteLeaves(w: World, worker: nat, accepted: bool, c: Key, k: Key)
    requires HoldersOk(w) && Done(w, c) && k == c.(namespace := k.namespace)
    ensures var t := ReportWriteStep(w, worker, accepted); Done(t, c) && Entry(t, k, c.namespace) == Entry(w, k, c.namespace)
  {
    hide Entry, NewStatus;
    if worker in w.updaters && w.updaters[worker].held.Some? {
      if Commits(w, worker, accepted) {
        CommitEntry(w, worker, k, c.namespace);
        hide Commits;
        assert w.updaters[worker].feed.source != c;
        hide CommitStep;
      } else {
        RetryMoves(w, worker);
        SameEntry(w, RetryStep(w, worker));
        hide RetryStep;
      }
    }
  }

  lemma StepLeaves(w: World, m: Move, c: Key, k: Key)
    requires WellFormed(w) && HoldersOk(w) && Done(w, c) && Leaves(m, c, k) && k == c.(namespace := k.namespace)
    ensures var t := Next(w, m); Done(t, c) && Entry(t, k, c.namespace) == Entry(w, k, c.namespace)
  {
    hide Entry, HoldersOk, ReconcileStep, ReportWriteStep;
    match m
    case Create(obj) => CreateLeaves(w, obj, c, k);
    case HubObserve(j) => SameEntry(w, Next(w, m));
    case HubReconcile(worker, j, accepted) => ReconcileLeaves(w, worker, j, accepted, c); SameEntry(w, Next(w, m));
    case ReportGet(worker) => GetLeaves(w, worker, c); SameEntry(w, Next(w, m));
    case ReportWrite(worker, accepted) => WriteLeaves(w, worker, accepted, c, k);
    case _ => OtherMovesLeaveReports(w, m); SameEntry(w, Next(w, m));
  }

  lemma GetLeaves(w: World, worker: nat, c: Key)
    requires Done(w, c)
    ensures Done(ReportGetStep(w, worker), c)
  {
    GetMoves(w, worker);
    if ReportGetStep(w, worker) != w { assert WorkerMoves(w, ReportGetStep(w, worker), worker); }
    hide ReportGetStep;
  }

  lemma CreateLeaves(w: World, obj: Object, c: Key, k: Key)
    requires Done(w, c) && KeyOf(POLICIES, obj) != k
    ensures var t := CreateStep(w, obj); Done(t, c) && Entry(t, k, c.namespace) == Entry(w, k, c.namespace)
  {
    hide MayCreate, CreatesWithCare, WithStatus, Sources;
  }

  lemma {:induction false} LeavesRun(syncers: set<string>, w: World, moves: seq<Move>, c: Key, k: Key)
    requires Provenance.Reachable(syncers, w) && Done(w, c) && k in w.policies && k == c.(namespace := k.namespace)
    requires forall m | m in moves :: Leaves(m, c, k)
    ensures WellFormed(w)
    ensures var t := RunMoves(w, moves);
            Provenance.Reachable(syncers, t) && Done(t, c) && k in t.policies && Entry(t, k, c.namespace) == Entry(w, k, c.namespace)
  {
    hide Provenance.Reachable, Next, Entry, Done, Leaves, AllTended;
    Reachable(syncers, w);
    if moves != [] {
      var most, m := moves[..|moves| - 1], moves[|moves| - 1];
      assert m in moves && forall n | n in most :: n in moves;
      LeavesRun(syncers, w, most, c, k);
      var t := RunMoves(w, most);
      Reachable(syncers, t);
      TendedHolders(t);
      StepLeaves(t, m, c, k);
      LeavesPolicy(t, m, c, k);
      Provenance.ReachNext(syncers, t, m);
    }
  }

  lemma TendedHolders(w: World)
    requires AllTended(w)
    ensures HoldersOk(w)
  {
  }

  /**
   A missed report stays missed: once nobody is to report from a copy, its hub's entry in the policy
   stays as it is, whatever moves follow, until the controller's informer sees the copy again or the
   policy is removed.
   */
  lemma MissedStays(syncers: set<string>, w: World, moves: seq<Move>, c: Key, k: Key)
    requires Provenance.Reachable(syncers, w) && Done(w, c) && k in w.policies && k == c.(namespace := k.namespace)
    requires forall m | m in moves :: Leaves(m, c, k)
    ensures WellFormed(w)
    ensures var t := RunMoves(w, moves);
            && k in t.policies && StoredSummary(w, k).Some? && StoredSummary(t, k).Some?
            && forall e: ClusterSummary | e.name == c.namespace ::
                 e in StoredSummary(t, k).value.summaries <==> e in StoredSummary(w, k).value.summaries
  {
    hide Provenance.Reachable, Next, Entry, Done, Leaves, StoredSummary;
    LeavesRun(syncers, w, moves, c, k);
    EntryIsStored(syncers, w, k, c.namespace);
    EntryIsStored(syncers, RunMoves(w, moves), k, c.namespace);
  }

  /** A free worker takes a copy the informer has just seen, and nothing comes between. */
  lemma TakesCopy(w: World, worker: nat, c: Key, f: Feed)
    requires WellFormed(w) && worker !in w.updaters && !Held(w, c) && GlobalAt(w, c).Some?
    requires CachedFeed(w.(hubCache := w.hubCache[c := GlobalAt(w, c).value]), c) == Some(f)
    ensures var t := Next(Next(w, HubObserve(c)), HubReconcile(worker, c, true));
            t.policies == w.policies && t.clock == w.clock && t.fed == w.fed && worker in t.updaters && t.updaters[worker] == Updater(f, None, 0)
  {
    hide GlobalAt, LabelStep;
    var seen := Next(w, HubObserve(c));
    SameCache(w.(hubCache := w.hubCache[c := GlobalAt(w, c).value]), seen, c);
    NotToLabel(seen, c);
    hide Decide, CachedFeed;
  }

  lemma NotToLabel(w: World, c: Key)
    requires CachedFeed(w, c).Some?
    ensures c in w.hubCache && Decide(w.hubCache[c].obj) != NeedsLabel
  {
  }

  /** What ends it: once the informer has seen the copy, an undisturbed attempt puts its report into the summary. */
  lemma SeenAgainIsReported(syncers: set<string>, w: World, worker: nat, c: Key, f: Feed)
    requires Provenance.Reachable(syncers, w) && worker !in w.updaters && !Held(w, c) && GlobalAt(w, c).Some?
    requires CachedFeed(w.(hubCache := w.hubCache[c := GlobalAt(w, c).value]), c) == Some(f) && f.target in w.policies
    ensures WellFormed(w)
    ensures var t := Next(Next(Next(Next(w, HubObserve(c)), HubReconcile(worker, c, true)), ReportGet(worker)), ReportWrite(worker, true));
            f.target in t.policies && StoredSummary(t, f.target).Some? && f.report in StoredSummary(t, f.target).value.summaries
  {
    hide Provenance.Reachable, Next, Held, GlobalAt, CachedFeed, StoredSummary, Entry, NewStatus;
    LoopConvergence.AnyPolicy(syncers, w);
    TakesCopy(w, worker, c, f);
    StoredSummaryIsRecomputed(syncers, w, f.target);
    ReadableIsReconciled(w, f.target, f.report);
    var w1 := Next(w, HubObserve(c));
    var w2 := Next(w1, HubReconcile(worker, c, true));
    var w3 := Next(w2, ReportGet(worker));
    GetsPolicy(w2, worker);
    var t := Next(w3, ReportWrite(worker, true));
    AttemptEnds(w3, worker, true);
    WriteKeepsPolicy(w3, worker, f.target);
    Provenance.ReachNext(syncers, w, HubObserve(c));
    Provenance.ReachNext(syncers, w1, HubReconcile(worker, c, true));
    Provenance.ReachNext(syncers, w2, ReportGet(worker));
    Provenance.ReachNext(syncers, w3, ReportWrite(worker, true));
    EntryIsStored(syncers, t, f.target, f.report.name);
  }

  lemma GetsPolicy(w: World, worker: nat)
    requires WellFormed(w) && worker in w.updaters && w.updaters[worker].held.None? && w.updaters[worker].feed.target in w.policies
    ensures var t := Next(w, ReportGet(worker));
            && t.policies == w.policies && t.clock == w.clock && t.fed == w.fed && worker in t.updaters
            && t.updaters[worker] == w.updaters[worker].(held := Some(w.policies[w.updaters[worker].feed.target]))
  {
  }

  lemma WriteKeepsPolicy(w: World, worker: nat, k: Key)
    requires WellFormed(w) && k in w.policies
    ensures k in Next(w, ReportWrite(worker, true)).policies
  {
    hide ReportWriteStep;
  }

  /**
   From the regional hub into the summary: when a labelled policy is at rest with a syncer, and the
   controller has seen its copy as it is and has nothing more to do about it, then the summary stored
   in the policy has one entry of the syncer's name, and it holds the numbers of compliant and of
   non-compliant clusters that the policy's status on the regional hub lists, modulo 2^32. This is so unless the last report was missed, an apply error of the policy was
   swallowed, or another policy of the name was applied there or spoiled.
   */
  lemma SummaryFollowsRegion(syncers: set<string>, w: World, s: string, k: Key, items: seq<Value>)
    requires Provenance.Reachable(syncers, w) && s in syncers && LoopConvergence.AtRest(w, s, k)
    requires NameIsOwn(w.downs[s].applied, k) && k !in w.ups[s].dropped && k.name !in w.spoiled
    requires var copy := k.(namespace := s);
             && copy in w.hubCache && Lookup(w.ups[s].target, copy) == Some(w.hubCache[copy]) && Done(w, copy) && copy !in w.missed
    requires ListsClusters(LoopConvergence.RegionalStatus(w, s, k), items) && forall i | 0 <= i < |items| :: ItemFits(items[i])
    ensures StoredSummary(w, k).Some?
    ensures var entries := StoredSummary(w, k).value.summaries;
            && (exists i :: 0 <= i < |entries| && entries[i].name == s)
            && forall i | 0 <= i < |entries| && entries[i].name == s ::
                 && entries[i].compliant == Occurrences(items, "Compliant") % 0x1_0000_0000
                 && entries[i].nonCompliant == Occurrences(items, "NonCompliant") % 0x1_0000_0000
  {
    hide Provenance.Reachable, LoopConvergence.AtRest, NameIsOwn, StoredSummary, Readable, StatesOf, Next, ReportOf, Occurrences, ItemFits, ListsClusters, Entry;
    RestIsAPolicy(w, s, k);
    var status := LoopConvergence.RegionalStatus(w, s, k);
    ReportCounts(status, s);
    var states := StatesOf(status).value;
    RegionIsStored(syncers, w, s, k, states);
    EntryIsStored(syncers, w, k, s);
    var i :| 0 <= i < |StoredSummary(w, k).value.summaries| && StoredSummary(w, k).value.summaries[i] == ReportOf(s, states);
  }

  /** The same with the states as the controller reads them. */
  lemma RegionIsStored(syncers: set<string>, w: World, s: string, k: Key, states: seq<string>)
    requires Provenance.Reachable(syncers, w) && s in syncers && LoopConvergence.AtRest(w, s, k)
    requires NameIsOwn(w.downs[s].applied, k) && k !in w.ups[s].dropped && k.name !in w.spoiled
    requires var copy := k.(namespace := s);
             && copy in w.hubCache && Lookup(w.ups[s].target, copy) == Some(w.hubCache[copy]) && Done(w, copy) && copy !in w.missed
    requires var status := LoopConvergence.RegionalStatus(w, s, k); Readable(status) && StatesOf(status) == Some(states)
    ensures k in w.policies && StoredSummary(w, k).Some? && ReportOf(s, states) in StoredSummary(w, k).value.summaries
  {
    hide Provenance.Reachable, LoopConvergence.AtRest, NameIsOwn, StoredSummary, Readable, StatesOf, Next, ReportOf;
    var copy := k.(namespace := s);
    RestIsAPolicy(w, s, k);
    LoopConvergence.RoundTheLoop(syncers, w, s, k);
    LoopConvergence.AnyPolicy(syncers, w);
    var o := w.hubCache[copy].obj;
    CopyReports(o, s, k.namespace, states);
    assert CachedFeed(w, copy).value == Feed(k, ReportOf(s, states), copy, StatusOf(o));
    ReportIsCurrent(syncers, w, copy);
    hide CachedFeed;
    assert !Underway(w, CachedFeed(w, copy).value);
  }

  lemma RestIsAPolicy(w: World, s: string, k: Key)
    requires LoopConvergence.AtRest(w, s, k)
    ensures k in w.policies && s in w.regional
  {
  }
}
