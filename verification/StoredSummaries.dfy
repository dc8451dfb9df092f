/**
 The compliance summaries that the closed loop stores. Workers of the policy controller race to
 write their reports, users edit, remove and re-create policies in between, and yet the summary in
 each policy's status is the one recomputed from the reports written to it since it was created,
 and every entry in it comes from a regional hub the policy was applied to.
 */
module StoredSummaries {
  import opened Options
  import opened KubeObjects
  import opened Compliance
  import opened SummaryCodec
  import opened SyncMachine
  import opened PolicyController
  import opened ClosedLoop
  import opened Provenance

  function Reports(feeds: seq<Feed>): seq<ClusterSummary> {
    seq(|feeds|, i requires 0 <= i < |feeds| => feeds[i].report)
  }

  /** The summary in the status of a policy; None if it cannot be read. */
  function StoredSummary(w: World, k: Key): Option<Summary>
    requires k in w.policies
  {
    match StatusFields(w.policies[k].obj)
    case None => None
    case Some(status) => SummaryOf(status)
  }

  ghost predicate SummaryOk(w: World, k: Key)
    requires k in w.policies
  {
    w.policies[k].version < w.clock && StoredSummary(w, k) == Some(After(Reports(FeedsTo(w, k))))
  }

  /** What a worker got of a policy is the policy still, if the version is. */
  ghost predicate HeldOk(w: World, up: Updater) {
    up.held.Some? ==>
      && up.held.value.version < w.clock
      && (up.feed.target in w.policies && w.policies[up.feed.target].version == up.held.value.version ==> w.policies[up.feed.target] == up.held.value)
  }

  ghost predicate FedOk(fed: map<Key, seq<Feed>>) {
    forall k, i | k in fed && 0 <= i < |fed[k]| :: fed[k][i].target == k
  }

  ghost predicate SummariesOk(w: World) {
    && (forall k | k in w.policies :: SummaryOk(w, k))
    && (forall u | u in w.updaters :: HeldOk(w, w.updaters[u]))
    && FedOk(w.fed)
  }

  /** Storing a policy under a new version, with a summary that fits its reports, disturbs nothing. */
  lemma StoreOk(w: World, t: World, k: Key)
    requires SummariesOk(w) && t.clock == w.clock + 1 && k in t.policies && t.policies == w.policies[k := t.policies[k]]
    requires t.policies[k].version == w.clock && StoredSummary(t, k) == Some(After(Reports(FeedsTo(t, k))))
    requires forall j | j != k && j in w.policies :: FeedsTo(t, j) == FeedsTo(w, j)
    requires FedOk(t.fed) && forall u | u in t.updaters :: u in w.updaters && t.updaters[u] == w.updaters[u]
    ensures SummariesOk(t)
  {
    hide After, Reports, SummaryOf;
    forall j | j in t.policies ensures SummaryOk(t, j) { if j != k { assert SummaryOk(w, j); } }
    forall u | u in t.updaters ensures HeldOk(t, t.updaters[u]) { assert HeldOk(w, w.updaters[u]); }
  }

  lemma StatusIsStored(o: Object, status: Value)
    ensures StatusOf(WithStatus(o, status)) == status
  {
  }

  lemma CreateSummaries(w: World, obj: Object)
    requires SummariesOk(w)
    ensures SummariesOk(CreateStep(w, obj))
  {
    hide MayCreate, SummaryOk, HeldOk, WithStatus, Sources, CreatesWithCare;
    if MayCreate(w, obj) {
      var t, k := CreateStep(w, obj), KeyOf(POLICIES, obj);
      StatusIsStored(obj, Null);
      assert StatusFields(t.policies[k].obj) == Some(None);
      assert SummaryField(None) == Null;
      assert Reports(FeedsTo(t, k)) == [];
      StoreOk(w, t, k);
    }
  }

  /** A policy stored again with the status it had. */
  lemma RestoreOk(w: World, t: World, k: Key, obj: Object)
    requires SummariesOk(w) && k in w.policies && t.updaters == w.updaters && t.fed == w.fed
    requires t.policies == w.policies[k := Stored(WithStatus(obj, StatusOf(w.policies[k].obj)), w.clock)] && t.clock == w.clock + 1
    ensures SummariesOk(t)
  {
    hide HeldOk, WithStatus, SummaryOf, After, Reports;
    StatusIsStored(obj, StatusOf(w.policies[k].obj));
    assert SummaryOk(w, k);
    StoreOk(w, t, k);
  }

  lemma LabelSummaries(w: World, k: Key, accepted: bool)
    requires WellFormed(w) && SummariesOk(w) && k in w.hubCache
    ensures SummariesOk(LabelStep(w, k, accepted))
  {
    hide SummaryOk, HeldOk, WithStatus, WithOrigin, FedOk, TouchStep;
    var t := LabelStep(w, k, accepted);
    if t.clock == w.clock {
      UnchangedOk(w, t);
    } else {
      RestoreOk(w, t, k, WithOrigin(w.hubCache[k].obj));
    }
  }

  /** Nothing that matters to the summaries changed. */
  lemma UnchangedOk(w: World, t: World)
    requires SummariesOk(w) && t.policies == w.policies && t.clock == w.clock && t.fed == w.fed
    requires forall u | u in t.updaters :: HeldOk(w, t.updaters[u])
    ensures SummariesOk(t)
  {
    hide SummaryOf, After, Reports, FedOk;
    forall k | k in t.policies ensures SummaryOk(t, k) { assert SummaryOk(w, k); }
    forall u | u in t.updaters ensures HeldOk(t, t.updaters[u]) { assert HeldOk(w, t.updaters[u]); }
  }

  lemma RemoveSummaries(w: World, k: Key)
    requires WellFormed(w) && SummariesOk(w)
    ensures SummariesOk(Next(w, Remove(k)))
  {
    hide SummaryOf, After, Reports, FedOk;
    var t := Next(w, Remove(k));
    forall j | j in t.policies ensures SummaryOk(t, j) { assert SummaryOk(w, j); }
    forall u | u in t.updaters ensures HeldOk(t, t.updaters[u]) { assert HeldOk(w, t.updaters[u]); }
  }

  lemma GetSummaries(w: World, worker: nat)
    requires SummariesOk(w)
    ensures SummariesOk(ReportGetStep(w, worker))
  {
    hide StoredSummary, After, Reports, FeedsTo, FedOk;
    var t := ReportGetStep(w, worker);
    forall u | u in t.updaters ensures HeldOk(w, t.updaters[u]) {
      if u in w.updaters { assert HeldOk(w, w.updaters[u]); }
      if t.updaters[u].feed.target in w.policies { assert SummaryOk(w, t.updaters[u].feed.target); }
    }
    UnchangedOk(w, t);
  }

  lemma ReportsAppend(feeds: seq<Feed>, f: Feed)
    ensures After(Reports(feeds + [f])) == Record(After(Reports(feeds)), f.report)
  {
    var reports := Reports(feeds + [f]);
    assert reports[..|reports| - 1] == Reports(feeds);
  }

  /** A write under the current version records the report in the stored summary. */
  lemma CommitSummaries(w: World, worker: nat)
    requires SummariesOk(w) && Commits(w, worker, true)
    ensures SummariesOk(CommitStep(w, worker))
  {
    hide Reconciled, SummaryOf, After, WithStatus, Record, Reports;
    var t := CommitStep(w, worker);
    var f, k := w.updaters[worker].feed, w.updaters[worker].feed.target;
    assert HeldOk(w, w.updaters[worker]) && SummaryOk(w, k);
    var before := StatusFields(w.policies[k].obj).value;
    var after := Reconciled(before, f.report).value;
    ReconciledStatus(before, f.report);
    StatusIsStored(w.policies[k].obj, Dict(FieldsOf(after)));
    ReconciledIsSome(before, f.report);
    assert StatusFields(t.policies[k].obj) == Some(after);
    ReportsAppend(FeedsTo(w, k), f);
    StoreOk(w, t, k);
  }

  lemma ReconciledIsSome(status: Status, r: ClusterSummary)
    ensures Reconciled(status, r).Some? ==> Reconciled(status, r).value.Some?
  {
  }

  lemma WriteSummaries(w: World, worker: nat, accepted: bool)
    requires SummariesOk(w)
    ensures SummariesOk(ReportWriteStep(w, worker, accepted))
  {
    hide SummaryOk, FedOk, WithStatus, CommitStep, NewStatus;
    if Commits(w, worker, accepted) {
      CommitSummaries(w, worker);
    } else {
      var t := ReportWriteStep(w, worker, accepted);
      forall u | u in t.updaters ensures HeldOk(w, t.updaters[u]) {
        assert HeldOk(w, w.updaters[u]);
      }
      hide Commits;
      UnchangedOk(w, t);
    }
  }

  lemma ReconcileSummaries(w: World, worker: nat, k: Key, accepted: bool)
    requires WellFormed(w) && SummariesOk(w)
    ensures SummariesOk(ReconcileStep(w, worker, k, accepted))
  {
    hide LabelStep, SummaryOk, FedOk, Decide, CachedFeed, Takes;
    var taken := w.(hubDirty := w.hubDirty - {k}, missed := w.missed - {k});
    UnchangedOk(w, taken);
    if Takes(w, worker, k) && k in w.hubCache && Decide(w.hubCache[k].obj) == NeedsLabel {
      LabelSummaries(taken, k, accepted);
    } else {
      UnchangedOk(w, ReconcileStep(w, worker, k, accepted));
    }
  }

  /** What syncers, regional hubs and informers do is not seen in the policies. */
  lemma OtherMovesLeavePolicies(w: World, m: Move)
    requires WellFormed(w)
    requires m.DownObserve? || m.DownStep? || m.RegionalReport? || m.UpObserve? || m.UpStep? || m.HubObserve?
    ensures var t := Next(w, m); t.policies == w.policies && t.clock == w.clock && t.fed == w.fed && t.updaters == w.updaters
  {
    hide DownObserveStep, DownInternalStep, RegionalReportStep, UpObserveStep, UpInternalStep, HubObserveStep;
  }

  lemma NextSummaries(w: World, m: Move)
    requires WellFormed(w) && SummariesOk(w)
    ensures SummariesOk(Next(w, m))
  {
    hide SummaryOk, HeldOk, FedOk, ReconcileStep, ReportGetStep, ReportWriteStep, CreateStep, EditStep;
    match m
    case Create(obj) => CreateSummaries(w, obj);
    case Edit(obj) => EditSummaries(w, obj);
    case Remove(k) => RemoveSummaries(w, k);
    case HubReconcile(worker, k, accepted) => ReconcileSummaries(w, worker, k, accepted);
    case ReportGet(worker) => GetSummaries(w, worker);
    case ReportWrite(worker, accepted) => WriteSummaries(w, worker, accepted);
    case _ =>
      hide Next;
      OtherMovesLeavePolicies(w, m);
      UnchangedOk(w, Next(w, m));
  }

  lemma EditSummaries(w: World, obj: Object)
    requires SummariesOk(w)
    ensures SummariesOk(EditStep(w, obj))
  {
    hide SummariesOk, WithStatus, EditsWithCare;
    if MayEdit(w, obj) { RestoreOk(w, EditStep(w, obj), KeyOf(POLICIES, obj), obj); }
  }

  lemma {:induction false} RunSummaries(syncers: set<string>, moves: seq<Move>)
    requires "" !in syncers
    ensures SummariesOk(RunLoop(syncers, moves))
  {
    hide Next;
    if moves != [] {
      hide SummariesOk;
      RunSummaries(syncers, moves[..|moves| - 1]);
      NextSummaries(RunLoop(syncers, moves[..|moves| - 1]), moves[|moves| - 1]);
    }
  }

  // ------------------------------------------------------------------ theorems

  /**
   In every reachable world the summary stored in a policy's status is the one computed afresh
   from all reports written to the policy since it was created, in the order they were written.
   */
  lemma StoredSummaryIsRecomputed(syncers: set<string>, w: World, k: Key)
    requires Provenance.Reachable(syncers, w) && k in w.policies
    ensures StoredSummary(w, k) == Some(Recomputed(Reports(FeedsTo(w, k))))
  {
    hide Recomputed, StoredSummary, Provenance.Reachable, HeldOk, FedOk;
    SummariesAreOk(syncers, w);
    assert SummaryOk(w, k);
    IncrementalIsRecomputed(Reports(FeedsTo(w, k)));
  }

  /**
   Provenance of summaries: every entry in the summary stored in a policy is named after a syncer
   that applied this very policy below, and holds the counts of a status that syncer's copy of the
   policy had; if that syncer applied no other policy of the name, the policy itself had that
   status on that hub.
   */
  lemma SummaryEntriesAreTheOrigins(syncers: set<string>, w: World, k: Key, i: nat)
    requires Provenance.Reachable(syncers, w) && k in w.policies && k.name !in w.spoiled && StoredSummary(w, k).Some? && i < |StoredSummary(w, k).value.summaries|
    ensures var entry := StoredSummary(w, k).value.summaries[i];
            && entry.name in syncers && entry.name in w.downs && k in w.downs[entry.name].applied
            && exists f :: f in FeedsTo(w, k) && f.source == k.(namespace := entry.name) && Counts(f.status, entry)
                 && (NameIsOwn(w.downs[entry.name].applied, k) ==> (entry.name, k, f.status) in w.reports)
  {
    hide LoopOk, Counts, StoredSummary, InPlay, FeedsTo, NameIsOwn, Provenance.Reachable;
    ReachableOk(syncers, w, k.name);
    SummariesAreOk(syncers, w);
    var f := EntryIsFed(w, k, i);
    FeedIsOk(w, f);
  }

  lemma SummariesAreOk(syncers: set<string>, w: World)
    requires Provenance.Reachable(syncers, w)
    ensures SummariesOk(w)
  {
    hide Next, SummariesOk;
    var moves :| RunLoop(syncers, moves) == w;
    RunSummaries(syncers, moves);
  }

  /** A summary that can be read can be reported to. */
  lemma ReadableIsReconciled(w: World, k: Key, r: ClusterSummary)
    requires k in w.policies && StoredSummary(w, k).Some?
    ensures NewStatus(w.policies[k].obj, r).Some?
  {
    ReconciledStatus(StatusFields(w.policies[k].obj).value, r);
  }

  /** Every entry of a stored summary is one of the reports written. */
  lemma EntryIsFed(w: World, k: Key, i: nat) returns (f: Feed)
    requires SummariesOk(w) && k in w.policies && StoredSummary(w, k).Some? && i < |StoredSummary(w, k).value.summaries|
    ensures f in FeedsTo(w, k) && f.report == StoredSummary(w, k).value.summaries[i] && f.target == k && InPlay(w.updaters, w.fed, f)
  {
    hide After, StoredSummary, HeldOk;
    assert SummaryOk(w, k);
    var feeds := FeedsTo(w, k);
    EntryWasReported(Reports(feeds), i);
    var j :| 0 <= j < |feeds| && Reports(feeds)[j] == StoredSummary(w, k).value.summaries[i];
    f := feeds[j];
    assert k in w.fed && f in w.fed[k];
  }

  /** The entry is what a copy with this status reports. */
  predicate Counts(status: Value, entry: ClusterSummary) {
    Readable(status) && StatesOf(status).Some? && entry == ReportOf(entry.name, StatesOf(status).value)
  }

  lemma FeedIsOk(w: World, f: Feed)
    requires LoopOk(w, f.target.name) && InPlay(w.updaters, w.fed, f)
    ensures var s := f.report.name;
            && s in w.syncers && s in w.downs && f.source == f.target.(namespace := s) && f.target in w.downs[s].applied
            && Counts(f.status, f.report)
            && (NameIsOwn(w.downs[s].applied, f.target) ==> (s, f.target, f.status) in w.reports)
  {
    hide SyncerOk, HubOk, PoliciesOk, InPlay;
    assert FeedOk(w, f);
  }

  lemma EntryWasReported(reports: seq<ClusterSummary>, i: nat)
    requires i < |After(reports).summaries|
    ensures exists j :: 0 <= j < |reports| && reports[j] == After(reports).summaries[i]
  {
  }
}
