/**
 Convergence around the whole loop. Each syncer in the closed loop goes only through states it
 could reach on its own, so all that is proved of a single syncer holds of every one of them; and
 when a policy is at rest, its configuration is below and its status is back on top.
 */
module LoopConvergence {
  import opened Options
  import opened KubeObjects
  import opened SyncMachine
  import opened SyncSoundness
  import opened SyncConvergence
  import opened PolicyController
  import opened ClosedLoop
  import Provenance

  ghost predicate EachReachable(w: World) {
    WellFormed(w) && forall s | s in w.syncers :: SyncMachine.Reachable(Down, s, w.downs[s]) && SyncMachine.Reachable(Up, s, w.ups[s])
  }

  /** From d to t, one syncer took at most one step. */
  ghost predicate Steps(d: State, t: State) {
    t == d || exists a :: t == Step(d, a)
  }

  lemma StepSteps(d: State, a: Action)
    ensures Steps(d, Step(d, a))
  {
  }

  /** Labelling touches at most the copy it labels. */
  lemma LabelSteps(w: World, k: Key, accepted: bool, s: string)
    requires WellFormed(w) && s in w.syncers && k in w.hubCache
    ensures var t := LabelStep(w, k, accepted); t.downs == w.downs && s in t.ups && Steps(w.ups[s], t.ups[s])
  {
    hide TouchStep;
    if k.namespace in w.ups {
      var labels := LabelsOf(WithOrigin(w.hubCache[k].obj));
      TouchIsAStep(w.ups[k.namespace], k, labels);
      StepSteps(w.ups[k.namespace], Touch(k, labels));
    }
  }

  lemma ReconcileSteps(w: World, worker: nat, k: Key, accepted: bool, s: string)
    requires WellFormed(w) && s in w.syncers
    ensures var t := ReconcileStep(w, worker, k, accepted); t.downs == w.downs && s in t.ups && Steps(w.ups[s], t.ups[s])
  {
    hide Decide, LabelStep, CachedFeed, Takes;
    if k in w.hubCache { LabelSteps(w.(hubDirty := w.hubDirty - {k}, missed := w.missed - {k}), k, accepted, s); }
  }

  lemma TouchIsAStep(u: State, k: Key, labels: map<string, string>)
    ensures TouchStep(u, k, labels) == Step(u, Touch(k, labels))
  {
  }

  lemma DownMoveSteps(w: World, m: Move, s: string)
    requires WellFormed(w) && s in w.syncers && (m.DownObserve? || m.DownStep?)
    ensures var t := Next(w, m); Steps(w.downs[s], t.downs[s]) && t.ups == w.ups
  {
    hide Step, Steps, GlobalAt, Internal, Observation;
    Unmoved(w.downs[s]);
    if m.DownStep? {
      StepSteps(w.downs[s], m.action);
    } else {
      var seen := GlobalAt(w, m.key);
      StepSteps(w.downs[s], Observation(m.key, if seen.Some? then Some(seen.value.obj) else None));
    }
  }

  lemma UpMoveSteps(w: World, m: Move, s: string)
    requires WellFormed(w) && s in w.syncers && (m.UpObserve? || m.UpStep?)
    ensures var t := Next(w, m); Steps(w.ups[s], t.ups[s]) && t.downs == w.downs
  {
    hide Step, Steps, RegionalAt, Internal, Observation;
    Unmoved(w.ups[s]);
    if m.UpStep? {
      StepSteps(w.ups[s], m.action);
    } else {
      StepSteps(w.ups[s], Observation(m.key, RegionalAt(w, s, m.key)));
    }
  }

  lemma OtherMovesStep(w: World, m: Move)
    requires WellFormed(w) && (m.Create? || m.Edit? || m.Remove? || m.RegionalReport? || m.HubObserve? || m.ReportGet? || m.ReportWrite?)
    ensures var t := Next(w, m); t.downs == w.downs && t.ups == w.ups
  {
    hide CreateStep, EditStep, RegionalReportStep, HubObserveStep, ReportGetStep, ReportWriteStep;
  }

  /** A move is at most one step of one syncer. */
  lemma MoveIsAStep(w: World, m: Move, s: string)
    requires WellFormed(w) && s in w.syncers
    ensures var t := Next(w, m); Steps(w.downs[s], t.downs[s]) && Steps(w.ups[s], t.ups[s])
  {
    Unmoved(w.downs[s]);
    Unmoved(w.ups[s]);
    hide Steps;
    if m.HubReconcile? {
      ReconcileSteps(w, m.worker, m.key, m.accepted, s);
      assert Next(w, m) == ReconcileStep(w, m.worker, m.key, m.accepted);
    } else {
      hide Next;
      if m.DownObserve? || m.DownStep? {
        DownMoveSteps(w, m, s);
      } else if m.UpObserve? || m.UpStep? {
        UpMoveSteps(w, m, s);
      } else {
        OtherMovesStep(w, m);
      }
    }
  }

  lemma Unmoved(d: State)
    ensures Steps(d, d)
  {
  }

  lemma MoveReaches(w: World, m: Move)
    requires EachReachable(w)
    ensures EachReachable(Next(w, m))
  {
    hide SyncMachine.Reachable, Step, Next;
    var t := Next(w, m);
    forall s | s in w.syncers ensures SyncMachine.Reachable(Down, s, t.downs[s]) && SyncMachine.Reachable(Up, s, t.ups[s]) {
      MoveIsAStep(w, m, s);
      if t.downs[s] != w.downs[s] {
        var a :| t.downs[s] == Step(w.downs[s], a);
        ReachStep(Down, s, w.downs[s], a);
      }
      if t.ups[s] != w.ups[s] {
        var a :| t.ups[s] == Step(w.ups[s], a);
        ReachStep(Up, s, w.ups[s], a);
      }
    }
  }

  lemma {:induction false} RunReaches(syncers: set<string>, moves: seq<Move>)
    requires "" !in syncers
    ensures EachReachable(RunLoop(syncers, moves))
  {
    hide SyncMachine.Reachable, Next;
    if moves == [] {
      forall s | s in syncers ensures SyncMachine.Reachable(Down, s, Init(Down, s)) && SyncMachine.Reachable(Up, s, Init(Up, s)) {
        ReachInit(Down, s);
        ReachInit(Up, s);
      }
    } else {
      RunReaches(syncers, moves[..|moves| - 1]);
      MoveReaches(RunLoop(syncers, moves[..|moves| - 1]), moves[|moves| - 1]);
    }
  }

  /** Whatever happens around the loop, each syncer is in a state it can reach on its own. */
  lemma SyncersStayReachable(syncers: set<string>, w: World, s: string)
    requires Provenance.Reachable(syncers, w) && s in syncers
    ensures s in w.downs && s in w.ups && SyncMachine.Reachable(Down, s, w.downs[s]) && SyncMachine.Reachable(Up, s, w.ups[s])
  {
    hide SyncMachine.Reachable, Next;
    var moves :| RunLoop(syncers, moves) == w;
    RunReaches(syncers, moves);
  }

  lemma {:induction false} FreshName(names: set<string>) returns (n: string)
    ensures forall other | other in names :: |other| < |n|
  {
    n := "a";
    if names != {} {
      var other :| other in names;
      var rest := names - {other};
      assert forall x | x in names :: x == other || x in rest;
      var m := FreshName(rest);
      n := if |m| > |other| then m else other + "a";
    }
  }

  /** What holds of all names, spoiled or not: policies are users', and the controller caches objects under their keys. */
  lemma AnyPolicy(syncers: set<string>, w: World)
    requires Provenance.Reachable(syncers, w)
    ensures WellFormed(w) && w.syncers == syncers
    ensures forall k | k in w.policies :: UserKey(syncers, k) && KeyOf(k.resource, w.policies[k].obj) == k
    ensures forall k | k in w.hubCache :: KeyOf(k.resource, w.hubCache[k].obj) == k
  {
    hide Provenance.Reachable, Provenance.SyncerOk, Provenance.FeedsOk, Provenance.HubOk;
    var name := FreshName(w.spoiled);
    assert name !in w.spoiled;
    Provenance.ReachableOk(syncers, w, name);
  }

  /** And what is on a regional hub is there under its key, and was applied if a status syncer has seen it. */
  lemma AnySyncer(syncers: set<string>, w: World, s: string)
    requires Provenance.Reachable(syncers, w) && s in syncers
    ensures s in w.downs && s in w.ups && s in w.regional && forall k | k in w.downs[s].target :: KeyOf(k.resource, w.downs[s].target[k].obj) == k
    ensures WellFormed(w) && w.syncers == syncers && w.ups[s].dir == Up && w.ups[s].syncer == s && w.ups[s].seen <= w.downs[s].applied
  {
    hide Provenance.Reachable, Provenance.SyncerOk, Provenance.FeedsOk, Provenance.HubOk, Provenance.PoliciesOk;
    var name := FreshName(w.spoiled);
    assert name !in w.spoiled;
    Provenance.ReachableOk(syncers, w, name);
    SyncerShape(w, name, s);
  }

  lemma SyncerShape(w: World, name: string, s: string)
    requires s in w.downs && s in w.ups && s in w.regional && Provenance.SyncerOk(w, name, s)
    ensures forall k | k in w.downs[s].target :: KeyOf(k.resource, w.downs[s].target[k].obj) == k
    ensures w.ups[s].dir == Up && w.ups[s].syncer == s && w.ups[s].seen <= w.downs[s].applied
  {
    hide Busy, TargetSound, UpTargetClean, UpSnapshotsOk, SyncSoundness.Sound, Provenance.Coupled;
  }

  /** A regional hub has statuses of the policies it has, and of no others: a status goes with its policy. */
  ghost predicate StatusesKept(w: World)
    requires WellFormed(w)
  {
    forall s | s in w.syncers :: w.regional[s].Keys <= w.downs[s].target.Keys
  }

  lemma DownStepTarget(w: World, s: string, a: Action)
    requires WellFormed(w) && s in w.syncers && StatusesKept(w)
    ensures var t := SetDown(w, s, Step(w.downs[s], a)); WellFormed(t) && StatusesKept(t)
  {
    hide Step;
  }

  lemma ReportKeepsStatuses(w: World, s: string, k: Key, status: Value)
    requires WellFormed(w) && StatusesKept(w)
    ensures var t := RegionalReportStep(w, s, k, status); WellFormed(t) && StatusesKept(t)
  {
  }

  lemma SameStatuses(w: World, t: World)
    requires WellFormed(w) && WellFormed(t) && StatusesKept(w) && t.syncers == w.syncers && t.downs == w.downs && t.regional == w.regional
    ensures StatusesKept(t)
  {
  }

  lemma NextKeepsStatuses(w: World, m: Move)
    requires WellFormed(w) && StatusesKept(w)
    ensures StatusesKept(Next(w, m))
  {
    hide Step, Internal, GlobalAt, Observation, SetDown, StatusesKept, RegionalReportStep;
    hide CreateStep, EditStep, ReconcileStep, ReportGetStep, ReportWriteStep, HubObserveStep, UpObserveStep, UpInternalStep;
    match m
    case DownObserve(s, k) =>
      var seen := GlobalAt(w, k);
      if s in w.syncers { DownStepTarget(w, s, Observation(k, if seen.Some? then Some(seen.value.obj) else None)); }
    case DownStep(s, a) => if s in w.syncers { DownStepTarget(w, s, a); }
    case RegionalReport(s, k, status) => ReportKeepsStatuses(w, s, k, status);
    case _ => SameStatuses(w, Next(w, m));
  }

  lemma {:induction false} RunKeepsStatuses(syncers: set<string>, moves: seq<Move>)
    requires "" !in syncers
    ensures StatusesKept(RunLoop(syncers, moves))
  {
    hide Next;
    if moves != [] {
      RunKeepsStatuses(syncers, moves[..|moves| - 1]);
      NextKeepsStatuses(RunLoop(syncers, moves[..|moves| - 1]), moves[|moves| - 1]);
    }
  }

  /** A name of its own below means a copy of its own above. */
  lemma OwnNameOwnCopy(w: World, s: string, k: Key)
    requires s in w.ups && s in w.downs && w.ups[s].dir == Up && w.ups[s].seen <= w.downs[s].applied && NameIsOwn(w.downs[s].applied, k)
    ensures OwnCopy(w.ups[s], k)
  {
  }

  /** The status a policy has on the regional hub of s. */
  function RegionalStatus(w: World, s: string, k: Key): Value
    requires s in w.regional
  {
    if k in w.regional[s] then w.regional[s][k] else Null
  }

  /**
   Policy k is at rest with syncer s: neither of its keys is pending or held, whatever the syncer is
   doing with other policies, the spec syncer has seen its essence and the status syncer its status.
   */
  ghost predicate AtRest(w: World, s: string, k: Key) {
    && s in w.downs && s in w.ups && s in w.regional && !Busy(w.downs[s], k) && !Busy(w.ups[s], k)
    && k in w.policies && HasOrigin(w.policies[k].obj, k.namespace)
    && k in w.downs[s].cache && EssenceOf(w.downs[s].cache[k]) == EssenceOf(w.policies[k].obj)
    && k in w.ups[s].cache && StatusOf(w.ups[s].cache[k]) == RegionalStatus(w, s, k)
  }

  /**
   All the way round: when a labelled policy is at rest, its regional counterpart has its labels,
   annotations and non-status content. If no other policy applied there has its name and no apply
   error of it was swallowed, its copy in the syncer's namespace has the status the policy has on the
   regional hub; and, if users treated its name with care, carries the policy's namespace as its origin.
   */
  lemma RoundTheLoop(syncers: set<string>, w: World, s: string, k: Key)
    requires Provenance.Reachable(syncers, w) && s in syncers && AtRest(w, s, k)
    ensures k in w.downs[s].target && EssenceOf(w.downs[s].target[k].obj) == EssenceOf(w.policies[k].obj)
    ensures NameIsOwn(w.downs[s].applied, k) && k !in w.ups[s].dropped ==>
              var copy := k.(namespace := s);
              && copy in w.ups[s].target
              && StatusOf(w.ups[s].target[copy].obj) == RegionalStatus(w, s, k)
              && (k.name !in w.spoiled ==> HasOrigin(w.ups[s].target[copy].obj, k.namespace))
  {
    hide Busy, SyncMachine.Reachable, Provenance.Reachable, Next, NameIsOwn;
    SyncersStayReachable(syncers, w, s);
    AnySyncer(syncers, w, s);
    AnyPolicy(syncers, w);
    ConfigurationIsDown(w, s, k);
    if NameIsOwn(w.downs[s].applied, k) && k !in w.ups[s].dropped {
      StatusIsUp(w, s, k);
      if k.name !in w.spoiled {
        Provenance.ReachableOk(syncers, w, k.name);
        OriginIsBack(w, s, k);
      }
    }
  }

  lemma ConfigurationIsDown(w: World, s: string, k: Key)
    requires s in w.downs && SyncMachine.Reachable(Down, s, w.downs[s]) && !Busy(w.downs[s], k)
    requires k in w.policies && HasOrigin(w.policies[k].obj, k.namespace)
    requires k in w.downs[s].cache && EssenceOf(w.downs[s].cache[k]) == EssenceOf(w.policies[k].obj)
    ensures k in w.downs[s].target && EssenceOf(w.downs[s].target[k].obj) == EssenceOf(w.policies[k].obj)
  {
    hide SyncMachine.Reachable, Busy;
    ReachableSound(Down, s, w.downs[s]);
    assert KeyOf(k.resource, w.downs[s].cache[k]) == k;
    assert LabelsOf(w.downs[s].cache[k]) == LabelsOf(w.policies[k].obj);
    RestingKeyIsSynced(s, w.downs[s], k);
  }

  lemma StatusIsUp(w: World, s: string, k: Key)
    requires s in w.ups && s in w.downs && w.ups[s].dir == Up && w.ups[s].syncer == s && w.ups[s].seen <= w.downs[s].applied
    requires k in w.ups[s].cache && !Busy(w.ups[s], k) && SyncMachine.Reachable(Up, s, w.ups[s])
    requires NameIsOwn(w.downs[s].applied, k) && k !in w.ups[s].dropped && |k.namespace| > 0 && k.resource == POLICIES
    ensures var copy := k.(namespace := s);
            copy in w.ups[s].target && StatusOf(w.ups[s].target[copy].obj) == StatusOf(w.ups[s].cache[k])
  {
    hide Busy, SyncMachine.Reachable, OwnCopy, NameIsOwn;
    OwnNameOwnCopy(w, s, k);
    RestingStatusIsReported(s, w.ups[s], k);
    assert TargetKey(w.ups[s], k) == k.(namespace := s);
  }

  lemma OriginIsBack(w: World, s: string, k: Key)
    requires Provenance.LoopOk(w, k.name) && s in w.syncers && NameIsOwn(w.downs[s].applied, k)
    requires k in w.downs[s].target && k.(namespace := s) in w.ups[s].target
    ensures HasOrigin(w.ups[s].target[k.(namespace := s)].obj, k.namespace)
  {
    hide Busy, DownClean, UpClean;
    assert Provenance.SyncerOk(w, k.name, s);
    var copy := k.(namespace := s);
    Provenance.CopyIsOk(w, s, copy);
    Provenance.RegionalIsOwn(w, k.name, s, k);
    assert OriginKey(copy, w.ups[s].target[copy].obj).name == k.name;
  }
}
