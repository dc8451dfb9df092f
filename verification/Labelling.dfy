/**
 Labelling, which decides whether a policy is synced at all. The controller labels its cached
 object in place before it sends the update, and does not retry a failed reconcile: exactly when a
 reconcile labels the policy, and what becomes of a policy whose labelling failed.
 */
module Labelling {
  import opened KubeObjects
  import opened SyncMachine
  import opened SyncSoundness
  import opened SyncConvergence
  import opened SyncEligibility
  import opened PolicyController
  import opened ClosedLoop
  import opened Provenance
  import opened LoopConvergence

  /** The policy lacks its label, and the controller does not know. */
  ghost predicate Overlooked(w: World, k: Key) {
    && k in w.policies && !HasOrigin(w.policies[k].obj, k.namespace)
    && (k in w.hubCache ==> HasOrigin(w.hubCache[k].obj, w.hubCache[k].obj.meta.namespace))
  }

  /** Labelling in place, and on the hub if the update is accepted under the current version. */
  lemma LabelResult(w: World, k: Key, accepted: bool)
    requires k in w.hubCache && Decide(w.hubCache[k].obj) == NeedsLabel && k in w.policies && k.namespace !in w.ups
    requires KeyOf(k.resource, w.hubCache[k].obj) == k
    ensures var t := LabelStep(w, k, accepted);
            && k in t.policies && k in t.hubCache && HasOrigin(t.hubCache[k].obj, t.hubCache[k].obj.meta.namespace)
            && if accepted && w.policies[k].version == w.hubCache[k].version then HasOrigin(t.policies[k].obj, k.namespace)
               else t.policies == w.policies
  {
  }

  /**
   A reconcile of a policy without a label, exactly: afterwards the policy is labelled if and only
   if it was already, or the update was accepted and the cached version is the stored one. If it is
   not, it is overlooked from then on.
   */
  lemma LabelledIff(syncers: set<string>, w: World, worker: nat, k: Key, accepted: bool)
    requires Provenance.Reachable(syncers, w) && Takes(w, worker, k)
    requires k in w.hubCache && Decide(w.hubCache[k].obj) == NeedsLabel && k in w.policies
    ensures WellFormed(w)
    ensures var t := Next(w, HubReconcile(worker, k, accepted));
            && k in t.policies
            && (HasOrigin(t.policies[k].obj, k.namespace) <==>
                HasOrigin(w.policies[k].obj, k.namespace) || (accepted && w.policies[k].version == w.hubCache[k].version))
            && (!HasOrigin(t.policies[k].obj, k.namespace) ==> Overlooked(t, k))
  {
    hide LabelStep, HasOrigin, Provenance.Reachable, Decide, Takes;
    AnyPolicy(syncers, w);
    LabelResult(w.(hubDirty := w.hubDirty - {k}, missed := w.missed - {k}), k, accepted);
  }

  /** A user creates, edits or removes policy k. */
  predicate UsersMove(m: Move, k: Key) {
    ((m.Create? || m.Edit?) && KeyOf(POLICIES, m.obj) == k) || (m.Remove? && m.key == k)
  }

  /** Nobody looks after policy k: users leave it alone and the controller's informer does not see it again. */
  predicate Neglects(m: Move, k: Key) {
    !UsersMove(m, k) && m != HubObserve(k)
  }

  lemma WriteKeepsLabels(w: World, worker: nat, accepted: bool, k: Key)
    requires k in w.policies
    ensures var t := ReportWriteStep(w, worker, accepted); k in t.policies && HasOrigin(t.policies[k].obj, k.namespace) == HasOrigin(w.policies[k].obj, k.namespace)
  {
    ReportWritePolicies(w, worker, accepted);
  }

  lemma LabelsOneKey(w: World, j: Key, accepted: bool, k: Key)
    requires j in w.hubCache && j != k
    ensures var t := LabelStep(w, j, accepted); Lookup(t.policies, k) == Lookup(w.policies, k) && Lookup(t.hubCache, k) == Lookup(w.hubCache, k)
  {
    hide WithStatus, WithOrigin, TouchStep, GlobalAt;
  }

  lemma ReconcileOverlooks(w: World, worker: nat, j: Key, accepted: bool, k: Key)
    requires Overlooked(w, k)
    ensures Overlooked(ReconcileStep(w, worker, j, accepted), k)
  {
    hide HasOrigin, Decide, LabelStep, CachedFeed, Takes;
    if j in w.hubCache {
      var taken := w.(hubDirty := w.hubDirty - {j}, missed := w.missed - {j});
      if j == k { LeftAlone(w.hubCache[k].obj); } else { LabelsOneKey(taken, j, accepted, k); }
    }
  }

  lemma LeftAlone(o: Object)
    requires HasOrigin(o, o.meta.namespace)
    ensures Decide(o) == FromGlobalHub
  {
  }

  lemma StepOverlooks(w: World, m: Move, k: Key)
    requires WellFormed(w) && Overlooked(w, k) && Neglects(m, k)
    ensures Overlooked(Next(w, m), k)
  {
    hide HasOrigin, ReconcileStep, ReportGetStep, ReportWriteStep, DownObserveStep, DownInternalStep, RegionalReportStep, UpObserveStep, UpInternalStep, WithStatus;
    match m
    case HubReconcile(worker, j, accepted) => ReconcileOverlooks(w, worker, j, accepted, k);
    case ReportWrite(worker, accepted) => WriteKeepsLabels(w, worker, accepted, k);
    case _ =>
  }

  /** No spec syncer is busy with a policy that has no label, while its name is not spoiled. */
  lemma UnlabelledIsIdle(w: World, k: Key, s: string)
    requires LoopOk(w, k.name) && k in w.policies && !HasOrigin(w.policies[k].obj, k.namespace) && s in w.syncers
    ensures Sound(w.downs[s]) && w.downs[s].dir == Down && !Busy(w.downs[s], k)
  {
    hide Busy, UpClean, HubOk, FeedsOk;
    assert SyncerOk(w, k.name, s);
  }

  /** A spec syncer that is not busy with k leaves k's copy as it is. */
  lemma IdleKeepsCopy(d: State, a: Action, k: Key)
    requires Sound(d) && d.dir == Down && !Busy(d, k)
    ensures Lookup(Step(d, a).target, k) == Lookup(d.target, k)
  {
    if Lookup(Step(d, a).target, k) != Lookup(d.target, k) { WriteNeedsLive(d, a, k); }
  }

  lemma MoveKeepsCopy(w: World, m: Move, k: Key, s: string)
    requires WellFormed(w) && s in w.syncers && Sound(w.downs[s]) && w.downs[s].dir == Down && !Busy(w.downs[s], k)
    ensures Lookup(Next(w, m).downs[s].target, k) == Lookup(w.downs[s].target, k)
  {
    hide Next, Step, Busy, Sound, Lookup;
    MoveIsAStep(w, m, s);
    if Next(w, m).downs[s] != w.downs[s] {
      var a :| Next(w, m).downs[s] == Step(w.downs[s], a);
      IdleKeepsCopy(w.downs[s], a, k);
    }
  }

  lemma {:induction false} RunSpoils(w: World, moves: seq<Move>)
    requires WellFormed(w)
    ensures w.spoiled <= RunMoves(w, moves).spoiled
  {
    hide Next;
    if moves != [] {
      var most, m := moves[..|moves| - 1], moves[|moves| - 1];
      RunSpoils(w, most);
      SpoiledStays(RunMoves(w, most), m);
    }
  }

  /**
   An overlooked policy stays so: whatever moves follow, until the controller's informer sees it
   again or a user touches it, it has no label; and if users treat its name with care, no spec
   syncer queues it, holds it or changes what is below.
   */
  lemma {:induction false} OverlookedStays(syncers: set<string>, w: World, moves: seq<Move>, k: Key, s: string)
    requires Provenance.Reachable(syncers, w) && Overlooked(w, k) && s in syncers
    requires forall m | m in moves :: Neglects(m, k)
    ensures WellFormed(w) && w.syncers == syncers
    ensures var t := RunMoves(w, moves);
            && Overlooked(t, k)
            && (k.name !in t.spoiled ==> !Busy(t.downs[s], k) && Lookup(t.downs[s].target, k) == Lookup(w.downs[s].target, k))
  {
    hide LoopOk, Next, Busy, Sound, Overlooked, Lookup, Provenance.Reachable;
    AnyPolicy(syncers, w);
    OverlookedRun(w, moves, k);
    if k.name !in RunMoves(w, moves).spoiled {
      RunSpoils(w, moves);
      ReachableOk(syncers, w, k.name);
      IdleRun(w, moves, k, s);
    }
  }

  lemma {:induction false} OverlookedRun(w: World, moves: seq<Move>, k: Key)
    requires WellFormed(w) && Overlooked(w, k) && forall m | m in moves :: Neglects(m, k)
    ensures Overlooked(RunMoves(w, moves), k)
  {
    hide Next, Overlooked, Neglects;
    if moves != [] {
      var most, m := moves[..|moves| - 1], moves[|moves| - 1];
      assert m in moves && forall n | n in most :: n in moves;
      OverlookedRun(w, most, k);
      StepOverlooks(RunMoves(w, most), m, k);
    }
  }

  lemma {:induction false} IdleRun(w: World, moves: seq<Move>, k: Key, s: string)
    requires WellFormed(w) && LoopOk(w, k.name) && Overlooked(w, k) && s in w.syncers && forall m | m in moves :: Neglects(m, k)
    requires k.name !in RunMoves(w, moves).spoiled
    ensures var t := RunMoves(w, moves);
            LoopOk(t, k.name) && !Busy(t.downs[s], k) && Lookup(t.downs[s].target, k) == Lookup(w.downs[s].target, k)
  {
    hide LoopOk, Next, Busy, Sound, Lookup, HasOrigin, Neglects;
    if moves == [] {
      UnlabelledIsIdle(w, k, s);
    } else {
      var most, m := moves[..|moves| - 1], moves[|moves| - 1];
      assert m in moves && forall n | n in most :: n in moves;
      var t := RunMoves(w, most);
      SpoiledStays(t, m);
      IdleRun(w, most, k, s);
      OverlookedRun(w, most, k);
      UnlabelledIsIdle(t, k, s);
      MoveKeepsCopy(t, m, k, s);
      OverlookedRun(w, moves, k);
      NextOk(t, k.name, m);
      UnlabelledIsIdle(Next(t, m), k, s);
    }
  }

  lemma ForeignIsLeftUnlabelled(o: Object)
    requires ORIGIN in LabelsOf(o)
    ensures Decide(o) != NeedsLabel
  {
  }

  /**
   What ends it, exactly: once the informer has seen the policy as it is, an accepted reconcile
   leaves it labelled if and only if it carried no other namespace's label.
   */
  lemma SeenAgainIsLabelled(syncers: set<string>, w: World, worker: nat, k: Key)
    requires Provenance.Reachable(syncers, w) && worker !in w.updaters && !Held(w, k) && k in w.policies
    ensures WellFormed(w)
    ensures var t := Next(Next(w, HubObserve(k)), HubReconcile(worker, k, true));
            k in t.policies && (HasOrigin(t.policies[k].obj, k.namespace) <==> OriginAbsentOrOwn(w.policies[k].obj))
  {
    hide HasOrigin, Provenance.Reachable, LabelStep, Decide, Held, Next;
    AnyPolicy(syncers, w);
    SeenIs(w, worker, k);
    var seen := Next(w, HubObserve(k));
    TakenIs(seen, worker, k);
    if ORIGIN !in LabelsOf(w.policies[k].obj) {
      UnlabelledNeedsLabel(w.policies[k].obj);
      LabelResult(seen.(hubDirty := seen.hubDirty - {k}, missed := seen.missed - {k}), k, true);
    } else {
      ForeignIsLeftUnlabelled(w.policies[k].obj);
    }
  }

  lemma SeenIs(w: World, worker: nat, k: Key)
    requires WellFormed(w) && worker !in w.updaters && !Held(w, k) && k in w.policies && k.namespace !in w.ups
    ensures var t := Next(w, HubObserve(k));
            && t == w.(hubCache := t.hubCache, hubDirty := t.hubDirty) && Takes(t, worker, k) && k in t.hubCache && t.hubCache[k] == w.policies[k]
  {
  }

  lemma TakenIs(w: World, worker: nat, k: Key)
    requires WellFormed(w) && Takes(w, worker, k) && k in w.hubCache
    ensures var t := Next(w, HubReconcile(worker, k, true));
            if Decide(w.hubCache[k].obj) == NeedsLabel then t == LabelStep(w.(hubDirty := w.hubDirty - {k}, missed := w.missed - {k}), k, true)
            else t.policies == w.policies
  {
    hide Decide, LabelStep, CachedFeed, Takes;
  }

  lemma UnlabelledNeedsLabel(o: Object)
    requires ORIGIN !in LabelsOf(o)
    ensures Decide(o) == NeedsLabel
  {
  }
}
