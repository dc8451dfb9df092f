/**
 Why users must treat the origin label with care. A policy that is stripped of its label while its
 key is live is applied below without one; its copy comes back without one, the controller labels
 the copy with the syncer's own namespace, and the spec syncer then applies the copy below again.
 */
module Echo {
  import opened KubeObjects
  import opened SyncMachine
  import opened SyncConvergence
  import opened SyncRuns
  import opened SyncEligibility
  import opened SyncLimits
  import opened PolicyController
  import opened ClosedLoop
  import opened Provenance
  import opened LoopConvergence
  import opened Labelling
  import opened LoopLimits

  /** A policy, and what a user makes of it by stripping its label. */
  predicate Strips(syncers: set<string>, labelled: Object, bare: Object) {
    && |labelled.meta.namespace| > 0 && labelled.meta.namespace !in syncers && HasOrigin(labelled, labelled.meta.namespace)
    && ORIGIN !in LabelsOf(bare) && KeyOf(POLICIES, bare) == KeyOf(POLICIES, labelled)
  }

  /** The policy is created with its label, seen by the spec syncer, and stripped before it is processed. */
  lemma StrippedWhileLive(syncers: set<string>, s: string, labelled: Object, bare: Object) returns (w: World)
    requires "" !in syncers && s in syncers && Strips(syncers, labelled, bare)
    ensures Provenance.Reachable(syncers, w) && s in w.downs && s in w.ups && w.ups[s] == Init(Up, s) && w.updaters == map[]
    ensures var k := KeyOf(POLICIES, bare);
            k in w.policies && ORIGIN !in LabelsOf(w.policies[k].obj) && Live(w.downs[s], k) && w.downs[s].cache.Keys == {k}
  {
    hide Provenance.Reachable, Next, WithStatus, HasOrigin, Step, Live;
    var k := KeyOf(POLICIES, bare);
    StartReachable(syncers);
    CreateLeg(syncers, Start(syncers), map[], labelled);
    var w1 := Next(Start(syncers), Create(labelled));
    ReachNext(syncers, w1, DownObserve(s, k));
    AnyPolicy(syncers, w1);
    SeenDown(w1, s, k);
    var w2 := Next(w1, DownObserve(s, k));
    SeenIsLive(s, labelled);
    ReachNext(syncers, w2, Edit(bare));
    StrippedIs(w2, bare);
    w := Next(w2, Edit(bare));
  }

  lemma SeenIsLive(s: string, labelled: Object)
    requires HasOrigin(labelled, labelled.meta.namespace)
    ensures var t, k := Step(Init(Down, s), Observe(POLICIES, WithStatus(labelled, Null))), KeyOf(POLICIES, labelled);
            Live(t, k) && t.cache.Keys == {k}
  {
    StatusAside(POLICIES, labelled, Null, labelled.meta.namespace);
    NewObjectIsPending(Init(Down, s), POLICIES, WithStatus(labelled, Null));
  }

  lemma StrippedIs(w: World, bare: Object)
    requires WellFormed(w) && KeyOf(POLICIES, bare) in w.policies && ORIGIN !in LabelsOf(bare)
    ensures var t, k := Next(w, Edit(bare)), KeyOf(POLICIES, bare);
            SyncersKept(w, t) && t.updaters == w.updaters && k in t.policies && ORIGIN !in LabelsOf(t.policies[k].obj)
  {
    hide EditsWithCare;
  }

  /** It is then applied below without a label. */
  lemma AppliedBare(syncers: set<string>, s: string, labelled: Object, bare: Object) returns (w: World)
    requires "" !in syncers && s in syncers && Strips(syncers, labelled, bare)
    ensures Provenance.Reachable(syncers, w) && s in w.downs && s in w.ups && s in w.regional && w.ups[s] == Init(Up, s) && w.updaters == map[]
    ensures var k := KeyOf(POLICIES, bare);
            k in w.downs[s].target && ORIGIN !in LabelsOf(w.downs[s].target[k].obj) && w.downs[s].cache.Keys == {k}
  {
    hide Provenance.Reachable, Next, SyncMachine.Reachable, Step, Live, Leads, HasOrigin;
    var k := KeyOf(POLICIES, bare);
    var w1 := StrippedWhileLive(syncers, s, labelled, bare);
    ReachNext(syncers, w1, DownObserve(s, k));
    AnyPolicy(syncers, w1);
    SeenDown(w1, s, k);
    SyncersStayReachable(syncers, w1, s);
    var d := StaleKeyIsApplied(s, w1.downs[s], POLICIES, w1.policies[k].obj);
    w := LeadDown(syncers, Next(w1, DownObserve(s, k)), s, d);
    ReachNext(syncers, w, ReportGet(0));
  }

  /** The copy comes back without a label. */
  lemma CopiedBare(syncers: set<string>, s: string, labelled: Object, bare: Object) returns (w: World)
    requires "" !in syncers && s in syncers && Strips(syncers, labelled, bare)
    ensures Provenance.Reachable(syncers, w) && s in w.downs && s in w.ups && w.updaters == map[]
    ensures var copy := Key(POLICIES, s, bare.meta.name);
            copy in w.ups[s].target && ORIGIN !in LabelsOf(w.ups[s].target[copy].obj) && copy !in w.downs[s].cache
  {
    hide Provenance.Reachable, HasOrigin;
    var k, copy := KeyOf(POLICIES, bare), Key(POLICIES, s, bare.meta.name);
    var w1 := AppliedBare(syncers, s, labelled, bare);
    w := UpLeg(syncers, w1, s, k);
    BareCopy(w1.downs[s].target[k].obj, copy, RegionalAt(w1, s, k).value);
  }

  lemma BareCopy(applied: Object, copy: Key, seen: Object)
    requires ORIGIN !in LabelsOf(applied) && seen.meta == applied.meta
    ensures ORIGIN !in LabelsOf(CopyAfter(map[], copy, seen))
  {
  }

  /** The controller labels the copy with its own namespace, the syncer's. */
  lemma CopyGetsLabelled(syncers: set<string>, w: World, s: string, copy: Key) returns (t: World)
    requires Provenance.Reachable(syncers, w) && s in syncers && s in w.ups && copy.namespace == s && copy in w.ups[s].target
    requires w.updaters == map[] && ORIGIN !in LabelsOf(w.ups[s].target[copy].obj)
    ensures Provenance.Reachable(syncers, t) && s in t.ups && t.downs == w.downs
    ensures copy in t.ups[s].target && KeyOf(copy.resource, t.ups[s].target[copy].obj) == copy && HasOrigin(t.ups[s].target[copy].obj, s)
  {
    hide Provenance.Reachable, Next, SyncMachine.Reachable;
    ReachNext(syncers, w, HubObserve(copy));
    HubSees(w, s, copy);
    var w1 := Next(w, HubObserve(copy));
    ReachNext(syncers, w1, HubReconcile(0, copy, true));
    SyncersStayReachable(syncers, w, s);
    UpIsUp(s, w.ups[s]);
    TargetHoldsConfigurations(Up, s, w.ups[s]);
    LabelledCopy(w1, s, copy);
    t := Next(w1, HubReconcile(0, copy, true));
  }

  lemma LabelledCopy(w: World, s: string, copy: Key)
    requires WellFormed(w) && s in w.syncers && w.ups[s].dir == Up && copy.namespace == s && copy in w.ups[s].target
    requires copy in w.hubDirty && copy in w.hubCache && w.hubCache[copy] == w.ups[s].target[copy] && w.updaters == map[]
    requires ORIGIN !in LabelsOf(w.ups[s].target[copy].obj) && KeyOf(copy.resource, w.ups[s].target[copy].obj) == copy
    ensures var t := Next(w, HubReconcile(0, copy, true));
            && t.downs == w.downs && copy in t.ups[s].target
            && KeyOf(copy.resource, t.ups[s].target[copy].obj) == copy && HasOrigin(t.ups[s].target[copy].obj, s)
  {
    hide Next, LabelStep, TouchStep, WithOrigin, HasOrigin;
    UnlabelledNeedsLabel(w.hubCache[copy].obj);
    LabelInPlace(w.hubCache[copy].obj);
    TakenIs(w, 0, copy);
    LabelsCopy(w.(hubDirty := w.hubDirty - {copy}, missed := w.missed - {copy}), s, copy);
    TouchedCopy(w.ups[s], copy, WithOrigin(w.hubCache[copy].obj));
  }

  lemma LabelsCopy(w: World, s: string, copy: Key)
    requires s in w.ups && copy.namespace == s && copy in w.ups[s].target && copy in w.hubCache && w.hubCache[copy] == w.ups[s].target[copy]
    ensures var t := LabelStep(w, copy, true);
            t.downs == w.downs && t.ups == w.ups[s := TouchStep(w.ups[s], copy, LabelsOf(WithOrigin(w.hubCache[copy].obj)))]
  {
    hide TouchStep, WithOrigin;
  }

  lemma TouchedCopy(u: State, copy: Key, labelled: Object)
    requires u.dir == Up && copy in u.target && KeyOf(copy.resource, u.target[copy].obj) == copy && HasOrigin(labelled, copy.namespace)
    ensures var t := TouchStep(u, copy, LabelsOf(labelled));
            copy in t.target && KeyOf(copy.resource, t.target[copy].obj) == copy && HasOrigin(t.target[copy].obj, copy.namespace)
  {
  }

  /**
   The echo: for every policy and every way to strip its label there is a reachable world in which
   a copy in a syncer's namespace is eligible and the spec syncer has applied it below.
   */
  lemma EchoIsApplied(syncers: set<string>, s: string, labelled: Object, bare: Object) returns (w: World)
    requires "" !in syncers && s in syncers && Strips(syncers, labelled, bare)
    ensures Provenance.Reachable(syncers, w) && s in w.downs && s in w.ups
    ensures var copy := Key(POLICIES, s, bare.meta.name);
            copy in w.ups[s].target && Eligible(w.ups[s].target[copy].obj) && copy in w.downs[s].target
  {
    hide Provenance.Reachable, Next, SyncMachine.Reachable, Step, Leads;
    var copy := Key(POLICIES, s, bare.meta.name);
    var w1 := CopiedBare(syncers, s, labelled, bare);
    var w2 := CopyGetsLabelled(syncers, w1, s, copy);
    ReachNext(syncers, w2, DownObserve(s, copy));
    SyncersStayReachable(syncers, w2, s);
    var obj := w2.ups[s].target[copy].obj;
    var d := DownRun(s, w2.downs[s], copy, obj);
    CopySeen(w2, s, copy);
    w := LeadDown(syncers, Next(w2, DownObserve(s, copy)), s, d);
  }

  lemma CopySeen(w: World, s: string, copy: Key)
    requires WellFormed(w) && s in w.syncers && copy.namespace == s && copy in w.ups[s].target
    ensures var t := Next(w, DownObserve(s, copy));
            t == w.(downs := w.downs[s := Step(w.downs[s], Observe(copy.resource, w.ups[s].target[copy].obj))], regional := t.regional)
  {
    hide Step;
  }
}
