/**
 Provenance in the closed loop: in every reachable state of the whole system, a copy in a syncer's
 namespace carries the origin of a policy that a user created and that syncer applied below, is
 never synced down again, and is reported to that policy only, under that syncer's name.
 */
module Provenance {
  import opened Options
  import opened KubeObjects
  import opened SyncMachine
  import opened SyncConvergence
  import opened SummaryCodec
  import opened PolicyController
  import opened ClosedLoop

  // All invariants are about the policies of one name, for as long as no user spoils it.

  predicate PoliciesOk(syncers: set<string>, name: string, created: set<Key>, policies: map<Key, Stored>) {
    && (forall k | k in policies :: UserKey(syncers, k) && k in created && KeyOf(k.resource, policies[k].obj) == k)
    && (forall k | k in policies && k.name == name :: OriginAbsentOrOwn(policies[k].obj))
  }

  /** A policy a spec syncer is busy with, or has seen labelled, is labelled on the global hub. */
  ghost predicate Coupled(name: string, d: State, policies: map<Key, Stored>) {
    forall k | k in policies && k.name == name && (Busy(d, k) || (k in d.cache && HasOrigin(d.cache[k], k.namespace))) ::
      HasOrigin(policies[k].obj, k.namespace)
  }

  predicate RegionalOk(reports: set<(string, Key, Value)>, s: string, statuses: map<Key, Value>) {
    forall k | k in statuses :: (s, k, statuses[k]) in reports
  }

  ghost predicate SyncerOk(w: World, name: string, s: string)
    requires s in w.downs && s in w.ups && s in w.regional
  {
    && DownClean(w.syncers, name, w.created, w.downs[s])
    && UpClean(w.reports, s, name, w.downs[s].applied, w.ups[s])
    && Coupled(name, w.downs[s], w.policies)
    && RegionalOk(w.reports, s, w.regional[s])
  }

  /** What the policy controller may have cached under k. */
  ghost predicate HubOk(w: World, k: Key, o: Object) {
    if k.namespace in w.downs then CopyOk(w.reports, k.namespace, w.downs[k.namespace].applied, k, o)
    else KeyOf(k.resource, o) == k && |k.namespace| > 0 && OriginAbsentOrOwn(o)
  }

  /** A feed goes to a policy its syncer applied, under the syncer's name, with counts of a status that policy had there. */
  ghost predicate FeedOk(w: World, f: Feed) {
    var s := f.source.namespace;
    && s in w.downs && f.report.name == s && f.target.name == f.source.name && f.target.resource == f.source.resource && f.target in w.downs[s].applied
    && Readable(f.status) && StatesOf(f.status).Some? && f.report == ReportOf(s, StatesOf(f.status).value)
    && (NameIsOwn(w.downs[s].applied, f.target) ==> (s, f.target, f.status) in w.reports)
  }

  /** A report on its way to a policy, or written to it. */
  ghost predicate InPlay(updaters: map<nat, Updater>, fed: map<Key, seq<Feed>>, f: Feed) {
    (exists u :: u in updaters && updaters[u].feed == f) || (exists k :: k in fed && f in fed[k])
  }

  ghost predicate FeedsOk(w: World, name: string, updaters: map<nat, Updater>, fed: map<Key, seq<Feed>>) {
    forall f | InPlay(updaters, fed, f) && f.target.name == name :: FeedOk(w, f)
  }

  ghost predicate LoopOk(w: World, name: string) {
    && WellFormed(w)
    && PoliciesOk(w.syncers, name, w.created, w.policies)
    && (forall s | s in w.syncers :: SyncerOk(w, name, s))
    && (forall k | k in w.hubCache :: KeyOf(k.resource, w.hubCache[k].obj) == k && (k.name == name ==> HubOk(w, k, w.hubCache[k].obj)))
    && FeedsOk(w, name, w.updaters, w.fed)
  }

  // What the syncers' invariants say of a single key.

  lemma AppliedIsUsers(w: World, name: string, s: string)
    requires s in w.downs && DownClean(w.syncers, name, w.created, w.downs[s])
    ensures forall k | k in w.downs[s].applied && k.name == name :: UserKey(w.syncers, k) && k in w.created
  {
  }

  lemma RegionalIsOwn(w: World, name: string, s: string, k: Key)
    requires s in w.downs && DownClean(w.syncers, name, w.created, w.downs[s]) && k in w.downs[s].target
    ensures var o := w.downs[s].target[k].obj; k in w.downs[s].applied && KeyOf(k.resource, o) == k && (k.name == name ==> HasOrigin(o, k.namespace))
  {
  }

  lemma BusyIsUsers(w: World, s: string, k: Key)
    requires s in w.downs && DownClean(w.syncers, k.name, w.created, w.downs[s])
    requires Busy(w.downs[s], k) || (k in w.downs[s].cache && HasOrigin(w.downs[s].cache[k], k.namespace))
    ensures k.namespace !in w.syncers
  {
  }

  lemma CopyIsOk(w: World, s: string, k: Key)
    requires s in w.downs && s in w.ups && UpClean(w.reports, s, k.name, w.downs[s].applied, w.ups[s]) && k in w.ups[s].target
    ensures CopyOk(w.reports, s, w.downs[s].applied, k, w.ups[s].target[k].obj)
  {
  }

  /** Caches and feeds stay right when syncers apply more and regional hubs report more. */
  lemma HubGrows(w: World, name: string, t: World)
    requires LoopOk(w, name) && WellFormed(t) && t.syncers == w.syncers && w.reports <= t.reports
    requires forall s | s in w.syncers :: w.downs[s].applied <= t.downs[s].applied
    ensures forall k | k in w.hubCache && k.name == name :: HubOk(t, k, w.hubCache[k].obj)
    ensures FeedsOk(t, name, w.updaters, w.fed)
  {
    hide DownClean, UpClean, Busy, InPlay, PoliciesOk, SyncerOk;
    forall k | k in w.hubCache && k.name == name ensures HubOk(t, k, w.hubCache[k].obj) {
      assert HubOk(w, k, w.hubCache[k].obj);
      if k.namespace in w.downs { CopyGrows(w, t, k.namespace, k, w.hubCache[k].obj); }
    }
    forall f | InPlay(w.updaters, w.fed, f) && f.target.name == name ensures FeedOk(t, f) {
      assert FeedOk(w, f);
      OwnShrinks(w.downs[f.source.namespace].applied, t.downs[f.source.namespace].applied, f.target);
    }
  }

  lemma OwnShrinks(base: set<Key>, bigger: set<Key>, k: Key)
    requires base <= bigger
    ensures NameIsOwn(bigger, k) ==> NameIsOwn(base, k)
  {
  }

  lemma CopyGrows(w: World, t: World, s: string, k: Key, o: Object)
    requires s in w.downs && s in t.downs && w.reports <= t.reports && w.downs[s].applied <= t.downs[s].applied
    requires CopyOk(w.reports, s, w.downs[s].applied, k, o)
    ensures CopyOk(t.reports, s, t.downs[s].applied, k, o)
  {
  }

  /** Changing only what users and the controller write. */
  lemma PoliciesChange(w: World, name: string, t: World)
    requires LoopOk(w, name) && WellFormed(t) && SyncersKept(w, t) && w.created <= t.created
    requires PoliciesOk(t.syncers, name, t.created, t.policies)
    requires forall s | s in w.syncers :: Coupled(name, w.downs[s], t.policies)
    requires forall k | k in t.hubCache :: KeyOf(k.resource, t.hubCache[k].obj) == k && (k.name == name ==> HubOk(w, k, t.hubCache[k].obj))
    requires FeedsOk(w, name, t.updaters, t.fed)
    ensures LoopOk(t, name)
  {
    hide DownClean, UpClean, Busy, InPlay;
    forall s | s in t.syncers ensures SyncerOk(t, name, s) {
      assert SyncerOk(w, name, s);
      DownCreatedGrows(w.syncers, name, w.created, t.created, w.downs[s]);
    }
    forall k | k in t.hubCache && k.name == name ensures HubOk(t, k, t.hubCache[k].obj) {
      assert HubOk(w, k, t.hubCache[k].obj);
    }
    forall f | InPlay(t.updaters, t.fed, f) && f.target.name == name ensures FeedOk(t, f) {
      assert FeedOk(w, f);
    }
  }

  /** The status of a policy has no part in its identity and provenance. */
  lemma StatusAside(resource: string, o: Object, status: Value, namespace: string)
    ensures KeyOf(resource, WithStatus(o, status)) == KeyOf(resource, o)
    ensures HasOrigin(WithStatus(o, status), namespace) == HasOrigin(o, namespace)
    ensures OriginAbsentOrOwn(WithStatus(o, status)) == OriginAbsentOrOwn(o)
  {
  }

  lemma DownCreatedGrows(syncers: set<string>, name: string, created: set<Key>, more: set<Key>, d: State)
    requires DownClean(syncers, name, created, d) && created <= more
    ensures DownClean(syncers, name, more, d)
  {
  }

  /** A policy stored: a user's, and of this name only if it keeps to the rules. */
  lemma StoreOk(w: World, name: string, t: World, k: Key)
    requires LoopOk(w, name) && SyncersKept(w, t) && t.created == w.created + {k} && t.hubCache == w.hubCache && FeedsOk(w, name, t.updaters, t.fed)
    requires k in t.policies && t.policies == w.policies[k := t.policies[k]] && UserKey(w.syncers, k) && KeyOf(k.resource, t.policies[k].obj) == k
    requires k.name == name ==> OriginAbsentOrOwn(t.policies[k].obj)
    requires k.name == name && !HasOrigin(t.policies[k].obj, k.namespace) ==>
               forall s | s in w.downs :: (k in w.policies && !HasOrigin(w.policies[k].obj, k.namespace)) || (k !in w.downs[s].cache && !Busy(w.downs[s], k))
    ensures LoopOk(t, name)
  {
    hide DownClean, UpClean, Busy, HasOrigin, FeedsOk, HubOk, OriginAbsentOrOwn;
    forall s | s in w.syncers ensures Coupled(name, w.downs[s], t.policies) {
      assert SyncerOk(w, name, s);
      CoupledAfterStore(name, w.downs[s], w.policies, k, t.policies[k]);
    }
    hide Coupled, SyncerOk;
    PoliciesChange(w, name, t);
  }

  lemma CoupledAfterStore(name: string, d: State, policies: map<Key, Stored>, k: Key, stored: Stored)
    requires Coupled(name, d, policies)
    requires k.name == name && !HasOrigin(stored.obj, k.namespace) ==>
               (k in policies && !HasOrigin(policies[k].obj, k.namespace)) || (k !in d.cache && !Busy(d, k))
    ensures Coupled(name, d, policies[k := stored])
  {
    hide Busy, HasOrigin;
  }

  lemma CreateOk(w: World, name: string, obj: Object)
    requires LoopOk(w, name) && name !in CreateStep(w, obj).spoiled
    ensures LoopOk(CreateStep(w, obj), name)
  {
    hide LoopOk, FeedOk, OriginAbsentOrOwn, WithStatus, Sources, HasOrigin, Busy;
    if MayCreate(w, obj) {
      var t, k := CreateStep(w, obj), KeyOf(POLICIES, obj);
      StatusAside(POLICIES, obj, Null, k.namespace);
      FeedsAre(w, name);
      assert forall f | InPlay(t.updaters, t.fed, f) :: InPlay(w.updaters, w.fed, f);
      hide InPlay;
      StoreOk(w, name, t, k);
    }
  }

  lemma FeedsAre(w: World, name: string)
    requires LoopOk(w, name)
    ensures WellFormed(w) && FeedsOk(w, name, w.updaters, w.fed)
    ensures forall k | k in w.policies :: UserKey(w.syncers, k) && k in w.created && KeyOf(k.resource, w.policies[k].obj) == k
  {
  }

  lemma EditOk(w: World, name: string, obj: Object)
    requires LoopOk(w, name) && name !in EditStep(w, obj).spoiled
    ensures LoopOk(EditStep(w, obj), name)
  {
    hide LoopOk, FeedsOk, OriginAbsentOrOwn, WithStatus, HasOrigin, Busy;
    if MayEdit(w, obj) {
      var t, k := EditStep(w, obj), KeyOf(POLICIES, obj);
      FeedsAre(w, name);
      StatusAside(POLICIES, obj, StatusOf(w.policies[k].obj), k.namespace);
      assert w.created + {k} == w.created;
      StoreOk(w, name, t, k);
    }
  }

  lemma RemoveOk(w: World, name: string, k: Key)
    requires LoopOk(w, name)
    ensures LoopOk(Next(w, Remove(k)), name)
  {
    hide DownClean, UpClean, Busy, FeedOk, HubOk, InPlay;
    var t := Next(w, Remove(k));
    forall s | s in w.syncers ensures Coupled(name, w.downs[s], t.policies) {
      assert SyncerOk(w, name, s);
    }
    PoliciesChange(w, name, t);
  }

  lemma KeptOk(reports: set<(string, Key, Value)>, s: string, statuses: map<Key, Value>, target: map<Key, Stored>)
    requires RegionalOk(reports, s, statuses)
    ensures RegionalOk(reports, s, Kept(statuses, target))
  {
  }

  /** Changing one spec syncer. */
  lemma DownChange(w: World, name: string, t: World, s: string, d: State)
    requires LoopOk(w, name) && s in w.syncers && t == SetDown(w, s, d)
    requires DownClean(w.syncers, name, w.created, d) && Coupled(name, d, w.policies) && w.downs[s].applied <= d.applied
    ensures LoopOk(t, name)
  {
    hide DownClean, UpClean, Busy, InPlay, HubOk, FeedOk, Coupled, RegionalOk, PoliciesOk, Kept;
    HubGrows(w, name, t);
    forall r | r in t.syncers ensures SyncerOk(t, name, r) {
      assert SyncerOk(w, name, r);
      if r == s {
        AppliedIsUsers(t, name, s);
        UpCleanGrows(w.reports, w.reports, s, name, w.downs[s].applied, d.applied, w.ups[s]);
        KeptOk(w.reports, s, w.regional[s], d.target);
      }
    }
  }

  lemma AppliedGrows(d: State, a: Action)
    ensures d.applied <= Step(d, a).applied
  {
    if a.Write? {
      hide Stripped, WithStatus, StatusOf;
    } else {
      hide WriteStep, Enqueues, Eligible;
    }
  }

  lemma DownStepOk(w: World, name: string, s: string, a: Action)
    requires LoopOk(w, name)
    ensures LoopOk(Next(w, DownStep(s, a)), name)
  {
    hide DownClean, UpClean, Busy;
    if s in w.syncers && Internal(a) {
      var d, e := w.downs[s], Step(w.downs[s], a);
      assert SyncerOk(w, name, s);
      DownInternal(w.syncers, name, w.created, d, a);
      AppliedGrows(d, a);
      DownChange(w, name, Next(w, DownStep(s, a)), s, e);
    }
  }

  /** What the global hub stores is fit to be cached by a spec syncer and by the controller. */
  lemma GlobalOk(w: World, name: string, k: Key)
    requires LoopOk(w, name) && GlobalAt(w, k).Some?
    ensures var o := GlobalAt(w, k).value.obj; KeyOf(k.resource, o) == k && (k.name == name ==> DownCacheOk(w.syncers, w.created, k, o) && HubOk(w, k, o))
  {
    hide DownClean, UpClean, Busy;
    var o := GlobalAt(w, k).value.obj;
    var s := k.namespace;
    if s in w.syncers {
      assert SyncerOk(w, name, s);
      CopyKeyed(w, name, s, k);
      if k.name == name {
        CopyIsOk(w, s, k);
        AppliedIsUsers(w, name, s);
        assert UserKey(w.syncers, OriginKey(k, o));
      }
    }
  }

  lemma CopyKeyed(w: World, name: string, s: string, k: Key)
    requires s in w.downs && s in w.ups && UpClean(w.reports, s, name, w.downs[s].applied, w.ups[s]) && k in w.ups[s].target
    ensures KeyOf(k.resource, w.ups[s].target[k].obj) == k
  {
  }

  lemma DownSeesPolicy(w: World, name: string, s: string, k: Key)
    requires LoopOk(w, name) && s in w.syncers && GlobalAt(w, k).Some?
    ensures LoopOk(SetDown(w, s, ObserveStep(w.downs[s], k.resource, GlobalAt(w, k).value.obj)), name)
  {
    hide DownClean, UpClean, Busy, Eligible;
    var d, o := w.downs[s], GlobalAt(w, k).value.obj;
    assert SyncerOk(w, name, s);
    GlobalOk(w, name, k);
    if k.name == name && Busy(d, k) { BusyIsUsers(w, s, k); }
    DownSees(w.syncers, name, w.created, d, k, o);
    var e := ObserveStep(d, k.resource, o);
    if HasOrigin(o, k.namespace) && k in w.policies { assert o == w.policies[k].obj; }
    assert Coupled(name, e, w.policies);
    DownChange(w, name, SetDown(w, s, e), s, e);
  }

  lemma DownMissesPolicy(w: World, name: string, s: string, k: Key)
    requires LoopOk(w, name) && s in w.syncers && GlobalAt(w, k).None?
    ensures LoopOk(SetDown(w, s, ObserveDeleteStep(w.downs[s], k)), name)
  {
    hide DownClean, UpClean, Busy, Eligible;
    var d := w.downs[s];
    assert SyncerOk(w, name, s);
    DownSeesGone(w.syncers, name, w.created, d, k);
    if k.name == name && k in d.cache && HasOrigin(d.cache[k], k.namespace) { BusyIsUsers(w, s, k); }
    var e := ObserveDeleteStep(d, k);
    assert Coupled(name, e, w.policies);
    DownChange(w, name, SetDown(w, s, e), s, e);
  }

  lemma DownObserveOk(w: World, name: string, s: string, k: Key)
    requires LoopOk(w, name)
    ensures LoopOk(Next(w, DownObserve(s, k)), name)
  {
    hide LoopOk, SetDown, ObserveStep, ObserveDeleteStep;
    if s in w.syncers {
      if GlobalAt(w, k).Some? { DownSeesPolicy(w, name, s, k); } else { DownMissesPolicy(w, name, s, k); }
    }
  }

  /** Changing one status syncer. */
  lemma UpChange(w: World, name: string, t: World, s: string, u: State)
    requires LoopOk(w, name) && s in w.syncers && t == SetUp(w, s, u) && UpClean(w.reports, s, name, w.downs[s].applied, u)
    ensures LoopOk(t, name)
  {
    hide DownClean, UpClean, Busy, InPlay, HubOk, FeedOk;
    HubGrows(w, name, t);
    forall r | r in t.syncers ensures SyncerOk(t, name, r) {
      assert SyncerOk(w, name, r);
    }
  }

  lemma UpStepOk(w: World, name: string, s: string, a: Action)
    requires LoopOk(w, name)
    ensures LoopOk(Next(w, UpStep(s, a)), name)
  {
    hide DownClean, UpClean, Busy, Step, Coupled;
    if s in w.syncers && Internal(a) {
      assert SyncerOk(w, name, s);
      UpInternal(w.reports, s, name, w.downs[s].applied, w.ups[s], a);
      UpChange(w, name, Next(w, UpStep(s, a)), s, Step(w.ups[s], a));
    }
  }

  /** A policy on a regional hub was applied there, carries its origin, and has a status that was set there. */
  lemma RegionalIsReportable(w: World, name: string, s: string, k: Key)
    requires s in w.downs && s in w.regional && DownClean(w.syncers, name, w.created, w.downs[s]) && RegionalOk(w.reports, s, w.regional[s])
    ensures RegionalAt(w, s, k).Some? ==>
              var o := RegionalAt(w, s, k).value; k in w.downs[s].applied && KeyOf(k.resource, o) == k && (k.name == name ==> Reportable(w.reports, s, k, o))
  {
    hide DownClean;
    if k in w.downs[s].target { RegionalIsOwn(w, name, s, k); }
  }

  lemma UpObserveOk(w: World, name: string, s: string, k: Key)
    requires LoopOk(w, name)
    ensures LoopOk(Next(w, UpObserve(s, k)), name)
  {
    hide DownClean, UpClean, Busy, Step, Coupled, HubOk, FeedOk, InPlay, PoliciesOk, RegionalOk, HasOrigin, Reportable;
    if s in w.syncers {
      assert SyncerOk(w, name, s);
      RegionalIsReportable(w, name, s, k);
      UpSees(w.reports, s, name, w.downs[s].applied, w.ups[s], k, RegionalAt(w, s, k));
      UpChange(w, name, Next(w, UpObserve(s, k)), s, Step(w.ups[s], Observation(k, RegionalAt(w, s, k))));
    }
  }

  lemma RegionalReportOk(w: World, name: string, s: string, k: Key, status: Value)
    requires LoopOk(w, name)
    ensures LoopOk(Next(w, RegionalReport(s, k, status)), name)
  {
    hide DownClean, UpClean, Busy, InPlay, HubOk, FeedOk;
    if s in w.syncers && k in w.downs[s].target {
      var t := Next(w, RegionalReport(s, k, status));
      HubGrows(w, name, t);
      forall r | r in t.syncers ensures SyncerOk(t, name, r) {
        assert SyncerOk(w, name, r);
        AppliedIsUsers(w, name, r);
        UpCleanGrows(w.reports, t.reports, r, name, w.downs[r].applied, w.downs[r].applied, w.ups[r]);
      }
    }
  }

  lemma HubObserveOk(w: World, name: string, k: Key)
    requires LoopOk(w, name)
    ensures LoopOk(Next(w, HubObserve(k)), name)
  {
    hide DownClean, UpClean, Busy, InPlay, FeedOk, HubOk;
    if GlobalAt(w, k).Some? { GlobalOk(w, name, k); }
    PoliciesChange(w, name, Next(w, HubObserve(k)));
  }

  lemma LabelInPlace(o: Object)
    ensures forall resource :: KeyOf(resource, WithOrigin(o)) == KeyOf(resource, o)
    ensures HasOrigin(WithOrigin(o), o.meta.namespace)
  {
  }

  /** Only users' policies lack a label, while their name is not spoiled. */
  lemma UnlabelledIsUsers(w: World, k: Key)
    requires LoopOk(w, k.name) && k in w.hubCache && Decide(w.hubCache[k].obj) == NeedsLabel
    ensures k.namespace !in w.syncers
    ensures var o := WithOrigin(w.hubCache[k].obj); HubOk(w, k, o) && OriginAbsentOrOwn(o)
  {
    hide DownClean, UpClean, SyncerOk, InPlay, FeedOk;
    assert HubOk(w, k, w.hubCache[k].obj);
  }

  /** Labelling a policy cannot disturb a syncer. */
  lemma LabelOk(w: World, name: string, k: Key, accepted: bool)
    requires LoopOk(w, name) && k in w.hubCache && Decide(w.hubCache[k].obj) == NeedsLabel
    ensures LoopOk(LabelStep(w, k, accepted), name)
  {
    hide LoopOk, HasOrigin, WithOrigin, OriginAbsentOrOwn, LabelStep, Decide, HubOk;
    var o := WithOrigin(w.hubCache[k].obj);
    var w1 := w.(hubCache := w.hubCache[k := w.hubCache[k].(obj := o)]);
    LabelCachedOk(w, name, k, w1);
    LabelCases(w, k, accepted);
    if k.namespace in w.ups {
      if k.name == name { NotUnlabelled(w, k); }
      TouchOtherOk(w1, name, k, LabelsOf(o));
    } else if k in w.policies {
      LabelledPolicyOk(w1, name, k, o);
    }
  }

  lemma LabelCases(w: World, k: Key, accepted: bool)
    requires k in w.hubCache
    ensures var t, o := LabelStep(w, k, accepted), WithOrigin(w.hubCache[k].obj);
            var w1 := w.(hubCache := w.hubCache[k := w.hubCache[k].(obj := o)]);
            || t == w1
            || (k.namespace in w.ups && t == SetUp(w1, k.namespace, TouchStep(w.ups[k.namespace], k, LabelsOf(o))))
            || (k.namespace !in w.ups && k in w.policies && t == Store(w1, k, WithStatus(o, StatusOf(w.policies[k].obj))))
  {
    hide TouchStep, WithStatus, WithOrigin;
  }

  /** A copy that carries an origin needs no label. */
  lemma NotUnlabelled(w: World, k: Key)
    requires LoopOk(w, k.name) && k in w.hubCache && k.namespace in w.ups
    ensures Decide(w.hubCache[k].obj) != NeedsLabel
  {
    hide DownClean, UpClean, SyncerOk, InPlay, FeedOk, FeedsOk;
    assert HubOk(w, k, w.hubCache[k].obj);
  }

  /** The label set on the cached object only. */
  lemma LabelCachedOk(w: World, name: string, k: Key, w1: World)
    requires LoopOk(w, name) && k in w.hubCache && Decide(w.hubCache[k].obj) == NeedsLabel
    requires var cached := w.hubCache[k]; w1 == w.(hubCache := w.hubCache[k := cached.(obj := WithOrigin(cached.obj))])
    ensures LoopOk(w1, name)
    ensures var o := WithOrigin(w.hubCache[k].obj); KeyOf(k.resource, o) == k && HasOrigin(o, k.namespace) && (k.name == name ==> OriginAbsentOrOwn(o))
  {
    hide HubOk, FeedsOk, HasOrigin, WithOrigin, OriginAbsentOrOwn, DownClean, UpClean, Busy;
    LabelInPlace(w.hubCache[k].obj);
    if k.name == name { UnlabelledIsUsers(w, k); }
    forall s | s in w.syncers ensures Coupled(name, w.downs[s], w1.policies) { assert SyncerOk(w, name, s); }
    PoliciesChange(w, name, w1);
  }

  /** Labelling a copy of another name. */
  lemma TouchOtherOk(w: World, name: string, k: Key, labels: map<string, string>)
    requires LoopOk(w, name) && k.name != name && k.namespace in w.ups
    ensures LoopOk(SetUp(w, k.namespace, TouchStep(w.ups[k.namespace], k, labels)), name)
  {
    hide UpClean, TouchStep, FeedsOk, HubOk, PoliciesOk, DownClean, Coupled;
    var s := k.namespace;
    assert SyncerOk(w, name, s);
    TouchOtherClean(w.reports, s, name, w.downs[s].applied, w.ups[s], k, labels);
    UpChange(w, name, SetUp(w, s, TouchStep(w.ups[s], k, labels)), s, TouchStep(w.ups[s], k, labels));
  }

  lemma TouchOtherClean(reports: set<(string, Key, Value)>, s: string, name: string, base: set<Key>, u: State, k: Key, labels: map<string, string>)
    requires UpClean(reports, s, name, base, u) && k.name != name
    ensures UpClean(reports, s, name, base, TouchStep(u, k, labels))
  {
  }

  /** Labelling a user's policy, whose status stays. */
  lemma LabelledPolicyOk(w: World, name: string, k: Key, o: Object)
    requires LoopOk(w, name) && k in w.policies && KeyOf(k.resource, o) == k && HasOrigin(o, k.namespace) && (k.name == name ==> OriginAbsentOrOwn(o))
    ensures LoopOk(Store(w, k, WithStatus(o, StatusOf(w.policies[k].obj))), name)
  {
    hide LoopOk, FeedsOk, HasOrigin, OriginAbsentOrOwn, WithStatus, Busy;
    FeedsAre(w, name);
    StatusAside(k.resource, o, StatusOf(w.policies[k].obj), k.namespace);
    assert w.created + {k} == w.created;
    StoreOk(w, name, Store(w, k, WithStatus(o, StatusOf(w.policies[k].obj))), k);
  }

  /** The report of a cached copy goes to the policy it carries the origin of. */
  lemma ReportIsOk(w: World, k: Key)
    requires LoopOk(w, k.name) && CachedFeed(w, k).Some?
    ensures FeedOk(w, CachedFeed(w, k).value)
  {
    hide DownClean, UpClean, Busy, SyncerOk, FeedsOk;
    var o := w.hubCache[k].obj;
    assert HubOk(w, k, o);
    assert k.namespace in w.downs;
    assert OriginKey(k, o) == k.(namespace := Decide(o).origin);
    assert StatusOf(o) != Null;
  }

  /** Changing only what the controller's workers hold. */
  lemma WorkersChange(w: World, name: string, t: World)
    requires LoopOk(w, name) && FeedsOk(w, name, t.updaters, t.fed)
    requires t == w.(updaters := t.updaters, hubDirty := t.hubDirty, missed := t.missed)
    ensures LoopOk(t, name)
  {
    hide DownClean, UpClean, Busy, FeedsOk, HubOk;
    forall s | s in w.syncers ensures Coupled(name, w.downs[s], t.policies) { assert SyncerOk(w, name, s); }
    PoliciesChange(w, name, t);
  }

  lemma InPlayAfter(updaters: map<nat, Updater>, fed: map<Key, seq<Feed>>, worker: nat, up: Updater, g: Feed)
    requires InPlay(updaters[worker := up], fed, g)
    ensures InPlay(updaters, fed, g) || g == up.feed
  {
  }

  lemma ReconcileOk(w: World, name: string, worker: nat, k: Key, accepted: bool)
    requires LoopOk(w, name)
    ensures LoopOk(Next(w, HubReconcile(worker, k, accepted)), name)
  {
    hide LoopOk, FeedsOk, FeedOk, LabelStep, CachedFeed, Decide, Takes;
    if Takes(w, worker, k) {
      var taken := w.(hubDirty := w.hubDirty - {k}, missed := w.missed - {k});
      TakenOk(w, name, taken);
      if k !in w.hubCache {
      } else if Decide(w.hubCache[k].obj) == NeedsLabel {
        LabelOk(taken, name, k, accepted);
      } else if CachedFeed(w, k).Some? {
        if k.name == name { ReportIsOk(w, k); }
        CachedFeedNames(w, k);
        NewReportOk(taken, name, worker, Updater(CachedFeed(w, k).value, None, 0));
      }
    }
  }

  lemma TakenOk(w: World, name: string, taken: World)
    requires LoopOk(w, name) && taken == w.(hubDirty := taken.hubDirty, missed := taken.missed)
    ensures LoopOk(taken, name) && forall f :: FeedOk(taken, f) == FeedOk(w, f)
  {
    hide FeedsOk, SyncerOk, HubOk, PoliciesOk;
    WorkersChange(w, name, taken);
  }

  lemma CachedFeedNames(w: World, k: Key)
    requires CachedFeed(w, k).Some?
    ensures var f := CachedFeed(w, k).value; f.source == k && f.target.name == k.name && f.target.resource == k.resource
  {
  }

  lemma NewReportOk(w: World, name: string, worker: nat, up: Updater)
    requires LoopOk(w, name) && (up.feed.target.name == name ==> FeedOk(w, up.feed))
    ensures LoopOk(w.(updaters := w.updaters[worker := up]), name)
  {
    hide FeedOk, SyncerOk, HubOk, PoliciesOk, InPlay;
    var t := w.(updaters := w.updaters[worker := up]);
    forall f | InPlay(t.updaters, t.fed, f) && f.target.name == name ensures FeedOk(w, f) { InPlayAfter(w.updaters, w.fed, worker, up, f); }
    WorkersChange(w, name, t);
  }

  lemma ReportGetOk(w: World, name: string, worker: nat)
    requires LoopOk(w, name)
    ensures LoopOk(Next(w, ReportGet(worker)), name)
  {
    hide FeedOk, SyncerOk, HubOk, PoliciesOk;
    var t := Next(w, ReportGet(worker));
    assert forall f | InPlay(t.updaters, t.fed, f) :: InPlay(w.updaters, w.fed, f);
    WorkersChange(w, name, t);
  }

  lemma ReportWriteInPlay(w: World, worker: nat, accepted: bool, f: Feed)
    requires var t := ReportWriteStep(w, worker, accepted); InPlay(t.updaters, t.fed, f)
    ensures InPlay(w.updaters, w.fed, f)
  {
    hide NewStatus, WithStatus;
    if worker in w.updaters {
      if Commits(w, worker, accepted) {
        var up := w.updaters[worker];
        assert forall g | g in FeedsTo(w, up.feed.target) + [up.feed] :: g in FeedsTo(w, up.feed.target) || g == up.feed;
      } else {
        hide Commits;
      }
    }
  }

  /** Writing a report changes the status of its policy and nothing else on the hub. */
  lemma ReportWritePolicies(w: World, worker: nat, accepted: bool)
    ensures var t := ReportWriteStep(w, worker, accepted);
            && t.policies.Keys == w.policies.Keys
            && forall k | k in w.policies :: t.policies[k] == w.policies[k] || exists status :: t.policies[k].obj == WithStatus(w.policies[k].obj, status)
  {
    hide NewStatus, WithStatus;
  }

  lemma ReportWriteOk(w: World, name: string, worker: nat, accepted: bool)
    requires LoopOk(w, name)
    ensures LoopOk(ReportWriteStep(w, worker, accepted), name)
  {
    hide LoopOk, FeedOk, InPlay, HasOrigin, OriginAbsentOrOwn, WithStatus, Busy, NewStatus, RetryStep;
    var t := ReportWriteStep(w, worker, accepted);
    FeedsAre(w, name);
    forall f | InPlay(t.updaters, t.fed, f) && f.target.name == name ensures FeedOk(w, f) { ReportWriteInPlay(w, worker, accepted, f); }
    if Commits(w, worker, accepted) {
      var k, up := w.updaters[worker].feed.target, w.updaters[worker];
      StatusAside(k.resource, w.policies[k].obj, Dict(FieldsOf(NewStatus(up.held.value.obj, up.feed.report).value)), k.namespace);
      OriginsAre(w, name, k);
      assert w.created + {k} == w.created;
      hide FeedsOk;
      StoreOk(w, name, t, k);
    } else {
      hide FeedsOk, Commits;
      WorkersChange(w, name, t);
    }
  }

  lemma OriginsAre(w: World, name: string, k: Key)
    requires LoopOk(w, name) && k in w.policies
    ensures k.name == name ==> OriginAbsentOrOwn(w.policies[k].obj)
  {
  }

  lemma NextOk(w: World, name: string, m: Move)
    requires LoopOk(w, name) && name !in Next(w, m).spoiled
    ensures LoopOk(Next(w, m), name)
  {
    hide LoopOk, CreateStep, EditStep, DownObserveStep, DownInternalStep, RegionalReportStep, UpObserveStep, UpInternalStep, HubObserveStep;
    hide ReconcileStep, ReportGetStep, ReportWriteStep;
    match m
    case Create(obj) => CreateOk(w, name, obj);
    case Edit(obj) => EditOk(w, name, obj);
    case Remove(k) => RemoveOk(w, name, k);
    case DownObserve(s, k) => DownObserveOk(w, name, s, k);
    case DownStep(s, a) => DownStepOk(w, name, s, a);
    case RegionalReport(s, k, status) => RegionalReportOk(w, name, s, k, status);
    case UpObserve(s, k) => UpObserveOk(w, name, s, k);
    case UpStep(s, a) => UpStepOk(w, name, s, a);
    case HubObserve(k) => HubObserveOk(w, name, k);
    case HubReconcile(worker, k, accepted) => ReconcileOk(w, name, worker, k, accepted);
    case ReportGet(worker) => ReportGetOk(w, name, worker);
    case ReportWrite(worker, accepted) => ReportWriteOk(w, name, worker, accepted);
  }

  /** A spoiled name stays spoiled. */
  lemma SpoiledStays(w: World, m: Move)
    requires WellFormed(w)
    ensures w.spoiled <= Next(w, m).spoiled
  {
    hide CreateStep, EditStep, DownObserveStep, DownInternalStep, RegionalReportStep, UpObserveStep, UpInternalStep, HubObserveStep;
    hide ReconcileStep, ReportGetStep, ReportWriteStep;
  }

  lemma {:induction false} LoopKeeps(syncers: set<string>, moves: seq<Move>, name: string)
    requires "" !in syncers && name !in RunLoop(syncers, moves).spoiled
    ensures LoopOk(RunLoop(syncers, moves), name)
  {
    hide Next, LoopOk;
    if moves == [] {
      StartOk(syncers, name);
    } else {
      var most, m := moves[..|moves| - 1], moves[|moves| - 1];
      SpoiledStays(RunLoop(syncers, most), m);
      LoopKeeps(syncers, most, name);
      NextOk(RunLoop(syncers, most), name, m);
    }
  }

  lemma StartOk(syncers: set<string>, name: string)
    requires "" !in syncers
    ensures LoopOk(Start(syncers), name)
  {
    hide DownClean, UpClean, Busy;
    var w := Start(syncers);
    forall s | s in syncers ensures SyncerOk(w, name, s) {
      assert w.downs[s] == Init(Down, s) && w.ups[s] == Init(Up, s);
      InitClean(syncers, name, s);
    }
  }

  lemma InitClean(syncers: set<string>, name: string, s: string)
    ensures DownClean(syncers, name, {}, Init(Down, s)) && Coupled(name, Init(Down, s), map[])
    ensures UpClean({}, s, name, {}, Init(Up, s))
  {
  }

  // ------------------------------------------------------------------ theorems

  /** Some sequence of moves of users, controller, syncers and regional hubs leads to w. */
  ghost predicate Reachable(syncers: set<string>, w: World) {
    "" !in syncers && exists moves :: RunLoop(syncers, moves) == w
  }

  lemma ReachNext(syncers: set<string>, w: World, m: Move)
    requires Reachable(syncers, w)
    ensures WellFormed(w) && w.syncers == syncers && Reachable(syncers, Next(w, m))
  {
    hide Next;
    var moves :| RunLoop(syncers, moves) == w;
    assert (moves + [m])[..|moves|] == moves;
    assert RunLoop(syncers, moves + [m]) == Next(w, m);
  }


  lemma ReachableOk(syncers: set<string>, w: World, name: string)
    requires Reachable(syncers, w) && name !in w.spoiled
    ensures LoopOk(w, name) && w.syncers == syncers
  {
    hide LoopOk;
    var moves :| RunLoop(syncers, moves) == w;
    LoopKeeps(syncers, moves, name);
  }

  /**
   Provenance of copies, and no echo: whatever users, controller, syncers and regional hubs do, a
   policy in a syncer's namespace carries the label of a user's policy of its name that this syncer
   applied below, and no spec syncer ever queues it, holds it or applies it, as long as every user
   treated the policies of this name with care.
   */
  lemma CopiesCarryTheirOrigin(syncers: set<string>, w: World, s: string, k: Key)
    requires Reachable(syncers, w) && s in syncers && s in w.ups && k in w.ups[s].target && k.name !in w.spoiled
    ensures var o := w.ups[s].target[k].obj;
            && k.namespace == s && ORIGIN in LabelsOf(o) && !Eligible(o)
            && OriginKey(k, o).namespace !in syncers && OriginKey(k, o) in w.created
            && s in w.downs && OriginKey(k, o) in w.downs[s].applied
            && (forall r | r in syncers :: r in w.downs && !Busy(w.downs[r], k) && k !in w.downs[r].target)
  {
    hide DownClean, UpClean, Busy, Reachable;
    ReachableOk(syncers, w, k.name);
    assert SyncerOk(w, k.name, s);
    var o := w.ups[s].target[k].obj;
    CopyIsOk(w, s, k);
    AppliedIsUsers(w, k.name, s);
    assert UserKey(syncers, OriginKey(k, o));
    forall r | r in syncers ensures r in w.downs && !Busy(w.downs[r], k) && k !in w.downs[r].target {
      assert SyncerOk(w, k.name, r);
      if Busy(w.downs[r], k) { BusyIsUsers(w, r, k); }
      if k in w.downs[r].target { RegionalIsOwn(w, k.name, r, k); AppliedIsUsers(w, k.name, r); }
    }
  }
}
