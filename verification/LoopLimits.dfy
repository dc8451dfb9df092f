/**
 Why a summary needs a name of its own. Two policies of one name that a syncer applied share one copy
 in the syncer's namespace, which keeps the label of the first and takes the status of the last:
 the loop then stores the second policy's counts in the first policy's summary.
 */
module LoopLimits {
  import opened Options
  import opened KubeObjects
  import opened Compliance
  import opened SyncMachine
  import opened SyncSoundness
  import opened SyncConvergence
  import opened SyncRuns
  import opened SyncLimits
  import opened PolicyController
  import opened ClosedLoop
  import opened Provenance
  import opened LoopConvergence
  import opened StoredSummaries

  // ----------------------------------------- runs of a syncer inside the loop

  /** What a spec syncer can do by itself, it can do in the loop. */
  lemma {:induction false} RunDown(syncers: set<string>, w: World, s: string, actions: seq<Action>) returns (t: World)
    requires Provenance.Reachable(syncers, w) && s in syncers && s in w.downs && forall a | a in actions :: Internal(a)
    ensures Provenance.Reachable(syncers, t) && t == w.(downs := w.downs[s := Run(w.downs[s], actions)], regional := t.regional)
  {
    hide Step, Next, Provenance.Reachable;
    t := w;
    if actions == [] {
      assert w.downs[s := w.downs[s]] == w.downs;
    } else {
      var most, a := actions[..|actions| - 1], actions[|actions| - 1];
      assert a in actions && forall b | b in most :: b in actions;
      var t1 := RunDown(syncers, w, s, most);
      ReachNext(syncers, t1, DownStep(s, a));
      t := Next(t1, DownStep(s, a));
      DownStepIs(t1, s, a);
    }
  }

  lemma DownStepIs(w: World, s: string, a: Action)
    requires WellFormed(w) && s in w.syncers && Internal(a)
    ensures var t := Next(w, DownStep(s, a)); t == w.(downs := w.downs[s := Step(w.downs[s], a)], regional := t.regional)
  {
    hide Step;
  }

  /** What a status syncer can do by itself, it can do in the loop. */
  lemma {:induction false} RunUp(syncers: set<string>, w: World, s: string, actions: seq<Action>) returns (t: World)
    requires Provenance.Reachable(syncers, w) && s in syncers && s in w.ups && forall a | a in actions :: Internal(a)
    ensures Provenance.Reachable(syncers, t) && t == w.(ups := w.ups[s := Run(w.ups[s], actions)])
  {
    hide Step, Next, Provenance.Reachable;
    t := w;
    if actions == [] {
      assert w.ups[s := w.ups[s]] == w.ups;
    } else {
      var most, a := actions[..|actions| - 1], actions[|actions| - 1];
      assert a in actions && forall b | b in most :: b in actions;
      var t1 := RunUp(syncers, w, s, most);
      ReachNext(syncers, t1, UpStep(s, a));
      t := Next(t1, UpStep(s, a));
      UpStepIs(t1, s, a);
    }
  }

  lemma UpStepIs(w: World, s: string, a: Action)
    requires WellFormed(w) && s in w.syncers && Internal(a)
    ensures Next(w, UpStep(s, a)) == w.(ups := w.ups[s := Step(w.ups[s], a)])
  {
    hide Step;
  }

  // ---------------------------------------------------------------- single legs

  /** A labelled policy, as it is in the world, is seen by a spec syncer for the first time and applied. */
  lemma DownLeg(syncers: set<string>, w: World, s: string, k: Key) returns (t: World)
    requires Provenance.Reachable(syncers, w) && s in syncers && s in w.downs && k in w.policies && k !in w.downs[s].cache
    requires Eligible(w.policies[k].obj)
    ensures Provenance.Reachable(syncers, t) && s in t.downs && t == w.(downs := t.downs, regional := t.regional)
    ensures t.downs[s].cache == w.downs[s].cache[k := w.policies[k].obj]
    ensures NowHolds(w.downs[s], t.downs[s], k, Stripped(w.policies[k].obj, k.namespace))
  {
    hide Step, Next, Provenance.Reachable, SyncMachine.Reachable, Sound, Eligible, NowHolds;
    var d, obj := w.downs[s], w.policies[k].obj;
    ReachNext(syncers, w, DownObserve(s, k));
    AnyPolicy(syncers, w);
    SyncersStayReachable(syncers, w, s);
    SeenDown(w, s, k);
    var w1 := Next(w, DownObserve(s, k));
    var e := DownRun(s, d, k, obj);
    t := LeadDown(syncers, w1, s, e);
  }

  lemma LeadDown(syncers: set<string>, w: World, s: string, d: State) returns (t: World)
    requires Provenance.Reachable(syncers, w) && s in syncers && s in w.downs && Leads(w.downs[s], d)
    ensures Provenance.Reachable(syncers, t) && t == w.(downs := w.downs[s := d], regional := t.regional)
  {
    hide Step, Provenance.Reachable;
    var actions :| (forall a | a in actions :: Internal(a)) && Run(w.downs[s], actions) == d;
    t := RunDown(syncers, w, s, actions);
  }

  lemma SeenDown(w: World, s: string, k: Key)
    requires WellFormed(w) && s in w.syncers && k in w.policies && UserKey(w.syncers, k)
    ensures var t := Next(w, DownObserve(s, k));
            t == w.(downs := w.downs[s := Step(w.downs[s], Observe(k.resource, w.policies[k].obj))], regional := t.regional)
  {
    hide Step;
  }

  lemma DownRun(s: string, d: State, k: Key, obj: Object) returns (e: State)
    requires SyncMachine.Reachable(Down, s, d) && KeyOf(k.resource, obj) == k && k !in d.cache && Eligible(obj)
    ensures Leads(Step(d, Observe(k.resource, obj)), e) && e.cache == d.cache[k := obj] && NowHolds(d, e, k, Stripped(obj, k.namespace))
  {
    hide SyncMachine.Reachable, Sound, Leads, Eligible;
    DownSettles(s, d, k);
    ReachableSound(Down, s, d);
    var d1 := Step(d, Observe(k.resource, obj));
    StepSound(d, Observe(k.resource, obj));
    NewObjectIsPending(d, k.resource, obj);
    LeadsNowhere(d1);
    e := ProcessDown(d1, d1, k);
  }

  /** What the status syncer makes of a policy's copy when the policy is seen with this status. */
  function CopyAfter(target: map<Key, Stored>, tk: Key, obj: Object): Object {
    if tk in target then WithStatus(target[tk].obj, StatusOf(obj)) else WithStatus(WithStatus(Stripped(obj, tk.namespace), Null), StatusOf(obj))
  }

  /** A policy on the regional hub is seen by the status syncer for the first time and reported. */
  lemma UpLeg(syncers: set<string>, w: World, s: string, k: Key) returns (t: World)
    requires Provenance.Reachable(syncers, w) && s in syncers && s in w.downs && s in w.ups && s in w.regional
    requires k in w.downs[s].target && k !in w.ups[s].cache && !Busy(w.ups[s], k) && k.resource == POLICIES && |k.namespace| > 0
    ensures Provenance.Reachable(syncers, t) && s in t.ups && t == w.(ups := w.ups[s := t.ups[s]])
    ensures RegionalAt(w, s, k).Some? && t.ups[s].cache == w.ups[s].cache[k := RegionalAt(w, s, k).value]
    ensures var tk := Key(POLICIES, s, k.name); NowHolds(w.ups[s], t.ups[s], tk, CopyAfter(w.ups[s].target, tk, RegionalAt(w, s, k).value))
    ensures forall x | x != k && !Busy(w.ups[s], x) :: !Busy(t.ups[s], x)
  {
    hide Step, Next, Provenance.Reachable, SyncMachine.Reachable, NowHolds, Busy, RegionalAt, CopyAfter, Leads;
    ReachNext(syncers, w, UpObserve(s, k));
    AnySyncer(syncers, w, s);
    SyncersStayReachable(syncers, w, s);
    SeenUp(w, s, k);
    var u := UpRun(s, w.ups[s], k, RegionalAt(w, s, k).value);
    t := LeadUp(syncers, Next(w, UpObserve(s, k)), s, u);
  }

  lemma LeadUp(syncers: set<string>, w: World, s: string, u: State) returns (t: World)
    requires Provenance.Reachable(syncers, w) && s in syncers && s in w.ups && Leads(w.ups[s], u)
    ensures Provenance.Reachable(syncers, t) && t == w.(ups := w.ups[s := u])
  {
    hide Step, Provenance.Reachable;
    var actions :| (forall a | a in actions :: Internal(a)) && Run(w.ups[s], actions) == u;
    t := RunUp(syncers, w, s, actions);
  }

  lemma UpRun(s: string, u: State, k: Key, obj: Object) returns (t: State)
    requires SyncMachine.Reachable(Up, s, u) && KeyOf(POLICIES, obj) == k && |k.namespace| > 0 && k !in u.cache && !Busy(u, k)
    ensures Leads(Step(u, Observe(POLICIES, obj)), t) && t.cache == u.cache[k := obj]
    ensures var tk := Key(POLICIES, s, k.name); NowHolds(u, t, tk, CopyAfter(u.target, tk, obj))
    ensures forall x | x != k && !Busy(u, x) :: !Busy(t, x)
  {
    hide Step, SyncMachine.Reachable, Sound, Busy, Leads, NowHolds;
    t := SyncUpOnce(s, u, obj);
    ReachableSound(Up, s, u);
    forall x | x != k && !Busy(u, x) ensures !Busy(t, x) {
      OthersStayIdle(u, t, POLICIES, obj, x);
    }
  }

  lemma SeenUp(w: World, s: string, k: Key)
    requires WellFormed(w) && s in w.syncers && k in w.downs[s].target && KeyOf(k.resource, w.downs[s].target[k].obj) == k && k.resource == POLICIES
    ensures RegionalAt(w, s, k).Some?
    ensures var obj := RegionalAt(w, s, k).value;
            && Next(w, UpObserve(s, k)) == w.(ups := w.ups[s := Step(w.ups[s], Observe(POLICIES, obj))])
            && KeyOf(POLICIES, obj) == k
  {
    hide Step;
  }

  // -------------------------------------------------------------- the whole run

  /** Two labelled policies of one name, in namespaces that are not syncers'. */
  predicate SameName(syncers: set<string>, a: Object, b: Object) {
    && a.meta.name == b.meta.name && a.meta.namespace != b.meta.namespace
    && |a.meta.namespace| > 0 && a.meta.namespace !in syncers && HasOrigin(a, a.meta.namespace)
    && |b.meta.namespace| > 0 && b.meta.namespace !in syncers && HasOrigin(b, b.meta.namespace)
  }

  /** Nothing has happened but the creation of policies. */
  predicate OnlyPolicies(syncers: set<string>, w: World, policies: map<Key, Object>) {
    && SyncersKept(Start(syncers), w) && w.updaters == map[] && w.fed == map[] && w.spoiled == {}
    && w.policies.Keys == policies.Keys && forall k | k in policies :: w.policies[k].obj == policies[k]
  }

  lemma CreateLeg(syncers: set<string>, w: World, policies: map<Key, Object>, obj: Object)
    requires Provenance.Reachable(syncers, w) && OnlyPolicies(syncers, w, policies)
    requires |obj.meta.namespace| > 0 && obj.meta.namespace !in syncers && HasOrigin(obj, obj.meta.namespace) && KeyOf(POLICIES, obj) !in policies
    ensures WellFormed(w)
    ensures var t := Next(w, Create(obj));
            Provenance.Reachable(syncers, t) && OnlyPolicies(syncers, t, policies[KeyOf(POLICIES, obj) := WithStatus(obj, Null)])
  {
    hide Provenance.Reachable, HasOrigin, WithStatus, Sources;
    ReachNext(syncers, w, Create(obj));
    assert MayCreate(w, obj) && CreatesWithCare(w, obj);
  }

  /** Both policies are created and applied below, and neither has been reported. */
  lemma BothApplied(syncers: set<string>, s: string, a: Object, b: Object) returns (w: World)
    requires "" !in syncers && s in syncers && SameName(syncers, a, b)
    ensures Provenance.Reachable(syncers, w) && s in w.downs && s in w.ups && s in w.regional
    ensures w.ups[s] == Init(Up, s) && w.reports == {} && w.updaters == map[] && w.fed == map[] && w.spoiled == {}
    ensures KeyOf(POLICIES, a) in w.policies
    ensures forall o | o == a || o == b ::
              var k := KeyOf(POLICIES, o); k in w.downs[s].target && w.downs[s].target[k].obj == Stripped(WithStatus(o, Null), k.namespace)
  {
    hide Provenance.Reachable, Next, WithStatus, Stripped;
    var ka, kb := KeyOf(POLICIES, a), KeyOf(POLICIES, b);
    var pa, pb := WithStatus(a, Null), WithStatus(b, Null);
    assert RunLoop(syncers, []) == Start(syncers);
    assert Provenance.Reachable(syncers, Start(syncers)) by { StartReachable(syncers); }
    CreateLeg(syncers, Start(syncers), map[], a);
    var w1 := Next(Start(syncers), Create(a));
    CreateLeg(syncers, w1, map[ka := pa], b);
    var w2 := Next(w1, Create(b));
    StatusAside(POLICIES, a, Null, ka.namespace);
    StatusAside(POLICIES, b, Null, kb.namespace);
    NamespaceKept(a);
    NamespaceKept(b);
    assert w2.downs[s] == Init(Down, s);
    var w3 := DownLeg(syncers, w2, s, ka);
    w := DownLeg(syncers, w3, s, kb);
    assert Lookup(w.downs[s].target, ka) == Lookup(w3.downs[s].target, ka);
    ReachNext(syncers, w, ReportGet(0));
  }

  lemma StartReachable(syncers: set<string>)
    requires "" !in syncers
    ensures Provenance.Reachable(syncers, Start(syncers))
  {
    assert RunLoop(syncers, []) == Start(syncers);
  }

  lemma NamespaceKept(o: Object)
    ensures Eligible(WithStatus(o, Null)) <==> Eligible(o)
  {
  }

  /** The first policy's copy carries the first one's origin and the second one's status. */
  lemma MixedCopy(syncers: set<string>, s: string, a: Object, b: Object, status: Value) returns (w: World)
    requires "" !in syncers && s in syncers && SameName(syncers, a, b)
    ensures Provenance.Reachable(syncers, w) && s in w.ups && KeyOf(POLICIES, a) in w.policies && w.updaters == map[] && w.fed == map[]
    ensures w.reports == {(s, KeyOf(POLICIES, b), status)} && w.spoiled == {}
    ensures var copy := Key(POLICIES, s, a.meta.name);
            && copy in w.ups[s].target && KeyOf(POLICIES, w.ups[s].target[copy].obj) == copy
            && HasOrigin(w.ups[s].target[copy].obj, a.meta.namespace) && StatusOf(w.ups[s].target[copy].obj) == status
  {
    hide Provenance.Reachable, Next, CopyAfter, Stripped, WithStatus;
    var ka, kb, copy := KeyOf(POLICIES, a), KeyOf(POLICIES, b), Key(POLICIES, s, a.meta.name);
    var w1 := BothApplied(syncers, s, a, b);
    ReachNext(syncers, w1, RegionalReport(s, kb, status));
    var w2 := Next(w1, RegionalReport(s, kb, status));
    RegionalReportIs(w1, s, kb, status);
    assert !Busy(w2.ups[s], ka) && !Busy(w2.ups[s], kb);
    var w3 := UpLeg(syncers, w2, s, ka);
    w := UpLeg(syncers, w3, s, kb);
    var first, second := RegionalAt(w2, s, ka).value, RegionalAt(w3, s, kb).value;
    var made := CopyAfter(w2.ups[s].target, copy, first);
    assert RegionalAt(w3, s, kb) == RegionalAt(w2, s, kb);
    assert w3.ups[s].target[copy].obj == made;
    StatusIsStored(w2.downs[s].target[kb].obj, status);
    FirstCopy(a, s, first, w2.ups[s].target, copy);
    SecondStatus(made, second, w3.ups[s].target, copy);
  }

  /** A first copy has the origin of what it copies. */
  lemma FirstCopy(a: Object, s: string, first: Object, target: map<Key, Stored>, copy: Key)
    requires copy == Key(POLICIES, s, a.meta.name) && copy !in target && HasOrigin(a, a.meta.namespace)
    requires exists status :: first == WithStatus(Stripped(WithStatus(a, Null), a.meta.namespace), status)
    ensures var made := CopyAfter(target, copy, first); KeyOf(POLICIES, made) == copy && HasOrigin(made, a.meta.namespace)
  {
  }

  /** A second report changes nothing but its status. */
  lemma SecondStatus(made: Object, second: Object, target: map<Key, Stored>, copy: Key)
    requires copy in target && target[copy].obj == made
    ensures var now := CopyAfter(target, copy, second);
            LabelsOf(now) == LabelsOf(made) && now.meta == made.meta && StatusOf(now) == StatusOf(second)
  {
  }

  lemma RegionalReportIs(w: World, s: string, k: Key, status: Value)
    requires WellFormed(w) && s in w.syncers && k in w.downs[s].target
    ensures var t := Next(w, RegionalReport(s, k, status));
            && t == w.(regional := t.regional, reports := w.reports + {(s, k, status)}) && s in t.regional
            && k in t.regional[s] && t.regional[s][k] == status
  {
  }

  /** A worker of the controller reports a cached copy to a policy without a summary. */
  lemma ReportLeg(syncers: set<string>, w: World, s: string, a: Object, copy: Key, states: seq<string>) returns (t: World)
    requires Provenance.Reachable(syncers, w) && s in syncers && s in w.ups && copy == Key(POLICIES, s, a.meta.name)
    requires KeyOf(POLICIES, a) in w.policies && w.updaters == map[] && w.fed == map[] && a.meta.namespace !in syncers
    requires copy in w.ups[s].target && KeyOf(POLICIES, w.ups[s].target[copy].obj) == copy && HasOrigin(w.ups[s].target[copy].obj, a.meta.namespace)
    requires var status := StatusOf(w.ups[s].target[copy].obj); Readable(status) && StatesOf(status) == Some(states)
    ensures Provenance.Reachable(syncers, t) && t.reports == w.reports && t.spoiled == w.spoiled && KeyOf(POLICIES, a) in t.policies
    ensures Reports(FeedsTo(t, KeyOf(POLICIES, a))) == [ReportOf(s, states)]
  {
    hide Provenance.Reachable, Next, StatesOf, ReportOf, Readable, HasOrigin, Reports, FeedsTo;
    var ka, o := KeyOf(POLICIES, a), w.ups[s].target[copy].obj;
    ReachNext(syncers, w, HubObserve(copy));
    var w1 := Next(w, HubObserve(copy));
    HubSees(w, s, copy);
    ReachNext(syncers, w1, HubReconcile(0, copy, true));
    CopyReports(o, s, a.meta.namespace, states);
    var feed := Feed(ka, ReportOf(s, states), copy, StatusOf(o));
    HubTakes(w1, copy, feed);
    t := WriteLeg(syncers, Next(w1, HubReconcile(0, copy, true)), feed);
  }

  lemma HubSees(w: World, s: string, copy: Key)
    requires WellFormed(w) && s in w.syncers && copy.namespace == s && copy in w.ups[s].target
    ensures var t := Next(w, HubObserve(copy));
            && t == w.(hubCache := t.hubCache, hubDirty := t.hubDirty) && copy in t.hubDirty
            && copy in t.hubCache && t.hubCache[copy] == w.ups[s].target[copy]
  {
  }

  lemma HubTakes(w: World, copy: Key, feed: Feed)
    requires WellFormed(w) && copy in w.hubDirty && copy in w.hubCache && w.updaters == map[]
    requires Decide(w.hubCache[copy].obj) == ReportTo(feed.target.namespace, feed.report)
    requires feed.target == copy.(namespace := feed.target.namespace) && feed.source == copy && feed.status == StatusOf(w.hubCache[copy].obj)
    ensures var t := Next(w, HubReconcile(0, copy, true));
            t == w.(updaters := map[0 := Updater(feed, None, 0)], hubDirty := t.hubDirty, missed := t.missed)
  {
    hide Decide, LabelStep;
  }

  /** A lone worker gets the policy and writes its report. */
  lemma WriteLeg(syncers: set<string>, w: World, feed: Feed) returns (t: World)
    requires Provenance.Reachable(syncers, w) && w.updaters == map[0 := Updater(feed, None, 0)] && w.fed == map[] && feed.target in w.policies
    ensures Provenance.Reachable(syncers, t) && t.reports == w.reports && t.spoiled == w.spoiled && feed.target in t.policies
    ensures Reports(FeedsTo(t, feed.target)) == [feed.report]
  {
    hide Provenance.Reachable, NewStatus, WithStatus, StoredSummary, Recomputed;
    ReachNext(syncers, w, ReportGet(0));
    var w1 := Next(w, ReportGet(0));
    assert w1.updaters[0] == Updater(feed, Some(w.policies[feed.target]), 0);
    StoredSummaryIsRecomputed(syncers, w1, feed.target);
    ReadableIsReconciled(w1, feed.target, feed.report);
    ReachNext(syncers, w1, ReportWrite(0, true));
    t := Next(w1, ReportWrite(0, true));
    assert FeedsTo(t, feed.target) == [feed];
  }

  lemma RecomputedFromOne(r: ClusterSummary)
    ensures Recomputed([r]).summaries == [r]
  {
    assert [r][..0] == [];
    assert Hubs([r]) == [r.name];
  }

  /**
   For any two labelled policies of one name and any status with counts there is a reachable world
   in which the summary stored in the first policy holds the counts of that status under the
   syncer's name, although the status was the second policy's and the first never had one there,
   and every user treated all policies with care.
   */
  lemma SharedNameMisreports(syncers: set<string>, s: string, a: Object, b: Object, status: Value, states: seq<string>) returns (w: World)
    requires "" !in syncers && s in syncers && SameName(syncers, a, b) && Readable(status) && StatesOf(status) == Some(states)
    ensures Provenance.Reachable(syncers, w) && KeyOf(POLICIES, a) in w.policies && w.spoiled == {}
    ensures StoredSummary(w, KeyOf(POLICIES, a)).Some? && StoredSummary(w, KeyOf(POLICIES, a)).value.summaries == [ReportOf(s, states)]
    ensures (s, KeyOf(POLICIES, b), status) in w.reports && forall v :: (s, KeyOf(POLICIES, a), v) !in w.reports
  {
    hide Provenance.Reachable, HasOrigin, Readable, StatesOf, ReportOf, StoredSummary, Recomputed, FeedsTo, Reports;
    var w1 := MixedCopy(syncers, s, a, b, status);
    w := ReportLeg(syncers, w1, s, a, Key(POLICIES, s, a.meta.name), states);
    StoredSummaryIsRecomputed(syncers, w, KeyOf(POLICIES, a));
    RecomputedFromOne(ReportOf(s, states));
  }
}
