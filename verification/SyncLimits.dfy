/**
 Where the guarantees of the syncer end. Each lemma builds, from every reachable state of the kind
 described and for every choice of objects, a run after which a key is at rest in a state a reader
 of the documentation would not expect.
 */
module SyncLimits {
  import opened KubeObjects
  import opened SyncMachine
  import opened SyncSoundness
  import opened SyncConvergence
  import opened SyncRuns

  /** A key at rest stays at rest when an event is filtered out. */
  lemma IgnoreEvent(s: State, a: Action, k: Key)
    requires Sound(s) && !Busy(s, k) && (a.Observe? || a.ObserveDelete?)
    requires a.Observe? ==> KeyOf(a.resource, a.obj) == k && !Wanted(s.dir, a.resource, a.obj)
    requires a.ObserveDelete? ==> a.key == k && k in s.cache && !Wanted(s.dir, k.resource, s.cache[k])
    ensures !Busy(Step(s, a), k)
  {
    var t := Step(s, a);
    assert forall n | n in t.inbox :: n in s.inbox || n == t.inbox[|s.inbox|];
  }

  lemma NewObjectIsPending(s: State, resource: string, obj: Object)
    requires Wanted(s.dir, resource, obj) && KeyOf(resource, obj) !in s.cache
    ensures Pending(Step(s, Observe(resource, obj)), KeyOf(resource, obj))
  {
    var t := Step(s, Observe(resource, obj));
    var n := t.inbox[|s.inbox|];
    assert n == Added(resource, obj) && n in t.inbox;
  }

  /**
   From every reachable state that has not seen the object: it is seen labelled and applied, loses
   its label, is deleted, and its key is at rest with the copy still below.
   */
  lemma UnlabelledThenDeletedStays(syncer: string, s: State, resource: string, labelled: Object, bare: Object) returns (t: State)
    requires Reachable(Down, syncer, s) && KeyOf(resource, labelled) !in s.cache
    requires Eligible(labelled) && !Eligible(bare) && KeyOf(resource, labelled) == KeyOf(resource, bare)
    ensures Reachable(Down, syncer, t)
    ensures var k := KeyOf(resource, bare);
            k !in t.cache && !Busy(t, k) && k in t.target && EssenceOf(t.target[k].obj) == EssenceOf(labelled)
  {
    hide Reachable, Sound, Leads, Busy;
    var k := KeyOf(resource, bare);
    DownSettles(syncer, s, k);
    ReachableSound(Down, syncer, s);
    var s1 := Step(s, Observe(resource, labelled));
    ReachStep(Down, syncer, s, Observe(resource, labelled));
    StepSound(s, Observe(resource, labelled));
    NewObjectIsPending(s, resource, labelled);
    LeadsNowhere(s1);
    var s2 := ProcessDown(s1, s1, k);
    LeadsReaches(Down, syncer, s1, s2);
    StrippedKeepsEssence(labelled, k.namespace);
    var s3 := Step(s2, Observe(resource, bare));
    ReachStep(Down, syncer, s2, Observe(resource, bare));
    StepSound(s2, Observe(resource, bare));
    IgnoreEvent(s2, Observe(resource, bare), k);
    t := Step(s3, ObserveDelete(k));
    ReachStep(Down, syncer, s3, ObserveDelete(k));
    IgnoreEvent(s3, ObserveDelete(k), k);
  }

  lemma LeadsReaches(dir: Direction, syncer: string, s: State, t: State)
    requires SyncMachine.Reachable(dir, syncer, s) && Leads(s, t)
    ensures SyncMachine.Reachable(dir, syncer, t)
  {
    var actions :| (forall a | a in actions :: Internal(a)) && Run(s, actions) == t;
    RunReaches(dir, syncer, s, actions);
  }

  // ---------------------------------------------------------------- syncing up

  lemma UpIsUp(syncer: string, s: State)
    requires Reachable(Up, syncer, s)
    ensures s.dir == Up && s.syncer == syncer
  {
    var actions :| Run(Init(Up, syncer), actions) == s;
    RunTracked(Up, syncer, actions, Key("", "", ""));
  }

  /** A new policy is seen below and its status reported. */
  lemma SyncUpOnce(syncer: string, s: State, obj: Object) returns (t: State)
    requires Reachable(Up, syncer, s) && |obj.meta.namespace| > 0
    requires var k := KeyOf(POLICIES, obj); k !in s.cache && !Busy(s, k)
    ensures Reachable(Up, syncer, t) && t.dir == Up && t.syncer == syncer && t.cache == s.cache[KeyOf(POLICIES, obj) := obj]
    ensures Leads(Step(s, Observe(POLICIES, obj)), t) && !Busy(t, KeyOf(POLICIES, obj)) && KeyOf(POLICIES, obj) !in t.dropped
    ensures var tk := Key(POLICIES, syncer, obj.meta.name);
            NowHolds(s, t, tk, if tk in s.target then WithStatus(s.target[tk].obj, StatusOf(obj))
                               else WithStatus(WithStatus(Stripped(obj, syncer), Null), StatusOf(obj)))
  {
    hide Reachable, Sound, Leads;
    UpIsUp(syncer, s);
    ReachableSound(Up, syncer, s);
    var k := KeyOf(POLICIES, obj);
    var s1 := Step(s, Observe(POLICIES, obj));
    NewObjectIsPending(s, POLICIES, obj);
    ReachStep(Up, syncer, s, Observe(POLICIES, obj));
    StepSound(s, Observe(POLICIES, obj));
    LeadsNowhere(s1);
    t := ProcessUp(s1, s1, k);
    LeadsReaches(Up, syncer, s1, t);
  }

  lemma OthersStayIdle(s: State, t: State, resource: string, obj: Object, k: Key)
    requires Sound(s) && !Busy(s, k) && k != KeyOf(resource, obj) && Leads(Step(s, Observe(resource, obj)), t)
    ensures !Busy(t, k)
  {
    var s1 := Step(s, Observe(resource, obj));
    StepSound(s, Observe(resource, obj));
    assert forall n | n in s1.inbox :: n in s.inbox || n == s1.inbox[|s.inbox|];
    if Busy(t, k) { LeadsBusy(s1, t, k); }
  }

  /**
   Two policies of one name in different namespaces share one upstream copy: from every reachable
   state that has seen neither, whenever their statuses differ, both can be reported and the first
   one's key be at rest, with no error swallowed and another status in its copy.
   */
  lemma SharedNameLosesStatus(syncer: string, s: State, first: Object, second: Object) returns (t: State)
    requires Reachable(Up, syncer, s)
    requires first.meta.name == second.meta.name && first.meta.namespace != second.meta.namespace
    requires |first.meta.namespace| > 0 && |second.meta.namespace| > 0 && StatusOf(first) != StatusOf(second)
    requires forall o | o == first || o == second :: KeyOf(POLICIES, o) !in s.cache && !Busy(s, KeyOf(POLICIES, o))
    ensures Reachable(Up, syncer, t)
    ensures var k := KeyOf(POLICIES, first);
            && !Busy(t, k) && k in t.cache && t.cache[k] == first
            && TargetKey(t, k) in t.target && StatusOf(t.target[TargetKey(t, k)].obj) != StatusOf(first)
  {
    hide Reachable, Sound, Leads, Busy;
    var k, j := KeyOf(POLICIES, first), KeyOf(POLICIES, second);
    ReachableSound(Up, syncer, s);
    assert KeyOf(POLICIES, first) !in s.cache && KeyOf(POLICIES, second) !in s.cache;
    var s1 := SyncUpOnce(syncer, s, first);
    OthersStayIdle(s, s1, POLICIES, first, j);
    ReachableSound(Up, syncer, s1);
    t := SyncUpOnce(syncer, s1, second);
    OthersStayIdle(s1, t, POLICIES, second, k);
  }

  /** From every reachable state without the policy and its copy: a refused first apply is swallowed, and the key rests unreported. */
  lemma SwallowedErrorLosesStatus(syncer: string, s: State, obj: Object) returns (t: State)
    requires Reachable(Up, syncer, s) && |obj.meta.namespace| > 0
    requires var k := KeyOf(POLICIES, obj); k !in s.cache && !Busy(s, k) && TargetKey(s, k) !in s.target
    ensures Reachable(Up, syncer, t)
    ensures var k := KeyOf(POLICIES, obj); !Busy(t, k) && k in t.cache && t.cache[k] == obj && TargetKey(t, k) !in t.target
  {
    hide Reachable, Sound, Leads;
    UpIsUp(syncer, s);
    ReachableSound(Up, syncer, s);
    var s1 := Step(s, Observe(POLICIES, obj));
    NewObjectIsPending(s, POLICIES, obj);
    ReachStep(Up, syncer, s, Observe(POLICIES, obj));
    StepSound(s, Observe(POLICIES, obj));
    LeadsNowhere(s1);
    t := SwallowUp(s1, s1, KeyOf(POLICIES, obj));
    LeadsReaches(Up, syncer, s1, t);
  }
}
