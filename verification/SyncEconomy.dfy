/**
 What a syncer does not do. Suppressing updates is to spare the hubs needless writes: a key that is
 at rest is not written again, nor queued, for updates that change nothing of what is synced,
 however many there are.
 */
module SyncEconomy {
  import opened KubeObjects
  import opened SyncMachine
  import opened SyncSoundness
  import opened SyncConvergence
  import opened SyncRuns
  import opened SyncEligibility
  import opened Handlers

  /** Whatever the informer sees of k is, for this direction, the same as o. */
  ghost predicate OnlySame(dir: Direction, o: Object, k: Key, a: Action) {
    (Observes(a, k) ==> SameFor(dir, o, a.obj)) && (a.ObserveDelete? ==> a.key != k)
  }

  /** The key is at rest, and what is cached of it is, for this direction, the same as o. */
  ghost predicate Unmoved(s: State, o: Object, k: Key) {
    Sound(s) && !Busy(s, k) && k in s.cache && SameFor(s.dir, o, s.cache[k])
  }

  lemma SameForIs(dir: Direction, a: Object, b: Object, c: Object)
    ensures SameFor(dir, a, a) && (SameFor(dir, a, b) && SameFor(dir, a, c) ==> SameFor(dir, b, c))
  {
    if dir == Down {
      hide SameBelow;
      EssenceIsSameBelow(a, a);
      EssenceIsSameBelow(a, b);
      EssenceIsSameBelow(a, c);
      EssenceIsSameBelow(b, c);
    }
  }

  lemma ObserveSame(s: State, o: Object, k: Key, resource: string, obj: Object)
    requires Unmoved(s, o, k) && (KeyOf(resource, obj) == k ==> SameFor(s.dir, o, obj))
    ensures Unmoved(ObserveStep(s, resource, obj), o, k)
  {
    hide SameFor, Sound, Enqueues;
    var t := ObserveStep(s, resource, obj);
    ObserveSound(s, resource, obj);
    assert forall n | n in t.inbox :: n in s.inbox || n == t.inbox[|s.inbox|];
    if KeyOf(resource, obj) == k {
      SameForIs(s.dir, o, s.cache[k], obj);
      EventsLetThrough(s.dir, resource, s.cache[k], obj);
    }
  }

  lemma DeleteOther(s: State, o: Object, k: Key, gone: Key)
    requires Unmoved(s, o, k) && gone != k
    ensures Unmoved(ObserveDeleteStep(s, gone), o, k)
  {
    hide SameFor, QueueSound, WorkersSound;
    var t := ObserveDeleteStep(s, gone);
    if gone in s.cache {
      assert forall n | n in t.inbox :: n in s.inbox || n == t.inbox[|s.inbox|];
      assert Subject(t.inbox[|s.inbox|]) == gone;
    }
    ObserveDeleteSound(s, gone);
  }

  lemma StepUnmoved(s: State, o: Object, k: Key, a: Action)
    requires Unmoved(s, o, k) && OnlySame(s.dir, o, k, a)
    ensures Unmoved(Step(s, a), o, k) && Step(s, a).dir == s.dir
  {
    hide SameFor, Sound, Busy, Unmoved;
    StepFrame(s, a) by { IsSound(s, o, k); }
    match a
    case Observe(resource, obj) => ObserveSame(s, o, k, resource, obj);
    case ObserveDelete(gone) => DeleteOther(s, o, k, gone);
    case Touch(touched, labels) => TouchUnmoved(s, o, k, touched, labels);
    case _ =>
      hide Step;
      IsSound(s, o, k);
      InternalFacts(s, a);
      CacheIsKept(s, a);
      InternalUnmoved(s, Step(s, a), o, k);
  }

  lemma IsSound(s: State, o: Object, k: Key)
    requires Unmoved(s, o, k)
    ensures Sound(s)
  {
  }

  lemma InternalUnmoved(s: State, t: State, o: Object, k: Key)
    requires Unmoved(s, o, k) && Sound(t) && t.dir == s.dir && t.cache == s.cache && (Busy(t, k) ==> Busy(s, k))
    ensures Unmoved(t, o, k)
  {
    hide SameFor, Sound;
  }

  lemma TouchUnmoved(s: State, o: Object, k: Key, touched: Key, labels: map<string, string>)
    requires Unmoved(s, o, k)
    ensures Unmoved(TouchStep(s, touched, labels), o, k)
  {
    hide SameFor;
  }

  lemma {:induction false} RunUnmoved(s: State, actions: seq<Action>, o: Object, k: Key)
    requires Unmoved(s, o, k) && forall a | a in actions :: OnlySame(s.dir, o, k, a)
    ensures var t := Run(s, actions);
            Unmoved(t, o, k) && t.dir == s.dir && (s.dir == Down ==> Lookup(t.target, k) == Lookup(s.target, k))
  {
    hide Unmoved, OnlySame, Step, Lookup;
    if actions != [] {
      var most, a := actions[..|actions| - 1], actions[|actions| - 1];
      assert a in actions && forall b | b in most :: b in actions;
      RunUnmoved(s, most, o, k);
      StepUnmoved(Run(s, most), o, k, a);
      if s.dir == Down { RestingIsNotWritten(Run(s, most), o, k, a); }
    }
  }

  lemma RestingIsNotWritten(s: State, o: Object, k: Key, a: Action)
    requires s.dir == Down && Unmoved(s, o, k)
    ensures Lookup(Step(s, a).target, k) == Lookup(s.target, k)
  {
    if Lookup(Step(s, a).target, k) != Lookup(s.target, k) { WriteNeedsLive(s, a, k); }
  }

  lemma DirectionStays(dir: Direction, syncer: string, s: State)
    requires Reachable(dir, syncer, s)
    ensures s.dir == dir
  {
    var actions :| Run(Init(dir, syncer), actions) == s;
    RunTracked(dir, syncer, actions, Key("", "", ""));
  }

  /**
   No needless work: once a key is at rest, it is never busy again, and its copy below not even
   rewritten, as long as all the informer sees of it agrees with what was cached on labels,
   annotations and content other than status (going down), or on the status (going up).
   */
  lemma NoNeedlessWrite(dir: Direction, syncer: string, s: State, actions: seq<Action>, k: Key)
    requires Reachable(dir, syncer, s) && !Busy(s, k) && k in s.cache
    requires forall a | a in actions ::
               && (a.Observe? && Key(a.resource, a.obj.meta.namespace, a.obj.meta.name) == k ==> SameFor(dir, s.cache[k], a.obj))
               && (a.ObserveDelete? ==> a.key != k)
    ensures var t := Run(s, actions); !Busy(t, k) && (dir == Down ==> Lookup(t.target, k) == Lookup(s.target, k))
  {
    hide Reachable, SameFor, Busy, Sound, Step;
    ReachableSound(dir, syncer, s);
    DirectionStays(dir, syncer, s);
    SameForIs(dir, s.cache[k], s.cache[k], s.cache[k]);
    RunUnmoved(s, actions, s.cache[k], k);
  }
}
