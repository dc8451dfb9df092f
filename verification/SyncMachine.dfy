/**
 A syncer controller as a state machine: the informer cache and its undelivered notifications,
 the work queue, any number of workers, and the hub being written to. Every atomic step of the
 program is one action; the choices the program does not make (which event arrives, how a
 request ends, which worker moves) are the action's arguments, so a sequence of actions is one
 interleaving and `Run` ranges over all of them. An action that is not enabled changes nothing.
 */
module SyncMachine {
  import opened Options
  import opened KubeObjects

  datatype Direction = Down | Up

  /** A queue key: the resource kind, and the object's namespace and name. */
  datatype Key = Key(resource: string, namespace: string, name: string)

  const POLICIES := "policies"
  const CRDS := "customresourcedefinitions"
  const ADDONS := "clustermanagementaddons"
  const HUB_CRD := "managedclusters.cluster.open-cluster-management.io"

  /** An informer event on its way to the handlers. */
  datatype Notification =
    | Added(resource: string, obj: Object)
    | Updated(resource: string, prior: Object, obj: Object)
    | Deleted(resource: string, obj: Object)

  function KeyOf(resource: string, o: Object): Key {
    Key(resource, o.meta.namespace, o.meta.name)
  }

  function Subject(n: Notification): Key {
    KeyOf(n.resource, n.obj)
  }

  /** The handlers' filter on a single object. */
  predicate Wanted(dir: Direction, resource: string, o: Object) {
    match dir
    case Up => resource == CRDS ==> o.meta.name == HUB_CRD
    case Down => Eligible(o)
  }

  /** The handlers' test for an update that need not be synced. */
  predicate Unchanged(dir: Direction, a: Object, b: Object) {
    match dir
    case Up => StatusOf(a) == StatusOf(b)
    case Down => EssenceOf(a) == EssenceOf(b)
  }

  predicate Enqueues(dir: Direction, n: Notification) {
    Wanted(dir, n.resource, n.obj) && (n.Updated? ==> !Unchanged(dir, n.prior, n.obj))
  }

  /** Resources whose changes only refresh the hub's own record and make no copy. */
  predicate HubOnly(resource: string) {
    resource == CRDS || resource == ADDONS
  }

  /** How far a worker has got with the key it holds. */
  datatype Phase =
    | Taken                                        // the key was taken from the queue
    | Read(view: Option<Object>)                   // the cache was read
    | Fetched(obj: Object, version: Option<nat>)   // the existing upstream copy was looked up
    | Patched(obj: Object)                         // a new upstream copy was applied, its status not yet
    | Written(ok: bool)                            // processing returned
    | Reported(ok: bool)                           // Forget or AddRateLimited was called

  datatype Job = Job(key: Key, phase: Phase)

  /** An object in the target store with its resource version. */
  datatype Stored = Stored(obj: Object, version: nat)

  datatype Op = Got | Processed(ok: bool) | Forgot | ReAdded | Finished

  datatype State = State(
    dir: Direction,
    syncer: string,
    cache: map<Key, Object>,
    inbox: seq<Notification>,
    queue: seq<Key>,
    dirty: set<Key>,
    processing: set<Key>,
    waiting: set<Key>,
    jobs: map<nat, Job>,
    target: map<Key, Stored>,
    namespaces: set<string>,
    // History, never read by the program:
    seen: set<Key>,           // keys the informer has ever held
    gone: set<Key>,           // keys whose object was eligible when it left, and has not returned
    applied: set<Key>,        // keys ever applied to the target
    dropped: set<Key>,        // keys whose latest attempt swallowed an apply error
    log: seq<(Key, Op)>)      // calls on the work queue made by workers, and results

  function Init(dir: Direction, syncer: string): State {
    State(dir, syncer, map[], [], [], {}, {}, {}, map[], map[], {}, {}, {}, {}, {}, [])
  }

  /** How a write request ends; `Lost` is an error reported although the write took effect. */
  datatype Outcome = Accepted | NamespaceRefused | Refused | Lost

  datatype Action =
    | Observe(resource: string, obj: Object)
    | ObserveDelete(key: Key)
    | Deliver(index: nat)
    | Get(w: nat)
    | ReadCache(w: nat, failed: bool)
    | Fetch(w: nat, failed: bool)
    | Write(w: nat, outcome: Outcome)
    | Report(w: nat)
    | Done(w: nat)
    | TimerFires(key: Key)
    | Touch(key: Key, labels: map<string, string>)

  /** Where the copy of an object is kept in the target store. */
  function TargetKey(s: State, k: Key): Key {
    match s.dir
    case Down => k
    case Up => if |k.namespace| > 0 then k.(namespace := s.syncer) else k
  }

  function Lookup<T>(m: map<Key, T>, k: Key): Option<T> {
    if k in m then Some(m[k]) else None
  }

  function Copy(s: State, k: Key): Option<Object> {
    if TargetKey(s, k) in s.target then Some(s.target[TargetKey(s, k)].obj) else None
  }

  function NextVersion(s: State, k: Key): nat {
    if k in s.target then s.target[k].version + 1 else 0
  }

  // ------------------------------------------------------------------- steps

  /** Add of the work queue: nothing if already dirty; not queued while being processed. */
  function Enqueue(s: State, k: Key): State {
    if k in s.dirty then s
    else s.(dirty := s.dirty + {k}, queue := if k in s.processing then s.queue else s.queue + [k])
  }

  function ObserveStep(s: State, resource: string, obj: Object): State {
    var k := KeyOf(resource, obj);
    var n := if k in s.cache then Updated(resource, s.cache[k], obj) else Added(resource, obj);
    s.(cache := s.cache[k := obj], inbox := s.inbox + [n], gone := s.gone - {k}, seen := s.seen + {k})
  }

  function ObserveDeleteStep(s: State, k: Key): State {
    if k !in s.cache then s
    else s.(cache := s.cache - {k}, inbox := s.inbox + [Deleted(k.resource, s.cache[k])],
            gone := if Eligible(s.cache[k]) then s.gone + {k} else s.gone)
  }

  function DeliverStep(s: State, i: nat): State {
    if i >= |s.inbox| then s
    else
      var n := s.inbox[i];
      var rest := s.(inbox := s.inbox[..i] + s.inbox[i + 1..]);
      if Enqueues(s.dir, n) then Enqueue(rest, Subject(n)) else rest
  }

  function GetStep(s: State, w: nat): State {
    if w in s.jobs || s.queue == [] then s
    else
      var k := s.queue[0];
      s.(queue := s.queue[1..], dirty := s.dirty - {k}, processing := s.processing + {k},
         jobs := s.jobs[w := Job(k, Taken)], dropped := s.dropped - {k}, log := s.log + [(k, Got)])
  }

  function Advance(s: State, w: nat, phase: Phase): State
    requires w in s.jobs
  {
    s.(jobs := s.jobs[w := Job(s.jobs[w].key, phase)])
  }

  /** Processing of worker w's key returns, with or without an error. */
  function Finish(s: State, w: nat, ok: bool): State
    requires w in s.jobs
  {
    Advance(s, w, Written(ok)).(log := s.log + [(s.jobs[w].key, Processed(ok))])
  }

  /** The lookup of the cached object; up-sync of an absent object is an error. */
  function ReadStep(s: State, w: nat, failed: bool): State {
    if w !in s.jobs || !s.jobs[w].phase.Taken? then s
    else
      var view := Lookup(s.cache, s.jobs[w].key);
      if failed || (s.dir == Up && view.None?) then Finish(s, w, false) else Advance(s, w, Read(view))
  }

  /** The lookup of the upstream copy, always made in the syncer's namespace. */
  function FetchStep(s: State, w: nat, failed: bool): State {
    if w !in s.jobs || s.dir == Down || !s.jobs[w].phase.Read? || s.jobs[w].phase.view.None? || HubOnly(s.jobs[w].key.resource) then s
    else if failed then Finish(s, w, false)
    else
      var k := s.jobs[w].key;
      var tk := TargetKey(s, k);
      Advance(s, w, Fetched(s.jobs[w].phase.view.value,
                            if |k.namespace| > 0 && tk in s.target then Some(s.target[tk].version) else None))
  }

  function Put(s: State, k: Key, obj: Object): State {
    s.(target := s.target[k := Stored(obj, NextVersion(s, k))], applied := s.applied + {k})
  }

  /** Sync-down of an existing object: make sure of the namespace, then apply the configuration. */
  function ApplyDown(s: State, w: nat, obj: Object, outcome: Outcome): State
    requires w in s.jobs
  {
    var k := s.jobs[w].key;
    if outcome == NamespaceRefused then Finish(s, w, false)
    else
      var s1 := s.(namespaces := s.namespaces + {k.namespace});
      if outcome == Refused then Finish(s1, w, false)
      else Finish(Put(s1, k, Stripped(obj, k.namespace)), w, outcome == Accepted)
  }

  /** Sync-down of an absent object: deleting what is not there is an error. */
  function DeleteDown(s: State, w: nat, outcome: Outcome): State
    requires w in s.jobs
  {
    var k := s.jobs[w].key;
    if k !in s.target || outcome == Refused || outcome == NamespaceRefused then Finish(s, w, false)
    else Finish(s.(target := s.target - {k}), w, outcome == Accepted)
  }

  /** Processing of worker w's key returns without an error although a request failed. */
  function Swallow(s: State, w: nat): State
    requires w in s.jobs
  {
    Finish(s.(dropped := s.dropped + {s.jobs[w].key}), w, true)
  }

  /** The first of two patches that make an upstream copy: the object, whose status is not touched. */
  function ApplyUp(s: State, w: nat, obj: Object, outcome: Outcome): State
    requires w in s.jobs
  {
    var tk := TargetKey(s, s.jobs[w].key);
    var oldStatus := if tk in s.target then StatusOf(s.target[tk].obj) else Null;
    var s1 := Put(s, tk, WithStatus(Stripped(obj, tk.namespace), oldStatus));
    match outcome
    case Accepted => Advance(s1, w, Patched(obj))
    case Lost => Swallow(s1, w)
    case _ => Swallow(s, w)
  }

  /** The second patch: the status, whatever the copy's version; an error is swallowed, also one reported although it took effect. */
  function ApplyStatusUp(s: State, w: nat, obj: Object, outcome: Outcome): State
    requires w in s.jobs
  {
    var tk := TargetKey(s, s.jobs[w].key);
    if tk !in s.target || outcome == Refused || outcome == NamespaceRefused then Swallow(s, w)
    else
      var s1 := s.(target := s.target[tk := Stored(WithStatus(s.target[tk].obj, StatusOf(obj)), NextVersion(s, tk))]);
      Finish(s1, w, true)
  }

  /** Status update of an existing upstream copy; a stale version is rejected. */
  function UpdateUp(s: State, w: nat, obj: Object, version: nat, outcome: Outcome): State
    requires w in s.jobs
  {
    var tk := TargetKey(s, s.jobs[w].key);
    if tk !in s.target || s.target[tk].version != version || outcome == Refused || outcome == NamespaceRefused then Finish(s, w, false)
    else
      var copy := WithStatus(s.target[tk].obj, StatusOf(obj));
      Finish(s.(target := s.target[tk := Stored(copy, version + 1)]), w, outcome == Accepted)
  }

  function WriteStep(s: State, w: nat, outcome: Outcome): State {
    if w !in s.jobs then s
    else match s.jobs[w].phase
      case Read(Some(obj)) =>
        if s.dir == Down then ApplyDown(s, w, obj, outcome)
        else if HubOnly(s.jobs[w].key.resource) then Finish(s, w, outcome == Accepted)
        else s
      case Read(None) => if s.dir == Down then DeleteDown(s, w, outcome) else s
      case Fetched(obj, None) => if s.dir == Up then ApplyUp(s, w, obj, outcome) else s
      case Fetched(obj, Some(version)) => if s.dir == Up then UpdateUp(s, w, obj, version, outcome) else s
      case Patched(obj) => if s.dir == Up then ApplyStatusUp(s, w, obj, outcome) else s
      case _ => s
  }

  function ReportStep(s: State, w: nat): State {
    if w !in s.jobs || !s.jobs[w].phase.Written? then s
    else
      var k, ok := s.jobs[w].key, s.jobs[w].phase.ok;
      var s1 := Advance(s, w, Reported(ok)).(log := s.log + [(k, if ok then Forgot else ReAdded)]);
      if ok then s1 else s1.(waiting := s1.waiting + {k})
  }

  function DoneStep(s: State, w: nat): State {
    if w !in s.jobs || !s.jobs[w].phase.Reported? then s
    else
      var k := s.jobs[w].key;
      s.(processing := s.processing - {k}, jobs := s.jobs - {w}, log := s.log + [(k, Finished)],
         queue := if k in s.dirty then s.queue + [k] else s.queue)
  }

  function TimerStep(s: State, k: Key): State {
    if k !in s.waiting then s else Enqueue(s.(waiting := s.waiting - {k}), k)
  }

  /** Another writer relabels an upstream copy. */
  function TouchStep(s: State, k: Key, labels: map<string, string>): State {
    if s.dir == Down || k !in s.target then s
    else s.(target := s.target[k := Stored(WithLabels(s.target[k].obj, labels), s.target[k].version + 1)])
  }

  function Step(s: State, a: Action): State {
    match a
    case Observe(resource, obj) => ObserveStep(s, resource, obj)
    case ObserveDelete(k) => ObserveDeleteStep(s, k)
    case Deliver(i) => DeliverStep(s, i)
    case Get(w) => GetStep(s, w)
    case ReadCache(w, failed) => ReadStep(s, w, failed)
    case Fetch(w, failed) => FetchStep(s, w, failed)
    case Write(w, outcome) => WriteStep(s, w, outcome)
    case Report(w) => ReportStep(s, w)
    case Done(w) => DoneStep(s, w)
    case TimerFires(k) => TimerStep(s, k)
    case Touch(k, labels) => TouchStep(s, k, labels)
  }

  function Run(s: State, actions: seq<Action>): State {
    if actions == [] then s else Step(Run(s, actions[..|actions| - 1]), actions[|actions| - 1])
  }

  lemma RunAppend(s: State, actions: seq<Action>, a: Action)
    ensures Run(s, actions + [a]) == Step(Run(s, actions), a)
  {
  }

  /** Steps a syncer takes by itself: not events, not other writers. */
  predicate Internal(a: Action) {
    !a.Observe? && !a.ObserveDelete? && !a.Touch?
  }

  /** The informer sees an object under k. */
  predicate Observes(a: Action, k: Key) {
    a.Observe? && KeyOf(a.resource, a.obj) == k
  }

  /** The syncer can get from s to t by itself. */
  ghost predicate Leads(s: State, t: State) {
    exists actions :: (forall a | a in actions :: Internal(a)) && Run(s, actions) == t
  }

  /** The syncer can get from s to t, whatever else happens, without seeing k again. */
  ghost predicate Continues(s: State, t: State, k: Key) {
    exists actions :: (forall a | a in actions :: !Observes(a, k)) && Run(s, actions) == t
  }

  /** The syncer can get from s to t, whatever else happens. */
  ghost predicate Follows(s: State, t: State) {
    exists actions :: Run(s, actions) == t
  }

  lemma {:induction false} RunOn(s: State, first: seq<Action>, second: seq<Action>)
    ensures Run(s, first + second) == Run(Run(s, first), second)
  {
    hide Step;
    if second == [] {
      assert first + second == first;
    } else {
      var most, all := second[..|second| - 1], first + second;
      assert all[..|all| - 1] == first + most;
      RunOn(s, first, most);
    }
  }

  lemma FollowsLeads(s: State, t: State, a: Action, u: State)
    requires Follows(s, t) && Leads(Step(t, a), u)
    ensures Follows(s, u)
  {
    var first :| Run(s, first) == t;
    var second :| (forall b | b in second :: Internal(b)) && Run(Step(t, a), second) == u;
    RunAppend(s, first, a);
    RunOn(s, first + [a], second);
  }

  lemma LeadsNowhere(s: State)
    ensures Leads(s, s)
  {
    assert Run(s, []) == s;
  }

  lemma LeadsStep(s: State, t: State, a: Action)
    requires Leads(s, t) && Internal(a)
    ensures Leads(s, Step(t, a))
  {
    var actions :| (forall b | b in actions :: Internal(b)) && Run(s, actions) == t;
    RunAppend(s, actions, a);
    assert forall b | b in actions + [a] :: Internal(b);
  }

  lemma LeadsContinues(s: State, t: State, k: Key)
    requires Leads(s, t)
    ensures Continues(s, t, k)
  {
    var actions :| (forall a | a in actions :: Internal(a)) && Run(s, actions) == t;
    assert forall a | a in actions :: !Observes(a, k);
  }

  /** Some interleaving leads a syncer from its start to s. */
  ghost predicate Reachable(dir: Direction, syncer: string, s: State) {
    exists actions :: Run(Init(dir, syncer), actions) == s
  }

  lemma ReachInit(dir: Direction, syncer: string)
    ensures Reachable(dir, syncer, Init(dir, syncer))
  {
    assert Run(Init(dir, syncer), []) == Init(dir, syncer);
  }

  lemma ReachStep(dir: Direction, syncer: string, s: State, a: Action)
    requires Reachable(dir, syncer, s)
    ensures Reachable(dir, syncer, Step(s, a))
  {
    var actions :| Run(Init(dir, syncer), actions) == s;
    RunAppend(Init(dir, syncer), actions, a);
  }

  lemma {:induction false} RunReaches(dir: Direction, syncer: string, s: State, actions: seq<Action>)
    requires Reachable(dir, syncer, s)
    ensures Reachable(dir, syncer, Run(s, actions))
  {
    if actions != [] {
      RunReaches(dir, syncer, s, actions[..|actions| - 1]);
      ReachStep(dir, syncer, Run(s, actions[..|actions| - 1]), actions[|actions| - 1]);
    }
  }
}
