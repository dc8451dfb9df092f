/**
 No update is lost. The handlers drop events they judge irrelevant and workers act on snapshots
 that may be stale, yet in every reachable state the target is up to date with the cache for a
 key, or something still in motion will bring it up to date.
 */
module SyncConvergence {
  import opened Options
  import opened KubeObjects
  import opened SyncMachine
  import opened SyncSoundness

  /** An undelivered event that will put k in the queue. */
  ghost predicate EventPending(s: State, k: Key) {
    exists n :: n in s.inbox && Enqueues(s.dir, n) && Subject(n) == k
  }

  ghost predicate Pending(s: State, k: Key) {
    k in s.dirty || k in s.waiting || EventPending(s, k)
  }

  /** A key somewhere between an event let through and the end of its processing. */
  ghost predicate Busy(s: State, k: Key) {
    Pending(s, k) || k in s.processing
  }

  /**
   The view is what the target should hold for k. Down: the essence of the cached object if it
   is eligible, and nothing if it was eligible when it left. Up: the status of the cached object.
   */
  predicate Agrees(s: State, k: Key, view: Option<Object>) {
    match s.dir
    case Down =>
      && (k in s.cache && Eligible(s.cache[k]) ==> view.Some? && EssenceOf(view.value) == EssenceOf(s.cache[k]))
      && (k in s.gone ==> view.None?)
    case Up =>
      k in s.cache && !HubOnly(k.resource) ==> view.Some? && StatusOf(view.value) == StatusOf(s.cache[k])
  }

  /** The worker in this phase will leave the target in agreement, or will retry. */
  predicate PhaseAgrees(s: State, k: Key, phase: Phase) {
    match phase
    case Taken => true
    case Read(view) => Agrees(s, k, view)
    case Fetched(obj, _) => Agrees(s, k, Some(obj))
    case Patched(obj) => Agrees(s, k, Some(obj))
    case Written(ok) => ok ==> Agrees(s, k, Copy(s, k))
    case Reported(_) => Agrees(s, k, Copy(s, k))
  }

  ghost predicate Settled(s: State, k: Key) {
    && (k !in s.processing ==> Agrees(s, k, Copy(s, k)))
    && (forall w | w in s.jobs && s.jobs[w].key == k :: PhaseAgrees(s, k, s.jobs[w].phase))
  }

  ghost predicate Tracked(s: State, k: Key) {
    k in s.dropped || Pending(s, k) || Settled(s, k)
  }

  /** No other object ever seen is copied to the same place. Always so when syncing down. */
  ghost predicate OwnCopy(s: State, k: Key) {
    forall j | j in s.seen && TargetKey(s, j) == TargetKey(s, k) :: j == k
  }

  // ---------------------------------------------------------------- event steps

  /** A suppressed event leaves what the target should hold as it was. */
  lemma SuppressedKeepsAgreement(s: State, resource: string, obj: Object, view: Option<Object>)
    requires Sound(s)
    requires var t := ObserveStep(s, resource, obj); !Enqueues(s.dir, t.inbox[|s.inbox|])
    requires Agrees(s, KeyOf(resource, obj), view)
    ensures Agrees(ObserveStep(s, resource, obj), KeyOf(resource, obj), view)
  {
  }

  lemma InboxGrows(s: State, t: State, k: Key)
    requires EventPending(s, k) && t.dir == s.dir && s.inbox <= t.inbox
    ensures EventPending(t, k)
  {
  }

  /** A key stays settled if what its target should hold is no harder to meet. */
  lemma SettledCarries(s: State, t: State, k: Key)
    requires Settled(s, k) && t.dir == s.dir && t.syncer == s.syncer && t.jobs == s.jobs && t.processing == s.processing && t.target == s.target
    requires forall view | Agrees(s, k, view) :: Agrees(t, k, view)
    ensures Settled(t, k)
  {
  }

  lemma ObserveTracked(s: State, resource: string, obj: Object, k: Key)
    requires Sound(s) && Tracked(s, k)
    ensures Tracked(ObserveStep(s, resource, obj), k)
  {
    var t := ObserveStep(s, resource, obj);
    var n := t.inbox[|s.inbox|];
    if EventPending(s, k) {
      InboxGrows(s, t, k);
    } else if k == KeyOf(resource, obj) && Enqueues(s.dir, n) {
      assert n in t.inbox;
    } else if Settled(s, k) {
      forall view | Agrees(s, k, view) ensures Agrees(t, k, view) {
        if k == KeyOf(resource, obj) { SuppressedKeepsAgreement(s, resource, obj, view); }
      }
      SettledCarries(s, t, k);
    }
  }

  lemma ObserveDeleteTracked(s: State, gone: Key, k: Key)
    requires Sound(s) && Tracked(s, k)
    ensures Tracked(ObserveDeleteStep(s, gone), k)
  {
    hide QueueSound, WorkersSound;
    if gone in s.cache {
      var t := ObserveDeleteStep(s, gone);
      var n := t.inbox[|s.inbox|];
      if EventPending(s, k) {
        InboxGrows(s, t, k);
      } else if k == gone && Enqueues(s.dir, n) {
        assert n in t.inbox;
      } else if Settled(s, k) {
        assert forall view | Agrees(s, k, view) :: Agrees(t, k, view);
        SettledCarries(s, t, k);
      }
    }
  }

  lemma EnqueueTracked(s: State, queued: Key, k: Key)
    requires k == queued || Tracked(s, k)
    ensures Tracked(Enqueue(s, queued), k)
  {
  }

  /** Taking a notification out of the inbox only matters to the key it would enqueue. */
  lemma DropNotification(s: State, rest: State, i: nat, k: Key)
    requires i < |s.inbox| && rest == s.(inbox := s.inbox[..i] + s.inbox[i + 1..]) && Tracked(s, k)
    ensures Tracked(rest, k) || (Enqueues(s.dir, s.inbox[i]) && Subject(s.inbox[i]) == k)
  {
  }

  lemma DeliverTracked(s: State, i: nat, k: Key)
    requires Sound(s) && Tracked(s, k)
    ensures Tracked(DeliverStep(s, i), k)
  {
    if i < |s.inbox| {
      var rest := s.(inbox := s.inbox[..i] + s.inbox[i + 1..]);
      DropNotification(s, rest, i, k);
      if Enqueues(s.dir, s.inbox[i]) { EnqueueTracked(rest, Subject(s.inbox[i]), k); }
    }
  }

  lemma TimerTracked(s: State, fired: Key, k: Key)
    requires Sound(s) && Tracked(s, k)
    ensures Tracked(TimerStep(s, fired), k)
  {
    if fired in s.waiting {
      var rest := s.(waiting := s.waiting - {fired});
      assert EventPending(s, k) ==> EventPending(rest, k);
      EnqueueTracked(rest, fired, k);
    }
  }

  lemma TouchTracked(s: State, touched: Key, labels: map<string, string>, k: Key)
    requires Sound(s) && Tracked(s, k)
    ensures Tracked(TouchStep(s, touched, labels), k)
  {
  }

  // --------------------------------------------------------------- worker steps

  lemma GetTracked(s: State, w: nat, k: Key)
    requires Sound(s) && Tracked(s, k)
    ensures Tracked(GetStep(s, w), k)
  {
  }

  lemma DoneTracked(s: State, w: nat, k: Key)
    requires Sound(s) && Tracked(s, k)
    ensures Tracked(DoneStep(s, w), k)
  {
    hide QueueSound, KeysSound;
    var t := DoneStep(s, w);
    if t != s && k == s.jobs[w].key && Settled(s, k) {
      assert PhaseAgrees(s, k, s.jobs[w].phase);
    }
  }

  /** A worker's move does not disturb a key whose copy it leaves alone. */
  lemma MovedTracksOthers(s: State, t: State, w: nat, k: Key)
    requires Sound(s) && Tracked(s, k) && Moved(s, t, w) && s.dropped <= t.dropped
    requires k != s.jobs[w].key
    requires Copy(t, k) == Copy(s, k) || (s.dir == Up && k !in s.cache)
    ensures Tracked(t, k)
  {
  }

  /** A worker's move keeps track of its own key if agreement carries over to the new phase. */
  lemma MovedTracksOwn(s: State, t: State, w: nat)
    requires Sound(s) && Moved(s, t, w) && s.dropped <= t.dropped && Tracked(s, s.jobs[w].key)
    requires var k := s.jobs[w].key;
             PhaseAgrees(s, k, s.jobs[w].phase) ==> PhaseAgrees(t, k, t.jobs[w].phase) || k in t.dropped || k in t.waiting
    ensures Tracked(t, s.jobs[w].key)
  {
  }

  lemma SnapshotTracked(s: State, a: Action, k: Key)
    requires Sound(s) && Tracked(s, k) && (a.ReadCache? || a.Fetch?)
    ensures Tracked(Step(s, a), k)
  {
    hide EventPending;
    var t := Step(s, a);
    SnapshotMoves(s, a);
    if t != s {
      if k == s.jobs[a.w].key { MovedTracksOwn(s, t, a.w); } else { MovedTracksOthers(s, t, a.w, k); }
    }
  }

  lemma ReportTracked(s: State, w: nat, k: Key)
    requires Sound(s) && Tracked(s, k)
    ensures Tracked(ReportStep(s, w), k)
  {
    hide Sound, EventPending;
    var t := ReportStep(s, w);
    ReportMoves(s, w);
    if t != s {
      if k == s.jobs[w].key { MovedTracksOwn(s, t, w); } else { MovedTracksOthers(s, t, w, k); }
    }
  }

  /** From s to t, the target changed at most at `own`, and swallowed errors were only added, when syncing up. */
  ghost predicate OnlyAt(s: State, t: State, own: Key) {
    && t.dir == s.dir && t.syncer == s.syncer
    && (forall x | x != own :: x in t.target <==> x in s.target)
    && (forall x | x != own && x in s.target :: t.target[x] == s.target[x])
    && s.dropped <= t.dropped && (s.dir == Down ==> t.dropped == s.dropped)
  }

  lemma DownWritesOnlyAt(s: State, w: nat, obj: Object, outcome: Outcome)
    requires w in s.jobs
    ensures OnlyAt(s, ApplyDown(s, w, obj, outcome), s.jobs[w].key)
    ensures OnlyAt(s, DeleteDown(s, w, outcome), s.jobs[w].key)
  {
  }

  lemma ApplyUpOnlyAt(s: State, w: nat, obj: Object, outcome: Outcome)
    requires w in s.jobs && s.dir == Up
    ensures OnlyAt(s, ApplyUp(s, w, obj, outcome), TargetKey(s, s.jobs[w].key))
  {
  }

  lemma ApplyStatusUpOnlyAt(s: State, w: nat, obj: Object, outcome: Outcome)
    requires w in s.jobs && s.dir == Up
    ensures OnlyAt(s, ApplyStatusUp(s, w, obj, outcome), TargetKey(s, s.jobs[w].key))
  {
  }

  lemma UpdateUpOnlyAt(s: State, w: nat, obj: Object, version: nat, outcome: Outcome)
    requires w in s.jobs
    ensures OnlyAt(s, UpdateUp(s, w, obj, version, outcome), TargetKey(s, s.jobs[w].key))
  {
  }

  /** A write touches no copy but its own key's. */
  lemma WriteOnlyAt(s: State, w: nat, outcome: Outcome)
    requires w in s.jobs
    ensures OnlyAt(s, WriteStep(s, w, outcome), TargetKey(s, s.jobs[w].key))
  {
    match s.jobs[w].phase
    case Read(Some(obj)) => if s.dir == Down { DownWritesOnlyAt(s, w, obj, outcome); }
    case Read(None) => if s.dir == Down { DownWritesOnlyAt(s, w, Object(Meta("", "", "", "", None, None, map[]), map[]), outcome); }
    case Fetched(obj, None) => if s.dir == Up { ApplyUpOnlyAt(s, w, obj, outcome); }
    case Fetched(obj, Some(version)) => if s.dir == Up { UpdateUpOnlyAt(s, w, obj, version, outcome); }
    case Patched(obj) => if s.dir == Up { ApplyStatusUpOnlyAt(s, w, obj, outcome); }
    case _ =>
  }

  lemma ApplyDownAgrees(s: State, w: nat, obj: Object, outcome: Outcome)
    requires w in s.jobs && s.dir == Down && Agrees(s, s.jobs[w].key, Some(obj))
    ensures var t, k := ApplyDown(s, w, obj, outcome), s.jobs[w].key; w in t.jobs && PhaseAgrees(t, k, t.jobs[w].phase)
  {
  }

  lemma DeleteDownAgrees(s: State, w: nat, outcome: Outcome)
    requires w in s.jobs && s.dir == Down && Agrees(s, s.jobs[w].key, None)
    ensures var t, k := DeleteDown(s, w, outcome), s.jobs[w].key; w in t.jobs && PhaseAgrees(t, k, t.jobs[w].phase)
  {
  }

  lemma ApplyUpAgrees(s: State, w: nat, obj: Object, outcome: Outcome)
    requires w in s.jobs && s.dir == Up && Agrees(s, s.jobs[w].key, Some(obj))
    ensures var t, k := ApplyUp(s, w, obj, outcome), s.jobs[w].key;
            w in t.jobs && (PhaseAgrees(t, k, t.jobs[w].phase) || k in t.dropped)
  {
  }

  lemma ApplyStatusUpAgrees(s: State, w: nat, obj: Object, outcome: Outcome)
    requires w in s.jobs && s.dir == Up && Agrees(s, s.jobs[w].key, Some(obj))
    ensures var t, k := ApplyStatusUp(s, w, obj, outcome), s.jobs[w].key;
            w in t.jobs && (PhaseAgrees(t, k, t.jobs[w].phase) || k in t.dropped)
  {
  }

  lemma UpdateUpAgrees(s: State, w: nat, obj: Object, version: nat, outcome: Outcome)
    requires w in s.jobs && s.dir == Up && Agrees(s, s.jobs[w].key, Some(obj))
    ensures var t, k := UpdateUp(s, w, obj, version, outcome), s.jobs[w].key;
            w in t.jobs && PhaseAgrees(t, k, t.jobs[w].phase)
  {
  }

  /** A worker whose snapshot agrees with the cache leaves a copy that agrees, fails, or swallows an error. */
  lemma WriteAgrees(s: State, w: nat, outcome: Outcome)
    requires Sound(s) && w in s.jobs && PhaseAgrees(s, s.jobs[w].key, s.jobs[w].phase) && WriteStep(s, w, outcome) != s
    ensures var t, k := WriteStep(s, w, outcome), s.jobs[w].key;
            w in t.jobs && (PhaseAgrees(t, k, t.jobs[w].phase) || k in t.dropped)
  {
    match s.jobs[w].phase
    case Read(Some(obj)) => if s.dir == Down { ApplyDownAgrees(s, w, obj, outcome); }
    case Read(None) => if s.dir == Down { DeleteDownAgrees(s, w, outcome); }
    case Fetched(obj, None) => if s.dir == Up { ApplyUpAgrees(s, w, obj, outcome); }
    case Fetched(obj, Some(version)) => if s.dir == Up { UpdateUpAgrees(s, w, obj, version, outcome); }
    case Patched(obj) => if s.dir == Up { ApplyStatusUpAgrees(s, w, obj, outcome); }
    case _ =>
  }

  lemma WriteTracked(s: State, w: nat, outcome: Outcome, k: Key)
    requires Sound(s) && OwnCopy(s, k) && Tracked(s, k)
    ensures Tracked(WriteStep(s, w, outcome), k)
  {
    hide Agrees, EventPending;
    var t := WriteStep(s, w, outcome);
    WriteMoves(s, w, outcome);
    if t != s {
      var own := s.jobs[w].key;
      WriteOnlyAt(s, w, outcome);
      assert own in s.seen;
      if k == own {
        if PhaseAgrees(s, k, s.jobs[w].phase) { WriteAgrees(s, w, outcome); }
        MovedTracksOwn(s, t, w);
      } else {
        assert TargetKey(s, k) != TargetKey(s, own);
        assert Copy(t, k) == Copy(s, k);
        MovedTracksOthers(s, t, w, k);
      }
    }
  }

  lemma StepTracked(s: State, a: Action, k: Key)
    requires Sound(s) && OwnCopy(s, k) && Tracked(s, k)
    ensures Tracked(Step(s, a), k)
  {
    hide Sound, Tracked;
    match a
    case Observe(resource, obj) => ObserveTracked(s, resource, obj, k);
    case ObserveDelete(gone) => ObserveDeleteTracked(s, gone, k);
    case Deliver(i) => DeliverTracked(s, i, k);
    case Get(w) => GetTracked(s, w, k);
    case ReadCache(_, _) => SnapshotTracked(s, a, k);
    case Fetch(_, _) => SnapshotTracked(s, a, k);
    case Write(w, outcome) => WriteTracked(s, w, outcome, k);
    case Report(w) => ReportTracked(s, w, k);
    case Done(w) => DoneTracked(s, w, k);
    case TimerFires(fired) => TimerTracked(s, fired, k);
    case Touch(touched, labels) => TouchTracked(s, touched, labels, k);
  }

  /** Steps never change the direction or the syncer's name, and never forget a key. */
  lemma StepFrame(s: State, a: Action)
    requires Sound(s)
    ensures var t := Step(s, a);
            && t.dir == s.dir && t.syncer == s.syncer && s.seen <= t.seen
            && (s.dir == Down && s.dropped == {} ==> t.dropped == {})
  {
    hide Sound;
    match a
    case Write(w, outcome) => WriteMoves(s, w, outcome); if w in s.jobs { WriteOnlyAt(s, w, outcome); }
    case ReadCache(w, _) => SnapshotMoves(s, a);
    case Fetch(w, _) => SnapshotMoves(s, a);
    case Report(w) => ReportMoves(s, w);
    case Done(w) =>
    case _ =>
  }

  /** A copy that is shared stays so. */
  lemma OwnBefore(s: State, t: State, k: Key)
    requires t.dir == s.dir && t.syncer == s.syncer && s.seen <= t.seen && OwnCopy(t, k)
    ensures OwnCopy(s, k)
  {
  }

  /** What holds of a key after any run. */
  ghost predicate RunKeeps(dir: Direction, syncer: string, s: State, k: Key) {
    s.dir == dir && s.syncer == syncer && (dir == Down ==> s.dropped == {}) && (OwnCopy(s, k) ==> Tracked(s, k))
  }

  lemma StepKeeps(dir: Direction, syncer: string, s: State, a: Action, k: Key)
    requires Sound(s) && RunKeeps(dir, syncer, s, k)
    ensures RunKeeps(dir, syncer, Step(s, a), k)
  {
    hide Step, Sound, Tracked, OwnCopy;
    StepFrame(s, a);
    if OwnCopy(Step(s, a), k) {
      OwnBefore(s, Step(s, a), k);
      StepTracked(s, a, k);
    }
  }

  lemma {:induction false} RunTracked(dir: Direction, syncer: string, actions: seq<Action>, k: Key)
    ensures RunKeeps(dir, syncer, Run(Init(dir, syncer), actions), k)
  {
    hide Step, Sound;
    if actions == [] {
      InitKeeps(dir, syncer, k);
    } else {
      hide RunKeeps;
      RunTracked(dir, syncer, actions[..|actions| - 1], k);
      RunSound(dir, syncer, actions[..|actions| - 1]);
      StepKeeps(dir, syncer, Run(Init(dir, syncer), actions[..|actions| - 1]), actions[|actions| - 1], k);
    }
  }

  lemma InitKeeps(dir: Direction, syncer: string, k: Key)
    ensures RunKeeps(dir, syncer, Init(dir, syncer), k)
  {
  }

  // ------------------------------------------------------------------ theorems

  /** Some worker holds k and satisfies what the phase must satisfy. */
  ghost predicate InFlight(s: State, k: Key) {
    exists w :: w in s.jobs && s.jobs[w].key == k && PhaseAgrees(s, k, s.jobs[w].phase)
  }

  /**
   Sync-down never loses an update: in every reachable state an eligible cached object is
   pending, or held by a worker that has not read it, has read an agreeing version or is about
   to retry, or its downstream copy agrees on labels, annotations and non-status content.
   */
  lemma NoLostUpdate(syncer: string, s: State, k: Key)
    requires Reachable(Down, syncer, s) && k in s.cache && Eligible(s.cache[k])
    ensures Pending(s, k) || InFlight(s, k) || (k in s.target && EssenceOf(s.target[k].obj) == EssenceOf(s.cache[k]))
  {
    DownSettles(syncer, s, k);
  }

  /**
   Deletions are not lost: a key whose object was eligible when it left the cache, and has not
   returned, is pending, or in flight with its absence noticed or not yet read, or absent downstream.
   */
  lemma NoLostDeletion(syncer: string, s: State, k: Key)
    requires Reachable(Down, syncer, s) && k in s.gone
    ensures k !in s.cache && (Pending(s, k) || InFlight(s, k) || k !in s.target)
  {
    ReachableSound(Down, syncer, s);
    DownSettles(syncer, s, k);
  }

  lemma DownSettles(syncer: string, s: State, k: Key)
    requires Reachable(Down, syncer, s)
    ensures s.dir == Down && (Pending(s, k) || InFlight(s, k) || (k !in s.processing && Agrees(s, k, Copy(s, k))))
  {
    var actions :| Run(Init(Down, syncer), actions) == s;
    RunTracked(Down, syncer, actions, k);
    RunSound(Down, syncer, actions);
  }

  /**
   Status-up convergence of a cached object that shares its copy with no other observed one: its key
   had its last apply error swallowed, is pending, is in flight with an agreeing snapshot, or its
   copy in the syncer's namespace has the same status.
   */
  lemma NoLostStatus(syncer: string, s: State, k: Key)
    requires Reachable(Up, syncer, s) && OwnCopy(s, k) && k in s.cache && !HubOnly(k.resource)
    ensures || k in s.dropped
            || Pending(s, k)
            || InFlight(s, k)
            || (TargetKey(s, k) in s.target && StatusOf(s.target[TargetKey(s, k)].obj) == StatusOf(s.cache[k]))
  {
    var actions :| Run(Init(Up, syncer), actions) == s;
    RunTracked(Up, syncer, actions, k);
    RunSound(Up, syncer, actions);
  }

  /**
   A key at rest is synced, whatever the syncer is doing with other keys: an eligible object has
   its essence below, and nothing is left there of one that was deleted while eligible.
   */
  lemma RestingKeyIsSynced(syncer: string, s: State, k: Key)
    requires Reachable(Down, syncer, s) && !Busy(s, k)
    ensures k in s.cache && Eligible(s.cache[k]) ==> k in s.target && EssenceOf(s.target[k].obj) == EssenceOf(s.cache[k])
    ensures k in s.gone ==> k !in s.target
  {
    DownSettles(syncer, s, k);
    ReachableSound(Down, syncer, s);
    NotHeldNotInFlight(s, k);
  }

  /** The same for a status syncer, if the object shares its copy with no other and no apply error of it was swallowed. */
  lemma RestingStatusIsReported(syncer: string, s: State, k: Key)
    requires Reachable(Up, syncer, s) && OwnCopy(s, k) && k in s.cache && !HubOnly(k.resource)
    requires !Busy(s, k) && k !in s.dropped
    ensures TargetKey(s, k) in s.target && StatusOf(s.target[TargetKey(s, k)].obj) == StatusOf(s.cache[k])
  {
    hide Reachable, OwnCopy;
    NoLostStatus(syncer, s, k);
    ReachableSound(Up, syncer, s);
    NotHeldNotInFlight(s, k);
  }

  lemma NotHeldNotInFlight(s: State, k: Key)
    requires Sound(s) && k !in s.processing
    ensures !InFlight(s, k)
  {
  }

  /** Nothing is left to do: all events delivered, no key queued, held or waiting. */
  predicate Quiet(s: State) {
    s.inbox == [] && s.dirty == {} && s.waiting == {} && s.jobs == map[]
  }

  /** When a whole syncer comes to rest, every key is synced. */
  lemma QuietMeansSynced(syncer: string, s: State)
    requires Reachable(Down, syncer, s) && Quiet(s)
    ensures forall k | k in s.cache && Eligible(s.cache[k]) ::
              k in s.target && EssenceOf(s.target[k].obj) == EssenceOf(s.cache[k])
    ensures s.gone !! s.target.Keys
  {
    ReachableSound(Down, syncer, s);
    forall k
      ensures k in s.cache && Eligible(s.cache[k]) ==> k in s.target && EssenceOf(s.target[k].obj) == EssenceOf(s.cache[k])
      ensures k in s.gone ==> k !in s.target
    {
      QuietMeansResting(s, k);
      RestingKeyIsSynced(syncer, s, k);
    }
  }

  lemma QuietMeansResting(s: State, k: Key)
    requires Sound(s) && Quiet(s)
    ensures !Busy(s, k)
  {
  }

  // ------------------------------------------------------------- what is written

  /** A copy of an object in a namespace: name, labels, annotations and every field but the status. */
  predicate CopyOf(copy: Object, o: Object, namespace: string) {
    && copy.meta.name == o.meta.name && copy.meta.namespace == namespace
    && copy.meta.labels == o.meta.labels && copy.meta.annotations == o.meta.annotations
    && copy.content - {"status"} == o.content - {"status"}
  }

  /** Where the copy of a key is: under the same key going down, in the syncer's namespace going up. */
  function PlaceOf(s: State, k: Key): Key {
    if s.dir == Up && k.namespace != "" then Key(k.resource, s.syncer, k.name) else k
  }

  lemma DownWritten(s: State, w: nat, o: Object)
    requires w in s.jobs
    ensures var t, k := ApplyDown(s, w, o, Accepted), s.jobs[w].key;
            && k in t.target && t.target[k].obj.content == o.content
            && (KeyOf(k.resource, o) == k ==> CopyOf(t.target[k].obj, o, k.namespace))
    ensures s.jobs[w].key !in DeleteDown(s, w, Accepted).target
  {
  }

  lemma UpWritten(s: State, w: nat, o: Object, version: nat)
    requires w in s.jobs && s.dir == Up
    ensures var t, k := ApplyUp(s, w, o, Accepted), PlaceOf(s, s.jobs[w].key);
            k in t.target && StatusOf(t.target[k].obj) == (if k in s.target then StatusOf(s.target[k].obj) else Null)
            && (KeyOf(s.jobs[w].key.resource, o) == s.jobs[w].key ==> CopyOf(t.target[k].obj, o, k.namespace))
    ensures var t, k := UpdateUp(s, w, o, version, Accepted), PlaceOf(s, s.jobs[w].key);
            k in s.target && s.target[k].version == version ==>
              k in t.target && t.target[k].obj == s.target[k].obj.(content := s.target[k].obj.content["status" := StatusOf(o)])
    ensures var t, k := ApplyStatusUp(s, w, o, Accepted), PlaceOf(s, s.jobs[w].key);
            k in s.target ==> k in t.target && t.target[k].obj == s.target[k].obj.(content := s.target[k].obj.content["status" := StatusOf(o)])
  {
  }

  /**
   What each accepted write leaves, in full: a copy of the object below, or nothing there for an
   absent one; above, a new copy without the object's status, then that status and nothing else.
   Every other object on the hub stays as it is.
   */
  lemma WrittenInFull(s: State, w: nat)
    requires Sound(s) && w in s.jobs && WriteStep(s, w, Accepted) != s
    ensures var t, k := WriteStep(s, w, Accepted), PlaceOf(s, s.jobs[w].key);
            && (forall x | x != k :: Lookup(t.target, x) == Lookup(s.target, x))
            && match s.jobs[w].phase
               case Read(Some(o)) => s.dir == Down ==> k in t.target && CopyOf(t.target[k].obj, o, k.namespace)
               case Read(None) => k !in t.target
               case Fetched(o, None) =>
                 && k in t.target && CopyOf(t.target[k].obj, o, k.namespace)
                 && StatusOf(t.target[k].obj) == if k in s.target then StatusOf(s.target[k].obj) else Null
               case Fetched(o, Some(version)) =>
                 k in s.target && s.target[k].version == version ==>
                   k in t.target && t.target[k].obj == s.target[k].obj.(content := s.target[k].obj.content["status" := StatusOf(o)])
               case Patched(o) =>
                 k in s.target ==> k in t.target && t.target[k].obj == s.target[k].obj.(content := s.target[k].obj.content["status" := StatusOf(o)])
               case _ => true
  {
    assert PhaseSound(s.dir, s.jobs[w]);
    hide Sound, ApplyDown, DeleteDown, ApplyUp, ApplyStatusUp, UpdateUp, CopyOf;
    WriteOnlyAt(s, w, Accepted);
    match s.jobs[w].phase
    case Read(Some(o)) => DownWritten(s, w, o);
    case Read(None) => DownWritten(s, w, Object(Meta("", "", "", "", None, None, map[]), map[]));
    case Fetched(o, None) => UpWritten(s, w, o, 0);
    case Fetched(o, Some(version)) => UpWritten(s, w, o, version);
    case Patched(o) => UpWritten(s, w, o, 0);
    case _ =>
  }

  /** What a worker looks up: a namespaced object's copy in the syncer's namespace; a cluster-scoped one is never found. */
  lemma LookedUpInFull(s: State, w: nat)
    requires s.dir == Up && w in s.jobs && s.jobs[w].phase.Read? && s.jobs[w].phase.view.Some?
    requires s.jobs[w].key.resource != "customresourcedefinitions" && s.jobs[w].key.resource != "clustermanagementaddons"
    ensures var t, k := FetchStep(s, w, false), s.jobs[w].key;
            && w in t.jobs && t.jobs[w].key == k && t.target == s.target
            && t.jobs[w].phase == Fetched(s.jobs[w].phase.view.value,
                                          if k.namespace == "" || Key(k.resource, s.syncer, k.name) !in s.target then None
                                          else Some(s.target[Key(k.resource, s.syncer, k.name)].version))
  {
  }

  /** Every object on the target hub is a portable configuration in its own place, in a namespace that was made sure of. */
  ghost predicate TargetSound(s: State) {
    forall k | k in s.target ::
      Portable(s.target[k].obj) && KeyOf(k.resource, s.target[k].obj) == k && (s.dir == Down ==> k.namespace in s.namespaces)
  }

  lemma ApplyDownTargetSound(s: State, w: nat, o: Object, outcome: Outcome)
    requires TargetSound(s) && w in s.jobs && KeyOf(s.jobs[w].key.resource, o) == s.jobs[w].key && s.dir == Down
    ensures TargetSound(ApplyDown(s, w, o, outcome))
  {
  }

  lemma DeleteDownTargetSound(s: State, w: nat, outcome: Outcome)
    requires TargetSound(s) && w in s.jobs
    ensures TargetSound(DeleteDown(s, w, outcome))
  {
  }

  lemma WriteTargetSound(s: State, w: nat, outcome: Outcome)
    requires Sound(s) && TargetSound(s)
    ensures TargetSound(WriteStep(s, w, outcome))
  {
    if w in s.jobs {
      assert PhaseSound(s.dir, s.jobs[w]);
      hide Sound, ApplyDown, DeleteDown, ApplyUp, ApplyStatusUp, UpdateUp, Portable;
      match s.jobs[w].phase
      case Read(Some(o)) => if s.dir == Down { ApplyDownTargetSound(s, w, o, outcome); }
      case Read(None) => DeleteDownTargetSound(s, w, outcome);
      case Fetched(o, None) => ApplyUpTargetSound(s, w, o, outcome);
      case Fetched(o, Some(version)) => UpdateUpTargetSound(s, w, o, version, outcome);
      case Patched(o) => ApplyStatusUpTargetSound(s, w, o, outcome);
      case _ =>
    }
  }

  lemma ApplyUpTargetSound(s: State, w: nat, o: Object, outcome: Outcome)
    requires TargetSound(s) && w in s.jobs && KeyOf(s.jobs[w].key.resource, o) == s.jobs[w].key && s.dir == Up
    ensures TargetSound(ApplyUp(s, w, o, outcome))
  {
  }

  lemma ApplyStatusUpTargetSound(s: State, w: nat, o: Object, outcome: Outcome)
    requires TargetSound(s) && w in s.jobs && s.dir == Up
    ensures TargetSound(ApplyStatusUp(s, w, o, outcome))
  {
  }

  lemma UpdateUpTargetSound(s: State, w: nat, o: Object, version: nat, outcome: Outcome)
    requires TargetSound(s) && w in s.jobs
    ensures TargetSound(UpdateUp(s, w, o, version, outcome))
  {
  }

  /** Steps other than writes and relabelling leave the target hub alone. */
  lemma OtherStepsLeaveTarget(s: State, a: Action)
    requires !a.Write? && !a.Touch?
    ensures var t := Step(s, a); t.target == s.target && t.namespaces == s.namespaces && t.dir == s.dir
  {
    if a.ReadCache? || a.Fetch? {
      SnapshotLeavesTarget(s, a);
    } else if a.Deliver? || a.TimerFires? {
      QueueingLeavesTarget(s, a);
    } else {
      hide Enqueues, Eligible, DeliverStep, ReadStep, FetchStep, WriteStep, TimerStep;
    }
  }

  lemma SnapshotLeavesTarget(s: State, a: Action)
    requires a.ReadCache? || a.Fetch?
    ensures var t := Step(s, a); t.target == s.target && t.namespaces == s.namespaces && t.dir == s.dir
  {
  }

  lemma QueueingLeavesTarget(s: State, a: Action)
    requires a.Deliver? || a.TimerFires?
    ensures var t := Step(s, a); t.target == s.target && t.namespaces == s.namespaces && t.dir == s.dir
  {
    hide Enqueues;
  }

  lemma {:induction false} RunTargetSound(dir: Direction, syncer: string, actions: seq<Action>)
    ensures TargetSound(Run(Init(dir, syncer), actions))
  {
    if actions != [] {
      var s, a := Run(Init(dir, syncer), actions[..|actions| - 1]), actions[|actions| - 1];
      RunTargetSound(dir, syncer, actions[..|actions| - 1]);
      RunSound(dir, syncer, actions[..|actions| - 1]);
      StepTargetSound(s, a);
    }
  }

  lemma StepTargetSound(s: State, a: Action)
    requires Sound(s) && TargetSound(s)
    ensures TargetSound(Step(s, a))
  {
    match a
    case Write(w, outcome) => WriteTargetSound(s, w, outcome);
    case Touch(_, _) =>
    case _ => OtherStepsLeaveTarget(s, a);
  }

  /** In every reachable state, in either direction. */
  lemma TargetHoldsConfigurations(dir: Direction, syncer: string, s: State)
    requires Reachable(dir, syncer, s)
    ensures TargetSound(s)
  {
    var actions :| Run(Init(dir, syncer), actions) == s;
    RunTargetSound(dir, syncer, actions);
  }
}
