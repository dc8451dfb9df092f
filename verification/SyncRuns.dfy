/**
 What a syncer can do from here. A key that is to be processed can always be brought to its
 end: its events delivered, its timer fired, the keys ahead of it taken by other workers. These
 lemmas build such runs from any consistent state, whatever the syncer is doing with other keys.
 */
module SyncRuns {
  import opened Options
  import opened KubeObjects
  import opened SyncMachine
  import opened SyncSoundness
  import opened SyncConvergence

  /** A worker in this phase will read or write again, or hand its key to the retry timer. */
  predicate Unfinished(phase: Phase) {
    match phase
    case Written(ok) => !ok
    case Reported(_) => false
    case _ => true
  }

  /** The key will be taken again, or a worker holds it whose processing has not succeeded yet. */
  ghost predicate Live(s: State, k: Key) {
    Pending(s, k) || exists w :: w in s.jobs && s.jobs[w].key == k && Unfinished(s.jobs[w].phase)
  }

  /** From s to t, what was read from and written to stayed as it was. */
  ghost predicate SameHubs(s: State, t: State) {
    t.dir == s.dir && t.syncer == s.syncer && t.cache == s.cache && t.target == s.target && t.seen == s.seen
  }

  /** A consistent state that the syncer reaches from s0 by itself. */
  ghost predicate From(s0: State, s: State) {
    Leads(s0, s) && Sound(s)
  }

  lemma StepFrom(s0: State, s: State, a: Action)
    requires From(s0, s) && Internal(a)
    ensures From(s0, Step(s, a))
  {
    LeadsStep(s0, s, a);
    StepSound(s, a);
  }

  // ------------------------------------------------------ busy and idle keys

  lemma DeliverShrinks(s: State, i: nat, k: Key)
    requires Busy(DeliverStep(s, i), k)
    ensures Busy(s, k)
  {
  }

  lemma BusyShrinks(s: State, a: Action, k: Key)
    requires Sound(s) && Internal(a) && Busy(Step(s, a), k)
    ensures Busy(s, k)
  {
    match a
    case Deliver(i) => DeliverShrinks(s, i, k);
    case Get(w) => if s.queue != [] { assert s.queue[0] in s.queue; }
    case ReadCache(w, _) => SnapshotMoves(s, a);
    case Fetch(w, _) => SnapshotMoves(s, a);
    case Write(w, outcome) => WriteMoves(s, w, outcome);
    case Report(w) => ReportMoves(s, w);
    case Done(w) =>
    case TimerFires(_) =>
  }

  lemma InternalFacts(s: State, a: Action)
    requires Sound(s) && Internal(a)
    ensures var t := Step(s, a); Sound(t) && t.dir == s.dir && t.syncer == s.syncer && forall k | Busy(t, k) :: Busy(s, k)
  {
    StepSound(s, a);
    StepFrame(s, a);
    forall k | Busy(Step(s, a), k) ensures Busy(s, k) { BusyShrinks(s, a, k); }
  }

  /** From s to t, nothing was read or written, and no snapshot was taken. */
  ghost predicate NoSnapshot(s: State, t: State) {
    && t.dir == s.dir && t.syncer == s.syncer && t.cache == s.cache && t.target == s.target && t.applied == s.applied && t.seen == s.seen
    && forall v | v in t.jobs && !t.jobs[v].phase.Taken? && !t.jobs[v].phase.Reported? :: v in s.jobs && t.jobs[v] == s.jobs[v]
  }

  lemma QueueStepsTakeNoSnapshot(s: State, i: nat, k: Key)
    ensures NoSnapshot(s, DeliverStep(s, i)) && NoSnapshot(s, TimerStep(s, k))
  {
  }

  lemma GetTakesNoSnapshot(s: State, w: nat)
    ensures NoSnapshot(s, GetStep(s, w))
  {
  }

  lemma EndTakesNoSnapshot(s: State, w: nat)
    ensures NoSnapshot(s, ReportStep(s, w)) && NoSnapshot(s, DoneStep(s, w))
  {
  }

  predicate ReadsOrWrites(a: Action) {
    a.ReadCache? || a.Fetch? || a.Write?
  }

  /** Steps that neither read nor write introduce no snapshot. */
  lemma QuietStep(s: State, a: Action)
    requires Internal(a) && !ReadsOrWrites(a)
    ensures NoSnapshot(s, Step(s, a))
  {
    match a
    case Deliver(i) => QueueStepsTakeNoSnapshot(s, i, Key("", "", ""));
    case TimerFires(k) => QueueStepsTakeNoSnapshot(s, 0, k);
    case Get(w) => GetTakesNoSnapshot(s, w);
    case Report(w) => EndTakesNoSnapshot(s, w);
    case Done(w) => EndTakesNoSnapshot(s, w);
  }

  /** A syncer left to itself never gets busy with a key. */
  lemma {:induction false} RunBusy(s: State, actions: seq<Action>, k: Key)
    requires Sound(s) && forall a | a in actions :: Internal(a)
    ensures Sound(Run(s, actions)) && (Busy(Run(s, actions), k) ==> Busy(s, k))
  {
    hide Sound, Busy, Step;
    if actions != [] {
      var most, a := actions[..|actions| - 1], actions[|actions| - 1];
      RunBusy(s, most, k);
      StepSound(Run(s, most), a);
      if Busy(Step(Run(s, most), a), k) { BusyShrinks(Run(s, most), a, k); }
    }
  }

  lemma LeadsBusy(s: State, t: State, k: Key)
    requires Sound(s) && Leads(s, t) && Busy(t, k)
    ensures Busy(s, k)
  {
    var actions :| (forall a | a in actions :: Internal(a)) && Run(s, actions) == t;
    RunBusy(s, actions, k);
  }

  lemma HolderIsUnfinished(s: State, k: Key)
    requires Sound(s) && k !in s.processing && Live(s, k)
    ensures Pending(s, k)
  {
  }

  // ------------------------------------------------------------- single steps

  lemma DeliverFacts(s: State, i: nat, k: Key)
    requires i < |s.inbox| && Enqueues(s.dir, s.inbox[i]) && Subject(s.inbox[i]) == k
    ensures var t := Step(s, Deliver(i));
            && SameHubs(s, t) && t.dropped == s.dropped && t.jobs == s.jobs && t.processing == s.processing && t.waiting == s.waiting
            && k in t.dirty && |t.inbox| < |s.inbox|
  {
  }

  lemma TimerFacts(s: State, k: Key)
    ensures var t := Step(s, TimerFires(k));
            && SameHubs(s, t) && t.dropped == s.dropped && t.jobs == s.jobs && t.processing == s.processing && t.inbox == s.inbox && k !in t.waiting
            && (k in s.waiting || k in s.dirty ==> k in t.dirty)
  {
  }

  lemma GetFacts(s: State, w: nat)
    requires Sound(s) && w !in s.jobs && s.queue != []
    ensures var t, k := Step(s, Get(w)), s.queue[0];
            && SameHubs(s, t) && t.inbox == s.inbox && t.waiting == s.waiting && t.queue == s.queue[1..]
            && t.jobs == s.jobs[w := Job(k, Taken)] && k !in t.dirty && k !in t.dropped && t.dropped <= s.dropped
  {
  }

  lemma ReadFacts(s: State, w: nat, k: Key, failed: bool)
    requires w in s.jobs && s.jobs[w] == Job(k, Taken) && (s.dir == Down || k in s.cache)
    ensures var t := Step(s, ReadCache(w, failed));
            && SameHubs(s, t) && t.dropped == s.dropped && t.inbox == s.inbox && t.dirty == s.dirty && t.waiting == s.waiting
            && t.jobs == s.jobs[w := Job(k, if failed then Written(false) else Read(Lookup(s.cache, k)))]
  {
  }

  lemma ReportFacts(s: State, w: nat, k: Key, ok: bool)
    requires w in s.jobs && s.jobs[w] == Job(k, Written(ok))
    ensures var t := Step(s, Report(w));
            && SameHubs(s, t) && t.dropped == s.dropped && t.inbox == s.inbox && t.dirty == s.dirty
            && t.waiting == (if ok then s.waiting else s.waiting + {k}) && t.jobs == s.jobs[w := Job(k, Reported(ok))]
  {
  }

  lemma DoneFacts(s: State, w: nat, k: Key, ok: bool)
    requires w in s.jobs && s.jobs[w] == Job(k, Reported(ok))
    ensures var t := Step(s, Done(w));
            && SameHubs(s, t) && t.dropped == s.dropped && t.inbox == s.inbox && t.dirty == s.dirty && t.waiting == s.waiting
            && k !in t.processing
  {
  }

  // ------------------------------------------------------------ up to the take

  /** Every event that would enqueue k is delivered. */
  lemma DeliverAll(s0: State, s: State, k: Key) returns (t: State)
    requires From(s0, s)
    ensures From(s0, t) && SameHubs(s, t) && t.jobs == s.jobs && t.processing == s.processing && t.waiting == s.waiting && t.dropped == s.dropped
    ensures !EventPending(t, k) && (EventPending(s, k) || k in s.dirty ==> k in t.dirty)
    decreases |s.inbox|
  {
    t := s;
    if EventPending(s, k) {
      var n :| n in s.inbox && Enqueues(s.dir, n) && Subject(n) == k;
      var i :| 0 <= i < |s.inbox| && s.inbox[i] == n;
      DeliverFacts(s, i, k);
      StepFrom(s0, s, Deliver(i));
      t := DeliverAll(s0, Step(s, Deliver(i)), k);
    }
  }

  /** A pending key that nobody holds gets into the queue, with no event or retry of it outstanding. */
  lemma Ripen(s0: State, s: State, k: Key) returns (t: State)
    requires From(s0, s) && k !in s.processing && Pending(s, k)
    ensures From(s0, t) && SameHubs(s, t) && t.jobs == s.jobs && t.processing == s.processing && t.dropped == s.dropped
    ensures k in t.queue && k !in t.waiting && !EventPending(t, k)
  {
    var s1 := DeliverAll(s0, s, k);
    TimerFacts(s1, k);
    StepFrom(s0, s1, TimerFires(k));
    t := Step(s1, TimerFires(k));
    assert EventPending(t, k) ==> EventPending(s1, k);
  }

  lemma {:induction false} FreshWorker(workers: set<nat>) returns (w: nat)
    ensures w !in workers && forall v | v in workers :: v < w
  {
    w := 0;
    if workers != {} {
      var v :| v in workers;
      var rest := workers - {v};
      assert forall x | x in workers :: x == v || x in rest;
      var u := FreshWorker(rest);
      w := if u > v then u else v + 1;
    }
  }

  /** Workers take the keys ahead of k, then one takes k. */
  lemma Take(s0: State, s: State, k: Key) returns (t: State, w: nat)
    requires From(s0, s) && k in s.queue && k !in s.waiting && !EventPending(s, k)
    ensures From(s0, t) && SameHubs(s, t) && !Pending(t, k)
    ensures w in t.jobs && t.jobs[w] == Job(k, Taken) && k !in t.dropped && t.dropped <= s.dropped
    decreases |s.queue|
  {
    var v := FreshWorker(s.jobs.Keys);
    GetFacts(s, v);
    StepFrom(s0, s, Get(v));
    var s1 := Step(s, Get(v));
    assert EventPending(s1, k) ==> EventPending(s, k);
    if s.queue[0] == k {
      t, w := s1, v;
    } else {
      t, w := Take(s0, s1, k);
    }
  }

  lemma TakePending(s0: State, s: State, k: Key) returns (t: State, w: nat)
    requires From(s0, s) && k !in s.processing && Pending(s, k)
    ensures From(s0, t) && SameHubs(s, t) && !Pending(t, k)
    ensures w in t.jobs && t.jobs[w] == Job(k, Taken) && k !in t.dropped && t.dropped <= s.dropped
  {
    var s1 := Ripen(s0, s, k);
    t, w := Take(s0, s1, k);
  }

  // -------------------------------------------------------- after processing

  /** The result is reported and the key given back; it stays pending if it was, or if processing failed. */
  lemma GiveBack(s0: State, s: State, w: nat, k: Key, ok: bool) returns (t: State)
    requires From(s0, s) && w in s.jobs && s.jobs[w] == Job(k, Written(ok))
    ensures From(s0, t) && SameHubs(s, t) && k !in t.processing && t.dropped == s.dropped
    ensures Pending(t, k) <==> Pending(s, k) || !ok
  {
    ReportFacts(s, w, k, ok);
    StepFrom(s0, s, Report(w));
    var s1 := Step(s, Report(w));
    DoneFacts(s1, w, k, ok);
    StepFrom(s0, s1, Done(w));
    t := Step(s1, Done(w));
    assert EventPending(t, k) <==> EventPending(s, k);
  }

  // ------------------------------------------------------------- syncing down

  lemma WriteDownFacts(s: State, w: nat, k: Key, view: Option<Object>, outcome: Outcome)
    requires s.dir == Down && w in s.jobs && s.jobs[w] == Job(k, Read(view))
    ensures var t := Step(s, Write(w, outcome));
            && t.dir == s.dir && t.syncer == s.syncer && t.cache == s.cache && t.seen == s.seen && t.inbox == s.inbox
            && t.dirty == s.dirty && t.waiting == s.waiting && t.dropped == s.dropped
    ensures var t := Step(s, Write(w, outcome));
            if outcome == Refused || (view.None? && k !in s.target) then
              t.target == s.target && t.jobs == s.jobs[w := Job(k, Written(false))]
            else outcome == Accepted ==>
              && t.jobs == s.jobs[w := Job(k, Written(true))]
              && if view.None? then t.target == s.target - {k}
                 else t.target == s.target[k := Stored(Stripped(view.value, k.namespace), NextVersion(s, k))]
  {
  }

  /** A worker's processing of k comes to an error, with nothing written. */
  lemma FailDown(s0: State, s: State, w: nat, k: Key) returns (t: State)
    requires From(s0, s) && s.dir == Down && w in s.jobs && s.jobs[w].key == k && (s.jobs[w].phase.Taken? || s.jobs[w].phase.Read?)
    ensures From(s0, t) && SameHubs(s, t) && w in t.jobs && t.jobs[w] == Job(k, Written(false))
  {
    if s.jobs[w].phase.Taken? {
      ReadFacts(s, w, k, true);
      StepFrom(s0, s, ReadCache(w, true));
      t := Step(s, ReadCache(w, true));
    } else {
      WriteDownFacts(s, w, k, s.jobs[w].phase.view, Refused);
      StepFrom(s0, s, Write(w, Refused));
      t := Step(s, Write(w, Refused));
    }
  }

  /** Whoever holds a live key gives it back, and it is pending. */
  lemma Release(s0: State, s: State, k: Key) returns (t: State)
    requires From(s0, s) && s.dir == Down && Live(s, k)
    ensures From(s0, t) && SameHubs(s, t) && k !in t.processing && Pending(t, k)
  {
    t := s;
    if k !in s.processing {
      HolderIsUnfinished(s, k);
    } else {
      var w :| w in s.jobs && s.jobs[w].key == k;
      assert PhaseSound(s.dir, s.jobs[w]);
      assert Unfinished(s.jobs[w].phase) || Pending(s, k);
      match s.jobs[w].phase
      case Written(ok) => t := GiveBack(s0, s, w, k, ok);
      case Reported(ok) =>
        DoneFacts(s, w, k, ok);
        StepFrom(s0, s, Done(w));
        t := Step(s, Done(w));
        assert EventPending(t, k) <==> EventPending(s, k);
      case _ =>
        var s1 := FailDown(s0, s, w, k);
        t := GiveBack(s0, s1, w, k, false);
    }
  }

  /** A worker that has read a key with no more events writes what it read and gives the key back. */
  lemma WriteOut(s0: State, s: State, w: nat, k: Key, view: Option<Object>) returns (t: State)
    requires From(s0, s) && s.dir == Down && !Pending(s, k) && w in s.jobs && s.jobs[w] == Job(k, Read(view))
    requires view.Some? || k in s.target
    ensures From(s0, t) && t.dir == Down && t.syncer == s.syncer && t.cache == s.cache && !Busy(t, k)
    ensures Lookup(t.target, k) == if view.Some? then Some(Stored(Stripped(view.value, k.namespace), NextVersion(s, k))) else None
    ensures forall x | x != k :: Lookup(t.target, x) == Lookup(s.target, x)
  {
    hide Step, Sound, Leads, Stripped;
    WriteDownFacts(s, w, k, view, Accepted);
    StepFrom(s0, s, Write(w, Accepted));
    var s1 := Step(s, Write(w, Accepted));
    assert EventPending(s1, k) ==> EventPending(s, k);
    t := GiveBack(s0, s1, w, k, true);
  }

  /** A live key is processed to a successful end: its object applied, or what was left of it deleted. */
  lemma ProcessDown(s0: State, s: State, k: Key) returns (t: State)
    requires From(s0, s) && s.dir == Down && Live(s, k) && (k in s.cache || k in s.target)
    ensures From(s0, t) && t.dir == Down && t.syncer == s.syncer && t.cache == s.cache && !Busy(t, k)
    ensures if k in s.cache then k in t.target && t.target[k].obj == Stripped(s.cache[k], k.namespace) else k !in t.target
    ensures forall x | x != k :: Lookup(t.target, x) == Lookup(s.target, x)
  {
    hide Step, Sound, Leads, Stripped, Live;
    var s1 := Release(s0, s, k);
    var s2, w := TakePending(s0, s1, k);
    ReadFacts(s2, w, k, false);
    StepFrom(s0, s2, ReadCache(w, false));
    var s3 := Step(s2, ReadCache(w, false));
    assert EventPending(s3, k) ==> EventPending(s2, k);
    t := WriteOut(s0, s3, w, k, Lookup(s.cache, k));
  }

  // --------------------------------------------------------------- syncing up

  lemma FetchFacts(s: State, w: nat, k: Key, obj: Object)
    requires s.dir == Up && w in s.jobs && s.jobs[w] == Job(k, Read(Some(obj))) && !HubOnly(k.resource) && |k.namespace| > 0
    ensures var t, tk := Step(s, Fetch(w, false)), TargetKey(s, k);
            && SameHubs(s, t) && t.dropped == s.dropped && t.inbox == s.inbox && t.dirty == s.dirty && t.waiting == s.waiting
            && t.jobs == s.jobs[w := Job(k, Fetched(obj, if tk in s.target then Some(s.target[tk].version) else None))]
  {
  }

  /** From s to t, a write changed nothing but the target. */
  ghost predicate OnlyTarget(s: State, t: State) {
    t.dir == s.dir && t.syncer == s.syncer && t.cache == s.cache && t.seen == s.seen && t.inbox == s.inbox && t.dirty == s.dirty && t.waiting == s.waiting
  }

  /** The only copy that changed is now this object. */
  ghost predicate NowHolds(s: State, t: State, tk: Key, obj: Object) {
    && tk in t.target && t.target[tk].obj == obj
    && forall x | x != tk :: Lookup(t.target, x) == Lookup(s.target, x)
  }

  lemma WriteUpFacts(s: State, w: nat, k: Key, obj: Object, version: Option<nat>)
    requires s.dir == Up && w in s.jobs && s.jobs[w] == Job(k, Fetched(obj, version))
    requires var tk := TargetKey(s, k); if version.Some? then tk in s.target && s.target[tk].version == version.value else tk !in s.target
    ensures var t, tk := Step(s, Write(w, Accepted)), TargetKey(s, k);
            && OnlyTarget(s, t) && t.dropped == s.dropped
            && t.jobs == s.jobs[w := Job(k, if version.Some? then Written(true) else Patched(obj))]
            && NowHolds(s, t, tk, if version.Some? then WithStatus(s.target[tk].obj, StatusOf(obj)) else WithStatus(Stripped(obj, tk.namespace), Null))
  {
  }

  lemma SwallowFacts(s: State, w: nat, k: Key, obj: Object)
    requires s.dir == Up && w in s.jobs && s.jobs[w] == Job(k, Fetched(obj, None))
    ensures var t := Step(s, Write(w, Refused));
            && OnlyTarget(s, t) && t.target == s.target && t.jobs == s.jobs[w := Job(k, Written(true))]
  {
  }

  lemma StatusFacts(s: State, w: nat, k: Key, obj: Object)
    requires s.dir == Up && w in s.jobs && s.jobs[w] == Job(k, Patched(obj)) && TargetKey(s, k) in s.target
    ensures var t, tk := Step(s, Write(w, Accepted)), TargetKey(s, k);
            && OnlyTarget(s, t) && t.dropped == s.dropped && t.jobs == s.jobs[w := Job(k, Written(true))]
            && NowHolds(s, t, tk, WithStatus(s.target[tk].obj, StatusOf(obj)))
  {
  }

  /** A pending namespaced key of the status syncer is taken and read, and its copy looked up. */
  lemma LookUp(s0: State, s: State, k: Key) returns (t: State, w: nat)
    requires From(s0, s) && s.dir == Up && Pending(s, k) && k !in s.processing
    requires k in s.cache && !HubOnly(k.resource) && |k.namespace| > 0
    ensures From(s0, t) && SameHubs(s, t) && !Pending(t, k) && k !in t.dropped && t.dropped <= s.dropped && w in t.jobs
    ensures var tk := TargetKey(s, k); t.jobs[w] == Job(k, Fetched(s.cache[k], if tk in s.target then Some(s.target[tk].version) else None))
  {
    var s1;
    s1, w := TakePending(s0, s, k);
    ReadFacts(s1, w, k, false);
    StepFrom(s0, s1, ReadCache(w, false));
    var s2 := Step(s1, ReadCache(w, false));
    FetchFacts(s2, w, k, s.cache[k]);
    StepFrom(s0, s2, Fetch(w, false));
    t := Step(s2, Fetch(w, false));
    assert EventPending(t, k) ==> EventPending(s1, k);
  }

  /** A pending key's status is reported: into its copy if there is one, else into a new one. */
  lemma ProcessUp(s0: State, s: State, k: Key) returns (t: State)
    requires From(s0, s) && s.dir == Up && Pending(s, k) && k !in s.processing
    requires k in s.cache && !HubOnly(k.resource) && |k.namespace| > 0
    ensures From(s0, t) && t.dir == Up && t.syncer == s.syncer && t.cache == s.cache && t.seen == s.seen
    ensures !Busy(t, k) && k !in t.dropped && t.dropped <= s.dropped
    ensures var tk := TargetKey(s, k);
            NowHolds(s, t, tk, if tk in s.target then WithStatus(s.target[tk].obj, StatusOf(s.cache[k]))
                               else WithStatus(WithStatus(Stripped(s.cache[k], tk.namespace), Null), StatusOf(s.cache[k])))
  {
    var s1, w := LookUp(s0, s, k);
    var obj := s.cache[k];
    WriteUpFacts(s1, w, k, obj, s1.jobs[w].phase.version);
    StepFrom(s0, s1, Write(w, Accepted));
    var s2 := Step(s1, Write(w, Accepted));
    assert EventPending(s2, k) ==> EventPending(s1, k);
    if TargetKey(s, k) in s.target {
      t := GiveBack(s0, s2, w, k, true);
    } else {
      StatusFacts(s2, w, k, obj);
      StepFrom(s0, s2, Write(w, Accepted));
      var s3 := Step(s2, Write(w, Accepted));
      assert EventPending(s3, k) ==> EventPending(s2, k);
      t := GiveBack(s0, s3, w, k, true);
    }
  }

  /** The refusal of a first copy is swallowed. */
  lemma SwallowUp(s0: State, s: State, k: Key) returns (t: State)
    requires From(s0, s) && s.dir == Up && Pending(s, k) && k !in s.processing
    requires k in s.cache && !HubOnly(k.resource) && |k.namespace| > 0 && TargetKey(s, k) !in s.target
    ensures From(s0, t) && SameHubs(s, t) && !Busy(t, k)
  {
    var s1, w := LookUp(s0, s, k);
    SwallowFacts(s1, w, k, s.cache[k]);
    StepFrom(s0, s1, Write(w, Refused));
    var s2 := Step(s1, Write(w, Refused));
    assert EventPending(s2, k) ==> EventPending(s1, k);
    t := GiveBack(s0, s2, w, k, true);
  }
}
