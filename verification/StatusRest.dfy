/**
 The status syncer when an object below is deleted. It has no way to delete a copy, and takes the
 object's absence for an error, so the deletion is retried for ever while the copy stays: exactly
 when a key of the status syncer can come to rest, and exactly when a status can be lost.
 */
module StatusRest {
  import opened Options
  import opened KubeObjects
  import opened SyncMachine
  import opened SyncSoundness
  import opened SyncConvergence
  import opened SyncRuns
  import opened SyncRest
  import opened SyncLimits

  // --------------------------------------------------------- failing and giving back

  /** The next request of a worker that has not finished, refused; it ends its processing. */
  function Refusal(k: Key, w: nat, phase: Phase): Action {
    match phase
    case Taken => ReadCache(w, true)
    case Read(_) => if HubOnly(k.resource) then Write(w, Refused) else Fetch(w, true)
    case _ => Write(w, Refused)
  }

  lemma RefusalFacts(s: State, w: nat, k: Key)
    requires s.dir == Up && w in s.jobs && s.jobs[w].key == k && PhaseSound(Up, s.jobs[w]) && PhaseTurn(s.jobs[w].phase) == Working
    ensures var t := Step(s, Refusal(k, w, s.jobs[w].phase));
            && OnlyTarget(s, t) && t.target == s.target && t.dropped <= s.dropped + {k}
            && w in t.jobs && t.jobs[w].key == k && t.jobs[w].phase.Written?
            && (t.jobs[w].phase.ok ==> s.jobs[w].phase.Patched? || (s.jobs[w].phase.Fetched? && s.jobs[w].phase.version.None?))
  {
  }

  lemma RefuseAndGiveBack(s0: State, s: State, w: nat, k: Key) returns (t: State)
    requires From(s0, s) && s.dir == Up && w in s.jobs && s.jobs[w].key == k && PhaseTurn(s.jobs[w].phase) == Working
    ensures From(s0, t) && SameHubs(s, t) && k !in t.processing && t.dropped <= s.dropped + {k} && (Pending(s, k) ==> Pending(t, k))
  {
    assert PhaseSound(Up, s.jobs[w]);
    hide Step, Leads, Sound;
    var a := Refusal(k, w, s.jobs[w].phase);
    RefusalFacts(s, w, k);
    StepFrom(s0, s, a);
    assert EventPending(Step(s, a), k) <==> EventPending(s, k);
    t := GiveBack(s0, Step(s, a), w, k, Step(s, a).jobs[w].phase.ok);
  }

  /** Whoever holds a key gives it back, with nothing written. */
  lemma GiveUp(s0: State, s: State, k: Key) returns (t: State)
    requires From(s0, s) && s.dir == Up
    ensures From(s0, t) && SameHubs(s, t) && k !in t.processing && t.dropped <= s.dropped + {k} && (Pending(s, k) ==> Pending(t, k))
  {
    t := s;
    if k in s.processing {
      var w :| w in s.jobs && s.jobs[w].key == k;
      hide Step, Leads, Sound;
      match s.jobs[w].phase
      case Written(ok) => t := GiveBack(s0, s, w, k, ok);
      case Reported(ok) =>
        DoneFacts(s, w, k, ok);
        StepFrom(s0, s, Done(w));
        t := Step(s, Done(w));
        assert EventPending(t, k) <==> EventPending(s, k);
      case _ => t := RefuseAndGiveBack(s0, s, w, k);
    }
  }

  // ------------------------------------------------------------------- versions

  /** Copies above are never deleted, and their versions only grow. */
  ghost predicate VersionsGrow(s: State, t: State) {
    t.dir == s.dir && t.syncer == s.syncer && forall x | x in s.target :: x in t.target && s.target[x].version <= t.target[x].version
  }

  /** A version that was looked up is the copy's, or an earlier one of it. */
  ghost predicate VersionsSound(s: State) {
    forall w | w in s.jobs && s.jobs[w].phase.Fetched? && s.jobs[w].phase.version.Some? ::
      var tk := TargetKey(s, s.jobs[w].key); tk in s.target && s.jobs[w].phase.version.value <= s.target[tk].version
  }

  lemma ApplyGrows(s: State, w: nat, obj: Object, version: nat, outcome: Outcome)
    requires w in s.jobs
    ensures VersionsGrow(s, ApplyUp(s, w, obj, outcome)) && VersionsGrow(s, ApplyStatusUp(s, w, obj, outcome))
  {
  }

  lemma UpdateGrows(s: State, w: nat, obj: Object, version: nat, outcome: Outcome)
    requires w in s.jobs
    ensures VersionsGrow(s, UpdateUp(s, w, obj, version, outcome))
  {
  }

  lemma StepGrows(s: State, a: Action)
    requires s.dir == Up && Sound(s)
    ensures VersionsGrow(s, Step(s, a))
  {
    StepFrame(s, a);
    if a.Write? {
      if a.w in s.jobs {
        match s.jobs[a.w].phase
        case Fetched(obj, None) => ApplyGrows(s, a.w, obj, 0, a.outcome);
        case Fetched(obj, Some(version)) => UpdateGrows(s, a.w, obj, version, a.outcome);
        case Patched(obj) => ApplyGrows(s, a.w, obj, 0, a.outcome);
        case _ =>
      }
    } else if !a.Touch? {
      hide Step;
      OtherStepsLeaveTarget(s, a);
    }
  }

  lemma FetchVersion(s: State, w: nat, failed: bool)
    requires VersionsSound(s)
    ensures VersionsSound(FetchStep(s, w, failed))
  {
  }

  /** From s to t, no copy was looked up. */
  lemma NothingFetched(s: State, t: State)
    requires VersionsSound(s) && VersionsGrow(s, t)
    requires forall w | w in t.jobs && t.jobs[w].phase.Fetched? :: w in s.jobs && t.jobs[w] == s.jobs[w]
    ensures VersionsSound(t)
  {
  }

  lemma StepVersions(s: State, a: Action)
    requires s.dir == Up && Sound(s) && VersionsSound(s)
    ensures VersionsSound(Step(s, a)) && VersionsGrow(s, Step(s, a))
  {
    hide Sound, VersionsSound, VersionsGrow;
    StepGrows(s, a);
    if a.Fetch? {
      FetchVersion(s, a.w, a.failed);
    } else {
      FetchedBefore(s, a);
      NothingFetched(s, Step(s, a));
    }
  }

  lemma FetchedBefore(s: State, a: Action)
    requires Sound(s) && !a.Fetch?
    ensures var t := Step(s, a); forall w | w in t.jobs && t.jobs[w].phase.Fetched? :: w in s.jobs && t.jobs[w] == s.jobs[w]
  {
    if a.ReadCache? {
      hide Sound;
    } else if a.Write? {
      hide Sound, Step;
      assert Step(s, a) == WriteStep(s, a.w, a.outcome) by { WriteIsStep(s, a); }
      WriteMoves(s, a.w, a.outcome);
    } else if Internal(a) {
      hide Sound, Step;
      QuietStep(s, a);
    } else {
      hide Sound;
    }
  }

  lemma WriteIsStep(s: State, a: Action)
    requires a.Write?
    ensures Step(s, a) == WriteStep(s, a.w, a.outcome)
  {
  }

  lemma {:induction false} RunVersions(syncer: string, actions: seq<Action>)
    ensures var s := Run(Init(Up, syncer), actions); s.dir == Up && s.syncer == syncer && Sound(s) && VersionsSound(s)
  {
    if actions != [] {
      hide Step, Sound, VersionsSound;
      var most := actions[..|actions| - 1];
      RunVersions(syncer, most);
      StepSound(Run(Init(Up, syncer), most), actions[|actions| - 1]);
      StepVersions(Run(Init(Up, syncer), most), actions[|actions| - 1]);
      StepFrame(Run(Init(Up, syncer), most), actions[|actions| - 1]);
    }
  }

  lemma ReachableVersions(syncer: string, s: State)
    requires Reachable(Up, syncer, s)
    ensures s.dir == Up && s.syncer == syncer && Sound(s) && VersionsSound(s)
  {
    hide Sound, VersionsSound;
    var actions :| Run(Init(Up, syncer), actions) == s;
    RunVersions(syncer, actions);
  }

  // ------------------------------------------------------------- coming to rest

  /** A looked-up version that is no longer the copy's makes the write fail. */
  predicate Stale(s: State, k: Key, phase: Phase) {
    && phase.Fetched? && phase.version.Some? && TargetKey(s, k) in s.target
    && phase.version.value < s.target[TargetKey(s, k)].version
  }

  /** The worker will fail, given that the object is gone. */
  predicate Doomed(s: State, job: Job) {
    job.phase.Taken? || job.phase == Written(false) || Stale(s, job.key, job.phase)
  }

  /** The object is gone, and its key will be taken again or is held by a worker that will fail. */
  ghost predicate StuckUp(s: State, k: Key) {
    s.dir == Up && k !in s.cache && (Pending(s, k) || exists w :: w in s.jobs && s.jobs[w].key == k && Doomed(s, s.jobs[w]))
  }

  lemma EventStuckUp(s: State, a: Action, k: Key)
    requires StuckUp(s, k) && (a.Observe? || a.ObserveDelete?) && !Observes(a, k)
    ensures StuckUp(Step(s, a), k)
  {
    var t := Step(s, a);
    if EventPending(s, k) { InboxGrows(s, t, k); }
    if w :| w in s.jobs && s.jobs[w].key == k && Doomed(s, s.jobs[w]) { assert w in t.jobs && Doomed(t, t.jobs[w]); }
  }

  /** Delivering an event or firing a timer lets go of no key and no worker. */
  lemma QueueStuckUp(s: State, t: State, k: Key)
    requires StuckUp(s, k) && t.dir == s.dir && t.syncer == s.syncer && t.cache == s.cache && t.jobs == s.jobs && t.target == s.target
    requires Pending(s, k) ==> Pending(t, k)
    ensures StuckUp(t, k)
  {
    if w :| w in s.jobs && s.jobs[w].key == k && Doomed(s, s.jobs[w]) { assert Doomed(t, t.jobs[w]); }
  }

  lemma DeliverStuckUp(s: State, i: nat, k: Key)
    requires StuckUp(s, k)
    ensures StuckUp(DeliverStep(s, i), k)
  {
    hide Stale, Enqueues;
    if i < |s.inbox| && EventPending(s, k) { DeliveredOnly(s, i, k); }
    QueueStuckUp(s, DeliverStep(s, i), k);
  }

  lemma TimerStuckUp(s: State, fired: Key, k: Key)
    requires StuckUp(s, k)
    ensures StuckUp(TimerStep(s, fired), k)
  {
    hide Stale, Enqueues;
    assert EventPending(s, k) ==> EventPending(TimerStep(s, fired), k);
    QueueStuckUp(s, TimerStep(s, fired), k);
  }

  lemma TouchStuckUp(s: State, touched: Key, labels: map<string, string>, k: Key)
    requires StuckUp(s, k)
    ensures StuckUp(TouchStep(s, touched, labels), k)
  {
    var t := TouchStep(s, touched, labels);
    assert EventPending(s, k) ==> EventPending(t, k);
    if w :| w in s.jobs && s.jobs[w].key == k && Doomed(s, s.jobs[w]) { assert w in t.jobs && Doomed(t, t.jobs[w]); }
  }

  lemma GetStuckUp(s: State, w: nat, k: Key)
    requires Sound(s) && StuckUp(s, k)
    ensures StuckUp(GetStep(s, w), k)
  {
    var t := GetStep(s, w);
    if t != s {
      assert EventPending(s, k) ==> EventPending(t, k);
      if s.queue[0] == k {
        assert t.jobs[w] == Job(k, Taken);
      } else if !Pending(s, k) {
        var v :| v in s.jobs && s.jobs[v].key == k && Doomed(s, s.jobs[v]);
        assert t.jobs[v] == s.jobs[v] && Doomed(t, t.jobs[v]);
      }
    }
  }

  /** A worker's move keeps k stuck if a worker that holds k and will fail gets no further. */
  lemma MovedStuckUp(s: State, t: State, w: nat, k: Key)
    requires StuckUp(s, k) && Moved(s, t, w) && VersionsGrow(s, t)
    requires s.jobs[w].key == k && Doomed(s, s.jobs[w]) ==> Doomed(t, t.jobs[w]) || k in t.waiting
    ensures StuckUp(t, k)
  {
    if Pending(s, k) {
      assert EventPending(s, k) ==> EventPending(t, k);
    } else {
      var v :| v in s.jobs && s.jobs[v].key == k && Doomed(s, s.jobs[v]);
      if v != w { assert t.jobs[v] == s.jobs[v] && Doomed(t, t.jobs[v]); }
    }
  }

  lemma DoneStuckUp(s: State, w: nat, k: Key)
    requires StuckUp(s, k)
    ensures StuckUp(DoneStep(s, w), k)
  {
    var t := DoneStep(s, w);
    assert EventPending(s, k) ==> EventPending(t, k);
    if !Pending(s, k) {
      var v :| v in s.jobs && s.jobs[v].key == k && Doomed(s, s.jobs[v]);
      assert v in t.jobs && t.jobs[v] == s.jobs[v] && Doomed(t, t.jobs[v]);
    }
  }

  /** A worker that will fail does so at its next step. */
  lemma DoomedFails(s: State, a: Action, w: nat)
    requires s.dir == Up && w in s.jobs && s.jobs[w].key !in s.cache && Doomed(s, s.jobs[w])
    requires (a.ReadCache? || a.Fetch? || a.Write?) && a.w == w
    ensures var t := Step(s, a); t == s || (w in t.jobs && t.jobs[w].phase == Written(false))
  {
  }

  lemma WorkerStuckUp(s: State, a: Action, k: Key)
    requires Sound(s) && StuckUp(s, k) && (a.ReadCache? || a.Fetch? || a.Write?)
    ensures StuckUp(Step(s, a), k)
  {
    hide Sound, VersionsGrow, StuckUp;
    var t := Step(s, a);
    StepGrows(s, a) by { StuckIsUp(s, k); }
    if a.Write? {
      hide Step;
      WriteIsStep(s, a);
      WriteMoves(s, a.w, a.outcome);
    } else {
      SnapshotMoves(s, a);
    }
    hide Step;
    if t != s {
      StuckIsUp(s, k);
      if s.jobs[a.w].key == k && Doomed(s, s.jobs[a.w]) { DoomedFails(s, a, a.w); }
      MovedStuckUp(s, t, a.w, k);
    }
  }

  lemma StuckIsUp(s: State, k: Key)
    requires StuckUp(s, k)
    ensures s.dir == Up && k !in s.cache
  {
  }

  lemma ReportStuckUp(s: State, w: nat, k: Key)
    requires Sound(s) && StuckUp(s, k)
    ensures StuckUp(ReportStep(s, w), k)
  {
    var t := ReportStep(s, w);
    ReportMoves(s, w);
    if t != s { MovedStuckUp(s, t, w, k); }
  }

  lemma StepStuckUp(s: State, a: Action, k: Key)
    requires Sound(s) && StuckUp(s, k) && !Observes(a, k)
    ensures StuckUp(Step(s, a), k)
  {
    hide Sound, StuckUp;
    match a
    case Observe(_, _) => EventStuckUp(s, a, k);
    case ObserveDelete(_) => EventStuckUp(s, a, k);
    case Deliver(i) => DeliverStuckUp(s, i, k);
    case Get(w) => GetStuckUp(s, w, k);
    case ReadCache(_, _) => WorkerStuckUp(s, a, k);
    case Fetch(_, _) => WorkerStuckUp(s, a, k);
    case Write(_, _) => WorkerStuckUp(s, a, k);
    case Report(w) => ReportStuckUp(s, w, k);
    case Done(w) => DoneStuckUp(s, w, k);
    case TimerFires(fired) => TimerStuckUp(s, fired, k);
    case Touch(touched, labels) => TouchStuckUp(s, touched, labels, k);
  }

  lemma {:induction false} RunStuckUp(s: State, actions: seq<Action>, k: Key)
    requires Sound(s) && StuckUp(s, k) && forall a | a in actions :: !Observes(a, k)
    ensures var t := Run(s, actions); Sound(t) && StuckUp(t, k) && VersionsGrow(s, t)
  {
    hide Sound, StuckUp, Step;
    if actions == [] {
      StuckIsUp(s, k);
    } else {
      var most, a := actions[..|actions| - 1], actions[|actions| - 1];
      assert a in actions && forall b | b in most :: b in actions;
      RunStuckUp(s, most, k);
      StepSound(Run(s, most), a);
      StuckIsUp(Run(s, most), k);
      StepGrows(Run(s, most), a);
      StepStuckUp(Run(s, most), a, k);
    }
  }

  /** A key whose object is gone from below is retried for ever, and the copy above stays, until the object is seen again. */
  lemma DeletionStaysPending(s: State, t: State, k: Key)
    requires Sound(s) && StuckUp(s, k) && Continues(s, t, k)
    ensures StuckUp(t, k) && Busy(t, k) && !Quiet(t) && (TargetKey(s, k) in s.target ==> TargetKey(s, k) in t.target)
  {
    hide StuckUp;
    var actions :| (forall a | a in actions :: !Observes(a, k)) && Run(s, actions) == t;
    RunStuckUp(s, actions, k);
    StuckIsBusy(t, k);
  }

  lemma StuckIsBusy(s: State, k: Key)
    requires Sound(s) && StuckUp(s, k)
    ensures Busy(s, k) && !Quiet(s)
  {
  }

  /** Every deletion of a wanted object leads there, in every reachable state. */
  lemma DeletionIsStuck(syncer: string, s: State, k: Key)
    requires Reachable(Up, syncer, s) && k in s.cache && Wanted(Up, k.resource, s.cache[k])
    ensures var t := Step(s, ObserveDelete(k));
            && StuckUp(t, k)
            && forall u | Continues(t, u, k) ::
                 StuckUp(u, k) && Busy(u, k) && !Quiet(u) && (TargetKey(s, k) in s.target ==> TargetKey(s, k) in u.target)
  {
    hide Reachable, Continues;
    ReachableVersions(syncer, s);
    var t := Step(s, ObserveDelete(k));
    DeletionIsPending(s, k);
    StepSound(s, ObserveDelete(k));
    assert t.target == s.target && TargetKey(t, k) == TargetKey(s, k);
    hide Sound, VersionsSound, StuckUp, Step;
    forall u | Continues(t, u, k)
      ensures StuckUp(u, k) && Busy(u, k) && !Quiet(u) && (TargetKey(s, k) in s.target ==> TargetKey(s, k) in u.target)
    {
      DeletionStaysPending(t, u, k);
    }
  }

  lemma DeletionIsPending(s: State, k: Key)
    requires s.dir == Up && Sound(s) && k in s.cache && Wanted(Up, k.resource, s.cache[k])
    ensures StuckUp(Step(s, ObserveDelete(k)), k)
  {
    var t := Step(s, ObserveDelete(k));
    var n := t.inbox[|s.inbox|];
    assert n in t.inbox && Enqueues(Up, n) && Subject(n) == k;
  }

  // --------------------------------------------------- a worker that can succeed

  /** The next request of a worker that has read its key, granted. */
  function Success(k: Key, w: nat, phase: Phase): Action {
    if phase.Read? && !HubOnly(k.resource) then Fetch(w, false) else Write(w, Accepted)
  }

  /** How far a worker that has read its key is from being done. */
  function Distance(phase: Phase): nat {
    match phase
    case Read(_) => 3
    case Fetched(_, _) => 2
    case Patched(_) => 1
    case _ => 0
  }

  /** From s to t, worker w got one step on with k. */
  ghost predicate Nearer(s: State, t: State, w: nat, k: Key) {
    && OnlyTarget(s, t) && w in t.jobs && t.jobs[w].key == k
    && w in s.jobs && Distance(t.jobs[w].phase) < Distance(s.jobs[w].phase)
    && (Distance(t.jobs[w].phase) == 0 ==> t.jobs[w].phase == Written(true)) && !Stale(t, k, t.jobs[w].phase)
  }

  lemma ReadNearer(s: State, w: nat, k: Key)
    requires s.dir == Up && w in s.jobs && s.jobs[w].key == k && s.jobs[w].phase.Read? && s.jobs[w].phase.view.Some?
    ensures Nearer(s, Step(s, Success(k, w, s.jobs[w].phase)), w, k)
  {
  }

  lemma FetchedNearer(s: State, w: nat, k: Key)
    requires s.dir == Up && w in s.jobs && s.jobs[w].key == k && s.jobs[w].phase.Fetched? && VersionsSound(s) && !Stale(s, k, s.jobs[w].phase)
    ensures Nearer(s, Step(s, Success(k, w, s.jobs[w].phase)), w, k)
  {
  }

  lemma PatchedNearer(s: State, w: nat, k: Key)
    requires s.dir == Up && w in s.jobs && s.jobs[w].key == k && s.jobs[w].phase.Patched?
    ensures Nearer(s, Step(s, Success(k, w, s.jobs[w].phase)), w, k)
  {
  }

  /** A worker that has read its key, and whose version is not stale, can bring it to a good end. */
  lemma Succeed(s0: State, s: State, w: nat, k: Key) returns (t: State)
    requires From(s0, s) && s.dir == Up && VersionsSound(s) && w in s.jobs && s.jobs[w].key == k
    requires !Stale(s, k, s.jobs[w].phase) && (Distance(s.jobs[w].phase) == 0 ==> s.jobs[w].phase == Written(true))
    ensures Leads(s0, t) && k !in t.processing && (Pending(t, k) <==> Pending(s, k))
    decreases Distance(s.jobs[w].phase)
  {
    if Distance(s.jobs[w].phase) == 0 {
      hide Sound, Step;
      t := GiveBack(s0, s, w, k, true);
    } else {
      assert PhaseSound(Up, s.jobs[w]);
      var a := Success(k, w, s.jobs[w].phase);
      match s.jobs[w].phase {
        case Read(_) => ReadNearer(s, w, k);
        case Fetched(_, _) => FetchedNearer(s, w, k);
        case Patched(_) => PatchedNearer(s, w, k);
      }
      hide Sound, Step, VersionsSound, Success, Stale;
      StepFrom(s0, s, a) by { SuccessIsInternal(k, w, s.jobs[w].phase); }
      StepVersions(s, a);
      assert EventPending(Step(s, a), k) <==> EventPending(s, k);
      t := Succeed(s0, Step(s, a), w, k);
    }
  }

  lemma SuccessIsInternal(k: Key, w: nat, phase: Phase)
    ensures Internal(Success(k, w, phase))
  {
  }

  lemma {:induction false} LeadsVersions(s: State, t: State)
    requires s.dir == Up && Sound(s) && VersionsSound(s) && Leads(s, t)
    ensures VersionsSound(t)
  {
    var actions :| (forall a | a in actions :: Internal(a)) && Run(s, actions) == t;
    RunKeepsVersions(s, actions);
  }

  lemma {:induction false} RunKeepsVersions(s: State, actions: seq<Action>)
    requires s.dir == Up && Sound(s) && VersionsSound(s)
    ensures var t := Run(s, actions); t.dir == Up && Sound(t) && VersionsSound(t)
  {
    hide Step, Sound, VersionsSound;
    if actions != [] {
      var most := actions[..|actions| - 1];
      RunKeepsVersions(s, most);
      StepSound(Run(s, most), actions[|actions| - 1]);
      StepVersions(Run(s, most), actions[|actions| - 1]);
      StepFrame(Run(s, most), actions[|actions| - 1]);
    }
  }

  /** A key that is not stuck can come to rest. */
  lemma RestUnlessStuckUp(s: State, k: Key) returns (t: State)
    requires s.dir == Up && Sound(s) && VersionsSound(s) && !StuckUp(s, k)
    ensures Leads(s, t) && !Busy(t, k)
  {
    LeadsNowhere(s);
    if k in s.cache {
      t := RestCached(s, k);
    } else if k !in s.processing {
      t := s;
    } else {
      var w :| w in s.jobs && s.jobs[w].key == k;
      assert !Doomed(s, s.jobs[w]);
      match s.jobs[w].phase
      case Reported(ok) =>
        DoneFacts(s, w, k, ok);
        StepFrom(s, s, Done(w));
        t := Step(s, Done(w));
        assert EventPending(t, k) <==> EventPending(s, k);
      case _ => t := Succeed(s, s, w, k);
    }
  }

  lemma ReadIsNotStale(s: State, k: Key, phase: Phase)
    requires phase.Read?
    ensures !Stale(s, k, phase)
  {
  }

  /** A key whose object is cached can be given up by whoever holds it, read afresh and reported. */
  lemma RestCached(s: State, k: Key) returns (t: State)
    requires s.dir == Up && Sound(s) && VersionsSound(s) && k in s.cache
    ensures Leads(s, t) && !Busy(t, k)
  {
    hide Sound, VersionsSound, Step, Leads, Stale;
    LeadsNowhere(s);
    var s1 := GiveUp(s, s, k);
    if Pending(s1, k) {
      var s2, w := TakePending(s, s1, k);
      ReadFacts(s2, w, k, false);
      StepFrom(s, s2, ReadCache(w, false));
      var s3 := Step(s2, ReadCache(w, false));
      assert EventPending(s3, k) ==> EventPending(s2, k);
      LeadsVersions(s, s3);
      ReadIsNotStale(s3, k, s3.jobs[w].phase);
      t := Succeed(s, s3, w, k);
    } else {
      t := s1;
    }
  }

  /**
   Exactly when a key of the status syncer can come to rest before the informer sees it again: if
   and only if its object is still cached, or it is not pending and no worker holds it that is yet
   to read it, has failed, or has looked up a version that is no longer the copy's.
   */
  lemma RestsIffNotStuckUp(syncer: string, s: State, k: Key)
    requires Reachable(Up, syncer, s)
    ensures (exists t :: Continues(s, t, k) && !Busy(t, k)) <==> !StuckUp(s, k)
  {
    hide Reachable, Sound, VersionsSound, Leads, Continues, Busy, StuckUp;
    ReachableVersions(syncer, s);
    if StuckUp(s, k) {
      forall t | Continues(s, t, k) ensures Busy(t, k) { DeletionStaysPending(s, t, k); }
    } else {
      var t := RestUnlessStuckUp(s, k);
      LeadsContinues(s, t, k);
    }
  }

  // ------------------------------------------------------------- statuses lost

  function ObjectWith(k: Key, status: Value): Object {
    Object(Meta(k.name, k.namespace, "", "", None, None, map[]), map["status" := status])
  }

  /** A value that is neither of two. */
  function OtherThan(u: Value, v: Value): (r: Value)
    ensures r != u && r != v
  {
    if Num(0) != u && Num(0) != v then Num(0) else if Num(1) != u && Num(1) != v then Num(1) else Num(2)
  }

  function CachedStatus(s: State, k: Key): Value {
    if k in s.cache then StatusOf(s.cache[k]) else Null
  }

  /** A policy is seen with a new status, and that is reported. */
  lemma ReportAnew(syncer: string, s: State, k: Key, status: Value) returns (t: State)
    requires Reachable(Up, syncer, s) && k in s.seen && !HubOnly(k.resource) && |k.namespace| > 0
    requires k in s.cache ==> status != CachedStatus(s, k)
    ensures var o := ObjectWith(k, status); Leads(Step(s, Observe(k.resource, o)), t) && KeyOf(k.resource, o) == k && t.cache == s.cache[k := o]
    ensures Reachable(Up, syncer, t) && t.dir == Up && t.syncer == syncer && t.seen == s.seen
    ensures !Busy(t, k) && k !in t.dropped && t.dropped <= s.dropped + {k}
    ensures TargetKey(t, k) in t.target && StatusOf(t.target[TargetKey(t, k)].obj) == status
  {
    hide Reachable, Leads, Sound, Busy, VersionsSound;
    ReachableVersions(syncer, s);
    var o := ObjectWith(k, status);
    var a := Observe(k.resource, o);
    var s1 := Step(s, a);
    NewStatusIsPending(s, k, status);
    ReachStep(Up, syncer, s, a);
    StepSound(s, a);
    LeadsNowhere(s1);
    hide Step;
    var s2 := GiveUp(s1, s1, k);
    t := ProcessUp(s1, s2, k);
    LeadsReaches(Up, syncer, s1, t);
  }

  lemma NewStatusIsPending(s: State, k: Key, status: Value)
    requires s.dir == Up && !HubOnly(k.resource) && (k in s.cache ==> status != CachedStatus(s, k))
    ensures var o := ObjectWith(k, status);
            var t := Step(s, Observe(k.resource, o));
            && t == ObserveStep(s, k.resource, o) && Pending(t, k) && t.cache == s.cache[k := o] && t.target == s.target
            && t.seen == s.seen + {k} && t.dropped == s.dropped && t.dir == Up && t.syncer == s.syncer && KeyOf(k.resource, o) == k
  {
    var t := Step(s, Observe(k.resource, ObjectWith(k, status)));
    var n := t.inbox[|s.inbox|];
    assert n in t.inbox && Enqueues(Up, n) && Subject(n) == k;
  }

  /** The object's key is at rest with no error swallowed, and its copy has another status or is missing. */
  ghost predicate Lost(s: State, k: Key) {
    && k in s.cache && !Busy(s, k) && k !in s.dropped
    && !(TargetKey(s, k) in s.target && StatusOf(s.target[TargetKey(s, k)].obj) == StatusOf(s.cache[k]))
  }

  /** Two observed policies of one copy: both report, and the first one's status is lost. */
  lemma SharedCopyLoses(syncer: string, s: State, k: Key, j: Key) returns (t: State)
    requires Reachable(Up, syncer, s) && k in s.seen && j in s.seen && j != k && TargetKey(s, j) == TargetKey(s, k)
    requires !HubOnly(k.resource) && k.resource == j.resource && |k.namespace| > 0 && |j.namespace| > 0
    ensures Follows(s, t) && t.seen == s.seen && Lost(t, k)
  {
    hide Reachable, Leads, Sound, Busy, Step, VersionsSound;
    ReachableVersions(syncer, s);
    var v := OtherThan(CachedStatus(s, k), Null);
    var s1 := ReportAnew(syncer, s, k, v);
    var u := OtherThan(CachedStatus(s1, j), v);
    t := ReportAnew(syncer, s1, j, u);
    ReachableSound(Up, syncer, s1);
    OthersStayIdle(s1, t, j.resource, ObjectWith(j, u), k);
    FollowsSelf(s);
    FollowsLeads(s, s, Observe(k.resource, ObjectWith(k, v)), s1);
    FollowsLeads(s, s1, Observe(j.resource, ObjectWith(j, u)), t);
    StatusOfObject(k, v);
  }

  lemma FollowsSelf(s: State)
    ensures Follows(s, s)
  {
    assert Run(s, []) == s;
  }

  lemma StatusOfObject(k: Key, status: Value)
    ensures StatusOf(ObjectWith(k, status)) == status
  {
  }

  lemma SharersAreNamespaced(s: State, j: Key, k: Key)
    requires s.dir == Up && s.syncer != "" && j != k && TargetKey(s, j) == TargetKey(s, k)
    ensures |j.namespace| > 0 && |k.namespace| > 0 && j.resource == k.resource
  {
  }

  lemma FollowsReaches(syncer: string, s: State, t: State)
    requires Reachable(Up, syncer, s) && Follows(s, t)
    ensures Reachable(Up, syncer, t)
  {
    var actions :| Run(s, actions) == t;
    RunReaches(Up, syncer, s, actions);
  }

  /**
   Exactly whose status can be lost with no error swallowed: in every reachable state, as long as no
   further object appears, an observed object's status can be lost if and only if another observed
   object is copied to the same place.
   */
  lemma StatusLostIffShared(syncer: string, s: State, k: Key)
    requires Reachable(Up, syncer, s) && syncer != "" && k in s.seen && !HubOnly(k.resource)
    ensures (exists t :: Follows(s, t) && t.seen == s.seen && Lost(t, k)) <==> !OwnCopy(s, k)
  {
    hide Reachable, Follows, Sound, VersionsSound, Busy;
    ReachableVersions(syncer, s);
    if OwnCopy(s, k) {
      forall t | Follows(s, t) && t.seen == s.seen ensures !Lost(t, k) {
        FollowsReaches(syncer, s, t);
        ReachableVersions(syncer, t);
        if k in t.cache && !Busy(t, k) && k !in t.dropped { RestingStatusIsReported(syncer, t, k); }
      }
    } else {
      var j :| j in s.seen && TargetKey(s, j) == TargetKey(s, k) && j != k;
      SharersAreNamespaced(s, j, k);
      var t := SharedCopyLoses(syncer, s, k, j);
    }
  }
}
