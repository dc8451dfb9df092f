/**
 When only eligible objects are applied below. The handlers test eligibility when they enqueue a
 key, and workers do not test it again; so an object that is seen without its label while its key
 is live can be applied all the same, and this is the only way.
 */
module SyncEligibility {
  import opened KubeObjects
  import opened SyncMachine
  import opened SyncSoundness
  import opened SyncConvergence
  import opened SyncRuns

  /** Only an event makes a key live. */
  lemma LiveShrinks(s: State, a: Action, k: Key)
    requires Sound(s) && !a.Observe? && !a.ObserveDelete? && Live(Step(s, a), k)
    ensures Live(s, k)
  {
    var t := Step(s, a);
    match a
    case Deliver(i) => DeliverLive(s, i, k);
    case Get(w) => GetLive(s, w, k);
    case ReadCache(w, _) => SnapshotMoves(s, a); if t != s { MovedLive(s, t, w, k); }
    case Fetch(w, _) => SnapshotMoves(s, a); if t != s { MovedLive(s, t, w, k); }
    case Write(w, outcome) => WriteMoves(s, w, outcome); if t != s { MovedLive(s, t, w, k); }
    case Report(w) => ReportLive(s, w, k);
    case Done(w) => DoneLive(s, w, k);
    case TimerFires(_) =>
    case Touch(_, _) =>
  }

  lemma DeliverLive(s: State, i: nat, k: Key)
    requires Live(DeliverStep(s, i), k)
    ensures Live(s, k)
  {
  }

  lemma GetLive(s: State, w: nat, k: Key)
    requires Sound(s) && Live(GetStep(s, w), k)
    ensures Live(s, k)
  {
    if s.queue != [] { assert s.queue[0] in s.queue; }
  }

  lemma ReportLive(s: State, w: nat, k: Key)
    requires Live(ReportStep(s, w), k)
    ensures Live(s, k)
  {
    ReportMoves(s, w);
  }

  lemma DoneLive(s: State, w: nat, k: Key)
    requires Live(DoneStep(s, w), k)
    ensures Live(s, k)
  {
  }

  lemma MovedLive(s: State, t: State, w: nat, k: Key)
    requires Moved(s, t, w) && t.waiting == s.waiting && Unfinished(s.jobs[w].phase) && Live(t, k)
    ensures Live(s, k)
  {
    if t.jobs[w].key == k { assert s.jobs[w].key == k; }
  }

  /** A write changes the copy of no key but one it holds, unfinished. */
  lemma WriteNeedsLive(s: State, a: Action, k: Key)
    requires s.dir == Down && Lookup(Step(s, a).target, k) != Lookup(s.target, k)
    ensures a.Write? && a.w in s.jobs && s.jobs[a.w].key == k && s.jobs[a.w].phase.Read?
  {
    if a.Write? {
      if a.w in s.jobs { WriteOnlyAt(s, a.w, a.outcome); }
    } else if !a.Touch? {
      OtherStepsLeaveTarget(s, a);
    }
  }

  // ------------------------------------------------------ eligible when applied

  /** What a spec syncer may still apply for k, and what it has applied, is eligible. */
  ghost predicate EligibleSide(s: State, k: Key) {
    && (Live(s, k) && k in s.cache ==> Eligible(s.cache[k]))
    && (forall w | w in s.jobs && s.jobs[w].key == k :: s.jobs[w].phase.Read? && s.jobs[w].phase.view.Some? ==> Eligible(s.jobs[w].phase.view.value))
    && (k in s.target ==> Eligible(s.target[k].obj))
  }

  lemma ObserveEligible(s: State, resource: string, obj: Object, k: Key)
    requires s.dir == Down && Sound(s) && EligibleSide(s, k)
    requires KeyOf(resource, obj) == k && !Eligible(obj) ==> !Live(s, k)
    ensures EligibleSide(ObserveStep(s, resource, obj), k)
  {
    var t := ObserveStep(s, resource, obj);
    assert forall n | n in t.inbox :: n in s.inbox || n == t.inbox[|s.inbox|];
  }

  lemma ObserveDeleteEligible(s: State, gone: Key, k: Key)
    requires s.dir == Down && Sound(s) && EligibleSide(s, k)
    ensures EligibleSide(ObserveDeleteStep(s, gone), k)
  {
    if gone in s.cache && gone != k {
      var t := ObserveDeleteStep(s, gone);
      assert forall n | n in t.inbox :: n in s.inbox || n == t.inbox[|s.inbox|];
      assert Subject(t.inbox[|s.inbox|]) == gone;
      assert Live(t, k) ==> Live(s, k);
    }
  }

  lemma StrippedSameEligibility(o: Object)
    ensures Eligible(Stripped(o, o.meta.namespace)) <==> Eligible(o)
  {
  }

  /** The copy a write leaves below is eligible if the worker's snapshot is. */
  lemma WriteEligible(s: State, w: nat, outcome: Outcome, k: Key)
    requires s.dir == Down && Sound(s) && EligibleSide(s, k)
    ensures k in WriteStep(s, w, outcome).target ==> Eligible(WriteStep(s, w, outcome).target[k].obj)
  {
    if w in s.jobs && s.jobs[w].key == k {
      assert PhaseSound(Down, s.jobs[w]);
      match s.jobs[w].phase
      case Read(Some(o)) =>
        StrippedSameEligibility(o);
        ApplyDownAt(s, w, o, outcome);
      case Read(None) => DeleteDownAt(s, w, outcome);
      case _ =>
    } else {
      if Lookup(WriteStep(s, w, outcome).target, k) != Lookup(s.target, k) { WriteNeedsLive(s, Write(w, outcome), k); }
    }
  }

  lemma ApplyDownAt(s: State, w: nat, o: Object, outcome: Outcome)
    requires w in s.jobs
    ensures var t, k := ApplyDown(s, w, o, outcome), s.jobs[w].key;
            k in t.target ==> (k in s.target && t.target[k] == s.target[k]) || t.target[k].obj == Stripped(o, k.namespace)
  {
  }

  lemma DeleteDownAt(s: State, w: nat, outcome: Outcome)
    requires w in s.jobs
    ensures var t, k := DeleteDown(s, w, outcome), s.jobs[w].key; k in t.target ==> k in s.target && t.target[k] == s.target[k]
  {
  }

  /** Only reading the cache gives a worker an object it did not have. */
  lemma SnapshotIsFromCache(s: State, a: Action, w: nat)
    requires Sound(s) && !a.Observe? && !a.ObserveDelete? && w in Step(s, a).jobs && Step(s, a).jobs[w].phase.Read?
    ensures var job := Step(s, a).jobs[w];
            w in s.jobs && (s.jobs[w] == job || (s.jobs[w] == Job(job.key, Taken) && job.phase.view == Lookup(s.cache, job.key)))
  {
    if a.ReadCache? {
      hide Sound;
    } else if a.Fetch? {
      SnapshotMoves(s, a);
    } else if a.Write? {
      hide Sound;
      WriteMoves(s, a.w, a.outcome);
    } else if !a.Touch? {
      hide Sound;
      QuietStep(s, a);
    }
  }

  lemma SnapshotEligible(s: State, a: Action, k: Key, w: nat)
    requires s.dir == Down && Sound(s) && EligibleSide(s, k) && !a.Observe? && !a.ObserveDelete?
    requires var t := Step(s, a); w in t.jobs && t.jobs[w].key == k && t.jobs[w].phase.Read? && t.jobs[w].phase.view.Some?
    ensures Eligible(Step(s, a).jobs[w].phase.view.value)
  {
    hide Sound, Step, Eligible;
    SnapshotIsFromCache(s, a, w);
  }

  lemma CacheIsKept(s: State, a: Action)
    requires Sound(s) && !a.Observe? && !a.ObserveDelete?
    ensures Step(s, a).cache == s.cache
  {
    hide Sound;
    if a.ReadCache? || a.Fetch? {
      SnapshotMoves(s, a);
    } else if a.Write? {
      WriteMoves(s, a.w, a.outcome);
    } else if !a.Touch? {
      hide Step;
      QuietStep(s, a);
    }
  }

  lemma StepEligible(s: State, a: Action, k: Key)
    requires s.dir == Down && Sound(s) && EligibleSide(s, k)
    requires Observes(a, k) && !Eligible(a.obj) ==> !Live(s, k)
    ensures EligibleSide(Step(s, a), k)
  {
    hide Sound, Live, Eligible;
    match a
    case Observe(resource, obj) => ObserveEligible(s, resource, obj, k);
    case ObserveDelete(gone) => ObserveDeleteEligible(s, gone, k);
    case _ =>
      var t := Step(s, a);
      hide Step;
      CacheIsKept(s, a);
      if Live(t, k) { LiveShrinks(s, a, k); }
      forall w | w in t.jobs && t.jobs[w].key == k && t.jobs[w].phase.Read? && t.jobs[w].phase.view.Some?
        ensures Eligible(t.jobs[w].phase.view.value)
      {
        SnapshotEligible(s, a, k, w);
      }
      TargetEligible(s, a, k);
  }

  lemma TargetEligible(s: State, a: Action, k: Key)
    requires s.dir == Down && Sound(s) && EligibleSide(s, k) && !a.Observe? && !a.ObserveDelete?
    ensures var t := Step(s, a); k in t.target ==> Eligible(t.target[k].obj)
  {
    hide Sound, Live, Eligible;
    if a.Write? {
      WriteEligible(s, a.w, a.outcome, k);
    } else if !a.Touch? {
      OtherStepsLeaveTarget(s, a);
    }
  }

  /** The informer never saw k ineligible while k was live. */
  ghost predicate Careful(s: State, actions: seq<Action>, k: Key) {
    forall n | 0 <= n < |actions| :: Observes(actions[n], k) && !Eligible(actions[n].obj) ==> !Live(Run(s, actions[..n]), k)
  }

  lemma {:induction false} RunEligible(s: State, actions: seq<Action>, k: Key)
    requires s.dir == Down && Sound(s) && EligibleSide(s, k) && Careful(s, actions, k)
    ensures var t := Run(s, actions); t.dir == Down && Sound(t) && EligibleSide(t, k)
  {
    hide Sound, EligibleSide, Step, Live, Eligible;
    if actions != [] {
      var most, a := actions[..|actions| - 1], actions[|actions| - 1];
      assert forall n | 0 <= n < |most| :: most[n] == actions[n] && most[..n] == actions[..n];
      RunEligible(s, most, k);
      StepSound(Run(s, most), a);
      StepFrame(Run(s, most), a);
      StepEligible(Run(s, most), a, k);
    }
  }

  lemma InitEligible(syncer: string, k: Key)
    ensures Sound(Init(Down, syncer)) && EligibleSide(Init(Down, syncer), k)
  {
  }

  /**
   Only eligible objects are applied below, in every run in which the informer does not see the
   object ineligible while its key is live.
   */
  lemma OnlyEligibleApplied(syncer: string, actions: seq<Action>, k: Key)
    requires Careful(Init(Down, syncer), actions, k)
    ensures var s := Run(Init(Down, syncer), actions); k in s.target ==> Eligible(s.target[k].obj)
  {
    hide Sound, Careful;
    InitEligible(syncer, k);
    RunEligible(Init(Down, syncer), actions, k);
  }

  lemma EventKeepsLive(s: State, resource: string, obj: Object, k: Key)
    requires Live(s, k)
    ensures Live(ObserveStep(s, resource, obj), k)
  {
    var t := ObserveStep(s, resource, obj);
    if EventPending(s, k) { InboxGrows(s, t, k); }
  }

  /**
   Eligibility is tested when a key is enqueued, not when it is processed: from every reachable
   state in which the key is live, an object seen without its label can be applied.
   */
  lemma StaleKeyIsApplied(syncer: string, s: State, resource: string, bare: Object) returns (t: State)
    requires Reachable(Down, syncer, s) && Live(s, KeyOf(resource, bare))
    ensures Leads(Step(s, Observe(resource, bare)), t) && t.cache == s.cache[KeyOf(resource, bare) := bare]
    ensures var k := KeyOf(resource, bare); k in t.target && t.target[k].obj == Stripped(bare, k.namespace)
  {
    hide Reachable, Sound, Live;
    var k, s0 := KeyOf(resource, bare), Step(s, Observe(resource, bare));
    DownSettles(syncer, s, k);
    ReachableSound(Down, syncer, s);
    StepSound(s, Observe(resource, bare));
    EventKeepsLive(s, resource, bare, k);
    LeadsNowhere(s0);
    t := ProcessDown(s0, s0, k);
  }

  lemma {:induction false} UnseenIsCareful(s: State, actions: seq<Action>, k: Key)
    requires forall a | a in actions :: !Observes(a, k)
    ensures Careful(s, actions, k)
  {
    forall n | 0 <= n < |actions| ensures !Observes(actions[n], k) { assert actions[n] in actions; }
  }

  /**
   The condition is exact. After any run that kept to it, seeing an ineligible object can lead to
   an ineligible object below, without the informer seeing the key again, if and only if the key
   is live at that moment.
   */
  lemma IneligibleAppliedIffLive(syncer: string, actions: seq<Action>, resource: string, bare: Object)
    requires Careful(Init(Down, syncer), actions, KeyOf(resource, bare)) && !Eligible(bare)
    ensures var k, s := KeyOf(resource, bare), Run(Init(Down, syncer), actions);
            Live(s, k) <==> exists t :: Continues(Step(s, Observe(resource, bare)), t, k) && k in t.target && !Eligible(t.target[k].obj)
  {
    hide Sound, Careful, Live, EligibleSide, Leads, Continues, Eligible, Step;
    var k, s := KeyOf(resource, bare), Run(Init(Down, syncer), actions);
    var s0 := Step(s, Observe(resource, bare));
    InitEligible(syncer, k);
    RunEligible(Init(Down, syncer), actions, k);
    if Live(s, k) {
      var t := StaleKeyIsApplied(syncer, s, resource, bare);
      StrippedSameEligibility(bare);
      LeadsContinues(s0, t, k);
      assert Continues(s0, t, k) && k in t.target && !Eligible(t.target[k].obj);
    } else {
      StepEligible(s, Observe(resource, bare), k);
      StepSound(s, Observe(resource, bare));
      StepFrame(s, Observe(resource, bare));
      forall t | Continues(s0, t, k) ensures k in t.target ==> Eligible(t.target[k].obj) {
        EligibleContinues(s0, t, k);
      }
    }
  }

  lemma EligibleContinues(s: State, t: State, k: Key)
    requires s.dir == Down && Sound(s) && EligibleSide(s, k) && Continues(s, t, k)
    ensures k in t.target ==> Eligible(t.target[k].obj)
  {
    hide Sound, Live, Careful;
    var actions :| (forall a | a in actions :: !Observes(a, k)) && Run(s, actions) == t;
    UnseenIsCareful(s, actions, k);
    RunEligible(s, actions, k);
  }
}
