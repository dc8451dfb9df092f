/**
 What becomes of a key whose object is gone. A failed downstream delete is retried, and deleting
 what is not there fails: exactly when a key can come to rest, and exactly when a deletion is
 carried out below, depends on what is below and on the label the object had.
 */
module SyncRest {
  import opened Options
  import opened KubeObjects
  import opened SyncMachine
  import opened SyncSoundness
  import opened SyncConvergence
  import opened SyncRuns
  import opened SyncEligibility

  ghost predicate HoldsObject(s: State, k: Key) {
    exists w :: w in s.jobs && s.jobs[w].key == k && s.jobs[w].phase.Read? && s.jobs[w].phase.view.Some?
  }

  /** The object is gone, there is nothing below to delete, and the key is still to be processed. */
  ghost predicate Stuck(s: State, k: Key) {
    s.dir == Down && k !in s.cache && k !in s.target && Live(s, k) && !HoldsObject(s, k)
  }

  lemma EventStuck(s: State, a: Action, k: Key)
    requires Stuck(s, k) && (a.Observe? || a.ObserveDelete?) && !Observes(a, k)
    ensures Stuck(Step(s, a), k)
  {
    var t := Step(s, a);
    if EventPending(s, k) { InboxGrows(s, t, k); }
  }

  /** Delivery takes no event away but the delivered one. */
  lemma DeliveredOnly(s: State, i: nat, k: Key)
    requires i < |s.inbox| && EventPending(s, k)
    ensures EventPending(DeliverStep(s, i), k) || (Enqueues(s.dir, s.inbox[i]) && Subject(s.inbox[i]) == k)
  {
    var n :| n in s.inbox && Enqueues(s.dir, n) && Subject(n) == k;
    if n != s.inbox[i] { assert n in s.inbox[..i] + s.inbox[i + 1..]; }
  }

  lemma DeliverStuck(s: State, i: nat, k: Key)
    requires Stuck(s, k)
    ensures Stuck(DeliverStep(s, i), k)
  {
    if i < |s.inbox| && EventPending(s, k) && !EventPending(DeliverStep(s, i), k) {
      DeliveredOnly(s, i, k);
    }
  }

  lemma GetStuck(s: State, w: nat, k: Key)
    requires Sound(s) && Stuck(s, k)
    ensures Stuck(GetStep(s, w), k)
  {
    var t := GetStep(s, w);
    if t != s {
      if s.queue[0] == k {
        assert t.jobs[w] == Job(k, Taken);
      } else if !Pending(s, k) {
        var v :| v in s.jobs && s.jobs[v].key == k && Unfinished(s.jobs[v].phase);
        assert t.jobs[v] == s.jobs[v];
      }
    }
  }

  /** A worker's move keeps k stuck if the worker that holds k makes no copy and does not succeed. */
  lemma MovedStuck(s: State, t: State, w: nat, k: Key)
    requires Stuck(s, k) && Moved(s, t, w) && (k in t.target <==> k in s.target)
    requires s.jobs[w].key == k ==> Unfinished(t.jobs[w].phase) || Pending(t, k) || !Unfinished(s.jobs[w].phase)
    requires s.jobs[w].key == k && t.jobs[w].phase.Read? ==> t.jobs[w].phase.view.None?
    ensures Stuck(t, k)
  {
    if !Pending(s, k) {
      var v :| v in s.jobs && s.jobs[v].key == k && Unfinished(s.jobs[v].phase);
      assert v != w ==> t.jobs[v] == s.jobs[v];
    }
  }

  lemma WriteStuck(s: State, w: nat, outcome: Outcome, k: Key)
    requires Sound(s) && Stuck(s, k)
    ensures Stuck(WriteStep(s, w, outcome), k)
  {
    var t := WriteStep(s, w, outcome);
    WriteMoves(s, w, outcome);
    if t != s {
      assert PhaseSound(s.dir, s.jobs[w]);
      if s.jobs[w].key == k {
        assert s.jobs[w].phase == Read(None);
        WriteDownFacts(s, w, k, None, outcome);
      } else if (k in t.target) != (k in s.target) {
        WriteNeedsLive(s, Write(w, outcome), k);
      }
      MovedStuck(s, t, w, k);
    }
  }

  lemma SnapshotStuck(s: State, a: Action, k: Key)
    requires Sound(s) && Stuck(s, k) && (a.ReadCache? || a.Fetch?)
    ensures Stuck(Step(s, a), k)
  {
    var t := Step(s, a);
    SnapshotMoves(s, a);
    if t != s {
      MovedStuck(s, t, a.w, k);
    }
  }

  lemma ReportStuck(s: State, w: nat, k: Key)
    requires Stuck(s, k)
    ensures Stuck(ReportStep(s, w), k)
  {
    ReportMoves(s, w);
    if ReportStep(s, w) != s { MovedStuck(s, ReportStep(s, w), w, k); }
  }

  lemma DoneStuck(s: State, w: nat, k: Key)
    requires Stuck(s, k)
    ensures Stuck(DoneStep(s, w), k)
  {
    var t := DoneStep(s, w);
    if !Pending(s, k) {
      var v :| v in s.jobs && s.jobs[v].key == k && Unfinished(s.jobs[v].phase);
      assert v in t.jobs && t.jobs[v] == s.jobs[v];
    }
  }

  lemma StepStuck(s: State, a: Action, k: Key)
    requires Sound(s) && Stuck(s, k) && !Observes(a, k)
    ensures Stuck(Step(s, a), k)
  {
    hide Sound, Stuck;
    match a
    case Observe(_, _) => EventStuck(s, a, k);
    case ObserveDelete(_) => EventStuck(s, a, k);
    case Deliver(i) => DeliverStuck(s, i, k);
    case Get(w) => GetStuck(s, w, k);
    case ReadCache(_, _) => SnapshotStuck(s, a, k);
    case Fetch(_, _) => SnapshotStuck(s, a, k);
    case Write(w, outcome) => WriteStuck(s, w, outcome, k);
    case Report(w) => ReportStuck(s, w, k);
    case Done(w) => DoneStuck(s, w, k);
    case TimerFires(fired) => TimerStuck(s, fired, k);
    case Touch(touched, labels) => TouchStuck(s, touched, labels, k);
  }

  lemma TimerStuck(s: State, fired: Key, k: Key)
    requires Stuck(s, k)
    ensures Stuck(TimerStep(s, fired), k)
  {
  }

  lemma TouchStuck(s: State, touched: Key, labels: map<string, string>, k: Key)
    requires Stuck(s, k)
    ensures Stuck(TouchStep(s, touched, labels), k)
  {
  }

  lemma {:induction false} RunStuck(s: State, actions: seq<Action>, k: Key)
    requires Sound(s) && Stuck(s, k) && forall a | a in actions :: !Observes(a, k)
    ensures Sound(Run(s, actions)) && Stuck(Run(s, actions), k)
  {
    hide Sound, Stuck, Step;
    if actions != [] {
      var most, a := actions[..|actions| - 1], actions[|actions| - 1];
      assert a in actions && forall b | b in most :: b in actions;
      RunStuck(s, most, k);
      StepSound(Run(s, most), a);
      StepStuck(Run(s, most), a, k);
    }
  }

  /** A stuck key is retried for ever: whatever happens, until the informer sees it again, it is never at rest. */
  lemma StuckStays(s: State, t: State, k: Key)
    requires Sound(s) && Stuck(s, k) && Continues(s, t, k)
    ensures Stuck(t, k) && Busy(t, k) && !Quiet(t)
  {
    var actions :| (forall a | a in actions :: !Observes(a, k)) && Run(s, actions) == t;
    RunStuck(s, actions, k);
  }

  /** A key that is not live can be given back, if anyone holds it. */
  lemma RestUnlessLive(s0: State, s: State, k: Key) returns (t: State)
    requires From(s0, s) && !Live(s, k)
    ensures Leads(s0, t) && !Busy(t, k)
  {
    t := s;
    if k in s.processing {
      var w :| w in s.jobs && s.jobs[w].key == k;
      match s.jobs[w].phase
      case Written(ok) => t := GiveBack(s0, s, w, k, ok);
      case Reported(ok) =>
        DoneFacts(s, w, k, ok);
        StepFrom(s0, s, Done(w));
        t := Step(s, Done(w));
        assert EventPending(t, k) <==> EventPending(s, k);
    }
  }

  /** A key that is not stuck can come to rest. */
  lemma RestUnlessStuck(s: State, k: Key) returns (t: State)
    requires s.dir == Down && Sound(s) && !Stuck(s, k)
    ensures Leads(s, t) && !Busy(t, k)
  {
    hide Sound, Step, Leads, Busy;
    LeadsNowhere(s);
    if !Live(s, k) {
      t := RestUnlessLive(s, s, k);
    } else if k in s.cache || k in s.target {
      t := ProcessDown(s, s, k);
    } else {
      var w :| w in s.jobs && s.jobs[w].key == k && s.jobs[w].phase.Read? && s.jobs[w].phase.view.Some?;
      WriteDownFacts(s, w, k, s.jobs[w].phase.view, Accepted);
      StepFrom(s, s, Write(w, Accepted));
      var s1 := Step(s, Write(w, Accepted));
      if Live(s1, k) { t := ProcessDown(s, s1, k); } else { t := RestUnlessLive(s, s1, k); }
    }
  }

  /**
   Whether a key can come to rest before the informer sees it again depends on what is below: it
   cannot if and only if its object is gone, it is still to be processed, nothing is below and no
   worker is about to put something there. The failed delete is then retried for ever.
   */
  lemma RestsIffNotStuck(syncer: string, s: State, k: Key)
    requires Reachable(Down, syncer, s)
    ensures (exists t :: Continues(s, t, k) && !Busy(t, k)) <==> !Stuck(s, k)
  {
    hide Reachable, Sound, Leads, Continues, Busy, Stuck;
    DownSettles(syncer, s, k);
    ReachableSound(Down, syncer, s);
    if Stuck(s, k) {
      forall t | Continues(s, t, k) ensures Busy(t, k) { StuckStays(s, t, k); }
    } else {
      var t := RestUnlessStuck(s, k);
      LeadsContinues(s, t, k);
    }
  }

  /**
   The everyday way to get stuck: in any reachable state, an eligible object that is seen and
   deleted again before anything of it was applied or read leaves its key stuck, and the syncer
   is never again quiet until the key is seen once more.
   */
  lemma DeletedBeforeAppliedIsStuck(syncer: string, s: State, resource: string, obj: Object) returns (t: State)
    requires Reachable(Down, syncer, s) && Eligible(obj)
    requires var k := KeyOf(resource, obj); k !in s.cache && k !in s.target && !HoldsObject(s, k)
    ensures var k := KeyOf(resource, obj);
            && t == Step(Step(s, Observe(resource, obj)), ObserveDelete(k)) && Stuck(t, k)
            && forall u | Continues(t, u, k) :: Stuck(u, k) && !Quiet(u)
  {
    hide Reachable, Continues;
    var k := KeyOf(resource, obj);
    DownSettles(syncer, s, k);
    ReachableSound(Down, syncer, s);
    t := SeenAndDeleted(s, resource, obj);
    hide Stuck, Step, Sound;
    StepSound(s, Observe(resource, obj));
    StepSound(Step(s, Observe(resource, obj)), ObserveDelete(k));
    forall u | Continues(t, u, k) ensures Stuck(u, k) && !Quiet(u) { StuckStays(t, u, k); }
  }

  lemma SeenAndDeleted(s: State, resource: string, obj: Object) returns (t: State)
    requires s.dir == Down && Eligible(obj)
    requires var k := KeyOf(resource, obj); k !in s.cache && k !in s.target && !HoldsObject(s, k)
    ensures t == Step(Step(s, Observe(resource, obj)), ObserveDelete(KeyOf(resource, obj))) && Stuck(t, KeyOf(resource, obj))
  {
    var s1 := Step(s, Observe(resource, obj));
    t := Step(s1, ObserveDelete(KeyOf(resource, obj)));
    var n := s1.inbox[|s.inbox|];
    assert n in t.inbox && Enqueues(Down, n) && Subject(n) == KeyOf(resource, obj);
  }

  // ------------------------------------------------- deleted, and deleted below

  /** The object is gone and nothing more will be done about it. */
  ghost predicate Forgotten(s: State, k: Key) {
    s.dir == Down && k !in s.cache && !Live(s, k)
  }

  lemma EventForgotten(s: State, a: Action, k: Key)
    requires Sound(s) && Forgotten(s, k) && (a.Observe? || a.ObserveDelete?) && !Observes(a, k)
    ensures Forgotten(Step(s, a), k)
  {
    var t := Step(s, a);
    if a.Observe? || a.key in s.cache {
      assert forall n | n in t.inbox :: n in s.inbox || n == t.inbox[|s.inbox|];
    }
  }

  lemma StepForgotten(s: State, a: Action, k: Key)
    requires Sound(s) && Forgotten(s, k) && !Observes(a, k)
    ensures Forgotten(Step(s, a), k) && Lookup(Step(s, a).target, k) == Lookup(s.target, k)
  {
    if a.Observe? || a.ObserveDelete? {
      EventForgotten(s, a, k);
    } else {
      CacheIsKept(s, a);
      StepFrame(s, a);
      if Live(Step(s, a), k) { LiveShrinks(s, a, k); }
    }
    if Lookup(Step(s, a).target, k) != Lookup(s.target, k) { WriteNeedsLive(s, a, k); }
  }

  lemma {:induction false} RunForgotten(s: State, actions: seq<Action>, k: Key)
    requires Sound(s) && Forgotten(s, k) && forall a | a in actions :: !Observes(a, k)
    ensures var t := Run(s, actions); Sound(t) && Forgotten(t, k) && Lookup(t.target, k) == Lookup(s.target, k)
  {
    hide Sound, Forgotten, Step;
    if actions != [] {
      var most, a := actions[..|actions| - 1], actions[|actions| - 1];
      assert a in actions && forall b | b in most :: b in actions;
      RunForgotten(s, most, k);
      StepSound(Run(s, most), a);
      StepForgotten(Run(s, most), a, k);
    }
  }

  lemma ForgottenStays(s: State, t: State, k: Key)
    requires Sound(s) && Forgotten(s, k) && Continues(s, t, k)
    ensures Lookup(t.target, k) == Lookup(s.target, k)
  {
    var actions :| (forall a | a in actions :: !Observes(a, k)) && Run(s, actions) == t;
    RunForgotten(s, actions, k);
  }

  lemma DeleteIsLive(s: State, k: Key)
    requires s.dir == Down && Sound(s) && k in s.cache
    ensures var t := Step(s, ObserveDelete(k)); t.dir == Down && k !in t.cache && t.target == s.target && (Live(t, k) <==> Eligible(s.cache[k]) || Live(s, k))
  {
    var t := Step(s, ObserveDelete(k));
    var n := t.inbox[|s.inbox|];
    assert Subject(n) == k && n in t.inbox;
    assert forall m | m in t.inbox :: m in s.inbox || m == n;
    if EventPending(s, k) { InboxGrows(s, t, k); }
    assert EventPending(t, k) <==> EventPending(s, k) || Eligible(s.cache[k]);
  }

  /**
   When a deletion reaches the hub below, exactly: in any reachable state in which an object and
   its copy exist, deleting the object can lead to the copy's deletion, without the informer
   seeing the key again, if and only if the object is labelled when it is deleted or its key is
   still live. An object that lost its label long before it was deleted stays below for ever.
   */
  lemma DeletedBelowIffLabelled(syncer: string, s: State, k: Key)
    requires Reachable(Down, syncer, s) && k in s.cache && k in s.target
    ensures (exists t :: Continues(Step(s, ObserveDelete(k)), t, k) && k !in t.target) <==> Eligible(s.cache[k]) || Live(s, k)
  {
    hide Reachable, Sound, Leads, Continues, Live, Step;
    DownSettles(syncer, s, k);
    ReachableSound(Down, syncer, s);
    var s0 := Step(s, ObserveDelete(k));
    DeleteIsLive(s, k);
    StepSound(s, ObserveDelete(k));
    if Live(s0, k) {
      LeadsNowhere(s0);
      var t := ProcessDown(s0, s0, k);
      LeadsContinues(s0, t, k);
    } else {
      forall t | Continues(s0, t, k) ensures k in t.target {
        ForgottenStays(s0, t, k);
      }
    }
  }
}
