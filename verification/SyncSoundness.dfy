/**
 What every step of a syncer keeps about its queue and workers: the queue lists exactly the
 dirty keys nobody holds, no two workers ever hold the same key, and every key a worker takes
 is followed by one result, one Forget or re-add that fits the result, and one Done.
 */
module SyncSoundness {
  import opened Options
  import opened KubeObjects
  import opened SyncMachine

  predicate NoDuplicates(q: seq<Key>) {
    forall i, j | 0 <= i < j < |q| :: q[i] != q[j]
  }

  /** The queue lists exactly the dirty keys that no worker holds, each once. */
  ghost predicate QueueSound(s: State) {
    && NoDuplicates(s.queue)
    && (forall k :: k in s.queue <==> k in s.dirty && k !in s.processing)
  }

  /** The keys being processed are exactly the workers' keys, and no two workers share one. */
  ghost predicate WorkersSound(s: State) {
    && (forall w | w in s.jobs :: s.jobs[w].key in s.processing)
    && (forall k | k in s.processing :: exists w :: w in s.jobs && s.jobs[w].key == k)
    && (forall v, w | v in s.jobs && w in s.jobs && s.jobs[v].key == s.jobs[w].key :: v == w)
  }

  /** A worker's snapshot is a version of the object its key names, and fits the direction. */
  predicate PhaseSound(dir: Direction, job: Job) {
    match job.phase
    case Read(None) => dir == Down
    case Read(Some(obj)) => KeyOf(job.key.resource, obj) == job.key
    case Fetched(obj, _) => dir == Up && !HubOnly(job.key.resource) && KeyOf(job.key.resource, obj) == job.key
    case Patched(obj) => dir == Up && !HubOnly(job.key.resource) && KeyOf(job.key.resource, obj) == job.key
    case _ => true
  }

  ghost predicate KeysSound(s: State) {
    && (forall k | k in s.cache :: KeyOf(k.resource, s.cache[k]) == k && k in s.seen && k !in s.gone)
    && (forall n | n in s.inbox :: Subject(n) in s.seen && (n.Updated? ==> KeyOf(n.resource, n.prior) == Subject(n)))
    && s.dirty <= s.seen && s.processing <= s.seen && s.waiting <= s.seen
    && (forall w | w in s.jobs :: PhaseSound(s.dir, s.jobs[w]))
  }

  ghost predicate Sound(s: State) {
    QueueSound(s) && WorkersSound(s) && KeysSound(s)
  }

  lemma AppendKey(q: seq<Key>, k: Key)
    ensures forall x :: x in q + [k] <==> x in q || x == k
    ensures NoDuplicates(q) && k !in q ==> NoDuplicates(q + [k])
  {
  }

  lemma EnqueueSound(s: State, k: Key)
    requires Sound(s) && k in s.seen
    ensures Sound(Enqueue(s, k))
  {
  }

  lemma ObserveSound(s: State, resource: string, obj: Object)
    requires Sound(s)
    ensures Sound(ObserveStep(s, resource, obj))
  {
    var t := ObserveStep(s, resource, obj);
    assert forall n | n in t.inbox :: n in s.inbox || n == t.inbox[|s.inbox|];
  }

  lemma ObserveDeleteSound(s: State, k: Key)
    requires Sound(s)
    ensures Sound(ObserveDeleteStep(s, k))
  {
  }

  lemma DeliverSound(s: State, i: nat)
    requires Sound(s)
    ensures Sound(DeliverStep(s, i))
  {
    if i < |s.inbox| {
      var n := s.inbox[i];
      assert n in s.inbox;
      var rest := s.(inbox := s.inbox[..i] + s.inbox[i + 1..]);
      assert forall m | m in rest.inbox :: m in s.inbox;
      assert Sound(rest);
      if Enqueues(s.dir, n) { EnqueueSound(rest, Subject(n)); }
    }
  }

  lemma GetKeepsQueue(s: State, w: nat)
    requires QueueSound(s) && w !in s.jobs && s.queue != []
    ensures QueueSound(GetStep(s, w)) && s.queue[0] in s.dirty && s.queue[0] !in s.processing
  {
  }

  lemma GetSound(s: State, w: nat)
    requires Sound(s)
    ensures Sound(GetStep(s, w))
  {
    if w !in s.jobs && s.queue != [] {
      var t := GetStep(s, w);
      GetKeepsQueue(s, w);
      forall x | x in t.processing ensures exists v :: v in t.jobs && t.jobs[v].key == x {
        if x == s.queue[0] { assert t.jobs[w].key == x; }
        else { var v :| v in s.jobs && s.jobs[v].key == x; assert t.jobs[v].key == x; }
      }
    }
  }

  /** From s to t, worker w moves to another phase of its key and nothing but the target side changes. */
  ghost predicate Moved(s: State, t: State, w: nat) {
    && w in s.jobs && w in t.jobs
    && t.jobs == s.jobs[w := t.jobs[w]] && t.jobs[w].key == s.jobs[w].key
    && t.dir == s.dir && t.syncer == s.syncer && t.cache == s.cache && t.inbox == s.inbox && t.seen == s.seen && t.gone == s.gone
    && t.queue == s.queue && t.dirty == s.dirty && t.processing == s.processing && s.waiting <= t.waiting
  }

  lemma MovedWorkers(s: State, t: State, w: nat)
    requires WorkersSound(s) && Moved(s, t, w)
    ensures WorkersSound(t)
  {
    forall x | x in t.processing ensures exists v :: v in t.jobs && t.jobs[v].key == x {
      var v :| v in s.jobs && s.jobs[v].key == x;
      assert t.jobs[v].key == x;
    }
  }

  lemma MovedSound(s: State, t: State, w: nat)
    requires Sound(s) && Moved(s, t, w) && PhaseSound(s.dir, t.jobs[w]) && t.waiting <= s.seen
    ensures Sound(t)
  {
    hide WorkersSound;
    MovedWorkers(s, t, w);
  }

  /** From s to t, worker w took a snapshot or failed to; the target is untouched. */
  ghost predicate Snaps(s: State, t: State, w: nat) {
    && Moved(s, t, w) && PhaseSound(s.dir, t.jobs[w]) && t.waiting == s.waiting
    && t.target == s.target && t.dropped == s.dropped
    && PhaseTurn(s.jobs[w].phase) == Working
    && if t.jobs[w].phase == Written(false) then t.log == s.log + [(s.jobs[w].key, Processed(false))]
       else PhaseTurn(t.jobs[w].phase) == Working && t.log == s.log
  }

  lemma ReadMoves(s: State, w: nat, failed: bool)
    requires Sound(s)
    ensures ReadStep(s, w, failed) == s || Snaps(s, ReadStep(s, w, failed), w)
  {
    if w in s.jobs && s.jobs[w].phase.Taken? {
      var k := s.jobs[w].key;
      if failed || (s.dir == Up && k !in s.cache) {
        assert ReadStep(s, w, failed) == Finish(s, w, false);
      } else {
        assert ReadStep(s, w, failed) == Advance(s, w, Read(Lookup(s.cache, k)));
      }
    }
  }

  lemma FetchMoves(s: State, w: nat, failed: bool)
    requires Sound(s)
    ensures FetchStep(s, w, failed) == s || Snaps(s, FetchStep(s, w, failed), w)
  {
    if w in s.jobs { assert PhaseSound(s.dir, s.jobs[w]); }
  }

  /** Reading the cache or the upstream copy takes a snapshot or fails. */
  lemma SnapshotMoves(s: State, a: Action)
    requires Sound(s) && (a.ReadCache? || a.Fetch?)
    ensures Step(s, a) == s || Snaps(s, Step(s, a), a.w)
  {
    if a.ReadCache? { ReadMoves(s, a.w, a.failed); } else { FetchMoves(s, a.w, a.failed); }
  }

  /** From s to t, processing of worker w's key returned. */
  ghost predicate Ends(s: State, t: State, w: nat) {
    && Moved(s, t, w) && t.waiting == s.waiting && t.jobs[w].phase.Written?
    && t.log == s.log + [(s.jobs[w].key, Processed(t.jobs[w].phase.ok))]
  }

  /** Finishing from a state that differs from s only on the target side. */
  lemma FinishEnds(s: State, s1: State, w: nat, ok: bool)
    requires w in s.jobs
    requires s1.dir == s.dir && s1.syncer == s.syncer && s1.cache == s.cache && s1.inbox == s.inbox && s1.queue == s.queue
    requires s1.dirty == s.dirty && s1.processing == s.processing && s1.waiting == s.waiting && s1.jobs == s.jobs
    requires s1.seen == s.seen && s1.gone == s.gone && s1.log == s.log
    ensures Ends(s, Finish(s1, w, ok), w)
  {
  }

  lemma ApplyDownEnds(s: State, w: nat, obj: Object, outcome: Outcome)
    requires w in s.jobs
    ensures Ends(s, ApplyDown(s, w, obj, outcome), w)
  {
  }

  lemma DeleteDownEnds(s: State, w: nat, outcome: Outcome)
    requires w in s.jobs
    ensures Ends(s, DeleteDown(s, w, outcome), w)
  {
  }

  /** From s to t, worker w made a new upstream copy of what it had read, and has yet to patch its status. */
  ghost predicate Copies(s: State, t: State, w: nat) {
    && Moved(s, t, w) && t.waiting == s.waiting && t.log == s.log && t.dropped == s.dropped
    && s.jobs[w].phase.Fetched? && t.jobs[w].phase == Patched(s.jobs[w].phase.obj)
  }

  lemma ApplyUpMoves(s: State, w: nat, obj: Object, outcome: Outcome)
    requires w in s.jobs && s.jobs[w].phase == Fetched(obj, None)
    ensures var t := ApplyUp(s, w, obj, outcome); if outcome == Accepted then Copies(s, t, w) else Ends(s, t, w)
  {
  }

  lemma ApplyStatusUpEnds(s: State, w: nat, obj: Object, outcome: Outcome)
    requires w in s.jobs
    ensures Ends(s, ApplyStatusUp(s, w, obj, outcome), w)
  {
  }

  lemma UpdateUpEnds(s: State, w: nat, obj: Object, version: nat, outcome: Outcome)
    requires w in s.jobs
    ensures Ends(s, UpdateUp(s, w, obj, version, outcome), w)
  {
  }

  /** A write ends the processing of the worker's key, or is the first of two. */
  lemma WriteMoves(s: State, w: nat, outcome: Outcome)
    ensures var t := WriteStep(s, w, outcome);
            t == s || ((Ends(s, t, w) || Copies(s, t, w)) && PhaseTurn(s.jobs[w].phase) == Working)
  {
    if w in s.jobs {
      FinishEnds(s, s, w, outcome == Accepted);
      match s.jobs[w].phase
      case Read(Some(obj)) => ApplyDownEnds(s, w, obj, outcome);
      case Read(None) => DeleteDownEnds(s, w, outcome);
      case Fetched(obj, None) => ApplyUpMoves(s, w, obj, outcome);
      case Fetched(obj, Some(version)) => UpdateUpEnds(s, w, obj, version, outcome);
      case Patched(obj) => ApplyStatusUpEnds(s, w, obj, outcome);
      case _ =>
    }
  }

  lemma ReportMoves(s: State, w: nat)
    ensures var t := ReportStep(s, w);
            t == s || (Moved(s, t, w) && t.target == s.target && t.dropped == s.dropped
                       && s.jobs[w].phase.Written? && t.jobs[w].phase == Reported(s.jobs[w].phase.ok)
                       && t.waiting == (if s.jobs[w].phase.ok then s.waiting else s.waiting + {s.jobs[w].key})
                       && t.log == s.log + [(s.jobs[w].key, if s.jobs[w].phase.ok then Forgot else ReAdded)])
  {
  }

  lemma DoneSound(s: State, w: nat)
    requires Sound(s)
    ensures Sound(DoneStep(s, w))
  {
    var t := DoneStep(s, w);
    if w in s.jobs && s.jobs[w].phase.Reported? {
      var k := s.jobs[w].key;
      AppendKey(s.queue, k);
      forall x | x in t.processing ensures exists v :: v in t.jobs && t.jobs[v].key == x {
        var v :| v in s.jobs && s.jobs[v].key == x;
        assert t.jobs[v].key == x;
      }
    }
  }

  lemma TimerSound(s: State, k: Key)
    requires Sound(s)
    ensures Sound(TimerStep(s, k))
  {
    if k in s.waiting {
      var s1 := s.(waiting := s.waiting - {k});
      assert Sound(s1);
      EnqueueSound(s1, k);
    }
  }

  lemma StepSound(s: State, a: Action)
    requires Sound(s)
    ensures Sound(Step(s, a))
  {
    match a
    case Observe(resource, obj) => ObserveSound(s, resource, obj);
    case ObserveDelete(k) => ObserveDeleteSound(s, k);
    case Deliver(i) => DeliverSound(s, i);
    case Get(w) => GetSound(s, w);
    case ReadCache(w, _) => SnapshotMoves(s, a); if Step(s, a) != s { MovedSound(s, Step(s, a), w); }
    case Fetch(w, _) => SnapshotMoves(s, a); if Step(s, a) != s { MovedSound(s, Step(s, a), w); }
    case Write(w, outcome) => WriteMoves(s, w, outcome); if Step(s, a) != s { MovedSound(s, Step(s, a), w); }
    case Report(w) => ReportMoves(s, w); if Step(s, a) != s { MovedSound(s, Step(s, a), w); }
    case Done(w) => DoneSound(s, w);
    case TimerFires(k) => TimerSound(s, k);
    case Touch(_, _) =>
  }

  /** Any interleaving keeps the queue and the workers consistent; workers exclude each other per key. */
  lemma {:induction false} RunSound(dir: Direction, syncer: string, actions: seq<Action>)
    ensures Sound(Run(Init(dir, syncer), actions))
  {
    if actions != [] {
      RunSound(dir, syncer, actions[..|actions| - 1]);
      StepSound(Run(Init(dir, syncer), actions[..|actions| - 1]), actions[|actions| - 1]);
    }
  }

  /** In every reachable state the queue and the workers are consistent. */
  lemma ReachableSound(dir: Direction, syncer: string, s: State)
    requires Reachable(dir, syncer, s)
    ensures Sound(s)
  {
    var actions :| Run(Init(dir, syncer), actions) == s;
    RunSound(dir, syncer, actions);
  }

  // ----------------------------------------------------------- the worker log

  /** The protocol a key must follow: Got, a result, Forget or re-add to fit it, Done. */
  datatype Turn = Idle(ok: bool) | Working | Ended(ok: bool) | Told(ok: bool) | Broken

  function NextTurn(turn: Turn, op: Op): Turn {
    match (turn, op)
    case (Idle(_), Got) => Working
    case (Working, Processed(ok)) => Ended(ok)
    case (Ended(true), Forgot) => Told(true)
    case (Ended(false), ReAdded) => Told(false)
    case (Told(ok), Finished) => Idle(ok)
    case _ => Broken
  }

  function TurnOf(log: seq<(Key, Op)>, k: Key): Turn {
    if log == [] then Idle(true)
    else
      var turn, last := TurnOf(log[..|log| - 1], k), log[|log| - 1];
      if last.0 == k then NextTurn(turn, last.1) else turn
  }

  function PhaseTurn(phase: Phase): Turn {
    match phase
    case Written(ok) => Ended(ok)
    case Reported(ok) => Told(ok)
    case _ => Working
  }

  /** The log of a key says where its worker is; a failed attempt is waiting or dirty until the next one. */
  ghost predicate Logged(s: State) {
    && (forall w | w in s.jobs :: TurnOf(s.log, s.jobs[w].key) == PhaseTurn(s.jobs[w].phase))
    && (forall k | k !in s.processing :: TurnOf(s.log, k).Idle?)
    && (forall k :: TurnOf(s.log, k) == Idle(false) || TurnOf(s.log, k) == Told(false) ==> k in s.waiting || k in s.dirty)
  }

  lemma LogOne(log: seq<(Key, Op)>, k: Key, op: Op)
    ensures forall x :: TurnOf(log + [(k, op)], x) == if x == k then NextTurn(TurnOf(log, x), op) else TurnOf(log, x)
  {
  }

  lemma MovedLogged(s: State, t: State, w: nat, op: Op)
    requires Sound(s) && Logged(s) && Moved(s, t, w)
    requires t.log == s.log + [(s.jobs[w].key, op)]
    requires PhaseTurn(t.jobs[w].phase) == NextTurn(PhaseTurn(s.jobs[w].phase), op)
    requires PhaseTurn(t.jobs[w].phase) == Told(false) ==> s.jobs[w].key in t.waiting
    ensures Logged(t)
  {
  }

  lemma CopiesLogged(s: State, t: State, w: nat)
    requires Sound(s) && Logged(s) && Copies(s, t, w)
    ensures Logged(t)
  {
  }

  lemma SnapshotLogged(s: State, a: Action)
    requires Sound(s) && Logged(s) && (a.ReadCache? || a.Fetch?)
    ensures Logged(Step(s, a))
  {
    var t := Step(s, a);
    SnapshotMoves(s, a);
    if t != s && t.jobs[a.w].phase == Written(false) { MovedLogged(s, t, a.w, Processed(false)); }
  }

  lemma ReportLogged(s: State, w: nat)
    requires Sound(s) && Logged(s)
    ensures Logged(ReportStep(s, w))
  {
    var t := ReportStep(s, w);
    ReportMoves(s, w);
    if t != s { MovedLogged(s, t, w, if s.jobs[w].phase.ok then Forgot else ReAdded); }
  }

  lemma GetLogged(s: State, w: nat)
    requires Sound(s) && Logged(s)
    ensures Logged(GetStep(s, w))
  {
  }

  lemma DoneLogged(s: State, w: nat)
    requires Sound(s) && Logged(s)
    ensures Logged(DoneStep(s, w))
  {
    if w in s.jobs {
      LogOne(s.log, s.jobs[w].key, Finished);
    }
  }

  /** Steps that are not a worker's leave the log alone and keep waiting or dirty keys so. */
  lemma QuietMoves(s: State, a: Action)
    requires a.Observe? || a.ObserveDelete? || a.Deliver? || a.TimerFires? || a.Touch?
    ensures var t := Step(s, a);
            && t.log == s.log && t.jobs == s.jobs && t.processing == s.processing
            && forall k | k in s.waiting || k in s.dirty :: k in t.waiting || k in t.dirty
  {
    hide Enqueues, Eligible;
  }

  lemma QuietLogged(s: State, t: State)
    requires Logged(s)
    requires t.log == s.log && t.jobs == s.jobs && t.processing == s.processing
    requires forall k | k in s.waiting || k in s.dirty :: k in t.waiting || k in t.dirty
    ensures Logged(t)
  {
  }

  lemma StepLogged(s: State, a: Action)
    requires Sound(s) && Logged(s)
    ensures Logged(Step(s, a))
  {
    hide Sound, Logged;
    var t := Step(s, a);
    match a
    case Get(w) => GetLogged(s, w);
    case ReadCache(_, _) => SnapshotLogged(s, a);
    case Fetch(_, _) => SnapshotLogged(s, a);
    case Write(w, outcome) =>
      WriteMoves(s, w, outcome);
      if Ends(s, t, w) { MovedLogged(s, t, w, Processed(t.jobs[w].phase.ok)); } else if t != s { CopiesLogged(s, t, w); }
    case Report(w) => ReportLogged(s, w);
    case Done(w) => DoneLogged(s, w);
    case _ => QuietMoves(s, a); QuietLogged(s, t);
  }

  lemma DownResults(s: State, w: nat, obj: Object, outcome: Outcome)
    requires w in s.jobs
    ensures w in ApplyDown(s, w, obj, outcome).jobs && ApplyDown(s, w, obj, outcome).jobs[w] == Job(s.jobs[w].key, Written(outcome == Accepted))
    ensures w in DeleteDown(s, w, outcome).jobs && DeleteDown(s, w, outcome).jobs[w] == Job(s.jobs[w].key, Written(outcome == Accepted && s.jobs[w].key in s.target))
  {
    hide Stripped;
  }

  lemma UpResults(s: State, w: nat, obj: Object, version: nat, outcome: Outcome)
    requires w in s.jobs
    ensures var t := UpdateUp(s, w, obj, version, outcome);
            var tk := TargetKey(s, s.jobs[w].key);
            w in t.jobs && t.jobs[w] == Job(s.jobs[w].key, Written(outcome == Accepted && tk in s.target && s.target[tk].version == version))
    ensures var t := ApplyUp(s, w, obj, outcome); w in t.jobs && t.jobs[w] == Job(s.jobs[w].key, if outcome == Accepted then Patched(obj) else Written(true))
    ensures var t := ApplyStatusUp(s, w, obj, outcome); w in t.jobs && t.jobs[w] == Job(s.jobs[w].key, Written(true))
  {
    hide Stripped, WithStatus, StatusOf;
  }

  /**
   What a request that fails means: every error is returned, and so retried, but those of the two
   patches that make a new upstream copy, which are swallowed.
   */
  lemma ErrorIsReturned(s: State, w: nat, outcome: Outcome)
    requires Sound(s) && w in s.jobs && WriteStep(s, w, outcome) != s
    ensures var t, k := WriteStep(s, w, outcome), s.jobs[w].key;
            w in t.jobs && t.jobs[w].key == k &&
            match s.jobs[w].phase
            case Read(Some(_)) => t.jobs[w].phase == Written(outcome == Accepted)
            case Read(None) => t.jobs[w].phase == Written(outcome == Accepted && k in s.target)
            case Fetched(_, Some(version)) =>
              t.jobs[w].phase == Written(outcome == Accepted && TargetKey(s, k) in s.target && s.target[TargetKey(s, k)].version == version)
            case Fetched(obj, None) => t.jobs[w].phase == if outcome == Accepted then Patched(obj) else Written(true)
            case Patched(_) => t.jobs[w].phase == Written(true)
            case _ => false
  {
    assert PhaseSound(s.dir, s.jobs[w]);
    hide Sound, ApplyDown, DeleteDown, ApplyUp, ApplyStatusUp, UpdateUp, TargetKey, PhaseSound;
    match s.jobs[w].phase
    case Read(Some(obj)) => DownResults(s, w, obj, outcome);
    case Read(None) => DownResults(s, w, Object(Meta("", "", "", "", None, None, map[]), map[]), outcome);
    case Fetched(obj, Some(version)) => UpResults(s, w, obj, version, outcome);
    case Fetched(obj, None) => UpResults(s, w, obj, 0, outcome);
    case Patched(obj) => UpResults(s, w, obj, 0, outcome);
    case _ =>
  }

  function Count(log: seq<(Key, Op)>, k: Key, op: Op): nat {
    if log == [] then 0
    else Count(log[..|log| - 1], k, op) + if log[|log| - 1] == (k, op) then 1 else 0
  }

  /** What following the protocol means in numbers. */
  lemma {:induction false} TurnCounts(log: seq<(Key, Op)>, k: Key)
    requires !TurnOf(log, k).Broken?
    ensures Count(log, k, Got) == Count(log, k, Finished) + if TurnOf(log, k).Idle? then 0 else 1
    ensures Count(log, k, Processed(true)) == Count(log, k, Forgot) + if TurnOf(log, k) == Ended(true) then 1 else 0
    ensures Count(log, k, Processed(false)) == Count(log, k, ReAdded) + if TurnOf(log, k) == Ended(false) then 1 else 0
    ensures Count(log, k, Forgot) + Count(log, k, ReAdded) == Count(log, k, Finished) + if TurnOf(log, k).Told? then 1 else 0
  {
    if log != [] {
      TurnCounts(log[..|log| - 1], k);
    }
  }

  lemma {:induction false} RunLogged(dir: Direction, syncer: string, actions: seq<Action>)
    ensures Logged(Run(Init(dir, syncer), actions))
  {
    if actions != [] {
      RunLogged(dir, syncer, actions[..|actions| - 1]);
      RunSound(dir, syncer, actions[..|actions| - 1]);
      StepLogged(Run(Init(dir, syncer), actions[..|actions| - 1]), actions[|actions| - 1]);
    }
  }

  /**
   No failed work is lost. In every reachable state, a key nobody holds was given back by Done as
   often as it was taken, each time after exactly one Forget or re-add, Forget exactly when
   processing succeeded; and if its latest attempt failed, it is waiting for its retry or dirty.
   */
  lemma NoFailedWorkLost(dir: Direction, syncer: string, s: State, k: Key)
    requires Reachable(dir, syncer, s)
    ensures !TurnOf(s.log, k).Broken?
    ensures Count(s.log, k, Got) == Count(s.log, k, Finished) + (if k in s.processing then 1 else 0)
    ensures k !in s.processing ==>
              && Count(s.log, k, Forgot) + Count(s.log, k, ReAdded) == Count(s.log, k, Finished)
              && Count(s.log, k, Forgot) == Count(s.log, k, Processed(true))
              && Count(s.log, k, ReAdded) == Count(s.log, k, Processed(false))
              && (TurnOf(s.log, k) == Idle(false) ==> k in s.waiting || k in s.dirty)
  {
    var actions :| Run(Init(dir, syncer), actions) == s;
    RunSound(dir, syncer, actions);
    RunLogged(dir, syncer, actions);
    if k in s.processing {
      var w :| w in s.jobs && s.jobs[w].key == k;
    }
    TurnCounts(s.log, k);
  }
}
