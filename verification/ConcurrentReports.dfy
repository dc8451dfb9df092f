/**
 Any number of updaters report to one policy at a time. Each gets the policy, computes a new
 status from its copy and writes it back under the version it read; the API server rejects a
 stale version and the updater starts over from a fresh copy, a bounded number of times.
 No interleaving loses a report that was written.
 */
module ConcurrentReports {
  import opened Options
  import opened KubeObjects
  import opened Compliance
  import opened SummaryCodec

  /** Attempts made by the default retry on conflict. */
  const ATTEMPTS := 5

  /** `attempt` conflicts so far, since the policy was first read at version `start`. */
  datatype Updater =
    | Idle
    | Holding(report: ClusterSummary, status: Status, version: nat, attempt: nat, start: nat)
    | Conflicted(report: ClusterSummary, attempt: nat, start: nat)

  datatype World = World(
    present: bool,                                        // whether the policy exists
    status: Status,
    version: nat,
    updaters: map<nat, Updater>,
    // History, never read by the program:
    initial: Status,                                      // the status the policy was created with
    committed: seq<ClusterSummary>,                       // reports written since, in order
    abandoned: seq<(ClusterSummary, nat, nat)>)           // reports given up on conflict, with first and last version

  function Start(status: Status): World {
    World(true, status, 0, map[], status, [], [])
  }

  datatype Outcome = Accepted | Refused | Lost

  datatype Action =
    | Begin(u: nat, report: ClusterSummary)
    | Retry(u: nat)
    | Write(u: nat, outcome: Outcome)
    | Other(field: string, value: Value)       // another writer of the status
    | Remove
    | Create(status: Status)

  function At(w: World, u: nat): Updater {
    if u in w.updaters then w.updaters[u] else Idle
  }

  function Set(w: World, u: nat, to: Updater): World {
    w.(updaters := w.updaters[u := to])
  }

  function WriteStep(w: World, u: nat, outcome: Outcome): World {
    match At(w, u)
    case Holding(report, status, version, attempt, start) =>
      if Reconciled(status, report).None? || !w.present then Set(w, u, Idle)
      else if version != w.version then
        if attempt + 1 < ATTEMPTS then Set(w, u, Conflicted(report, attempt + 1, start))
        else Set(w, u, Idle).(abandoned := w.abandoned + [(report, start, w.version)])
      else if outcome == Refused then Set(w, u, Idle)
      else Set(w, u, Idle).(status := Reconciled(status, report).value, version := w.version + 1, committed := w.committed + [report])
    case _ => w
  }

  function Step(w: World, a: Action): World {
    match a
    case Begin(u, report) => if At(w, u).Idle? && w.present then Set(w, u, Holding(report, w.status, w.version, 0, w.version)) else w
    case Retry(u) =>
      (match At(w, u)
       case Conflicted(report, attempt, start) =>
         if w.present then Set(w, u, Holding(report, w.status, w.version, attempt, start)) else Set(w, u, Idle)
       case _ => w)
    case Write(u, outcome) => WriteStep(w, u, outcome)
    case Other(field, value) =>
      if field == "complianceSummary" || !w.present then w
      else w.(status := Some(FieldsOf(w.status)[field := value]), version := w.version + 1)
    case Remove => w.(present := false)
    case Create(status) =>
      if w.present then w else w.(present := true, status := status, version := w.version + 1, initial := status, committed := [])
  }

  function Run(w: World, actions: seq<Action>): World {
    if actions == [] then w else Step(Run(w, actions[..|actions| - 1]), actions[|actions| - 1])
  }

  /** A copy at the current version is the current status; every conflict cost a version. */
  predicate UpdaterSound(w: World, up: Updater) {
    match up
    case Idle => true
    case Holding(_, status, version, attempt, start) =>
      version <= w.version && (version == w.version ==> status == w.status) && start + attempt <= version && attempt < ATTEMPTS
    case Conflicted(_, attempt, start) => start + attempt <= w.version && attempt < ATTEMPTS
  }

  /** The stored summary is the first one with the written reports recorded; one that cannot be read stays, and nothing is written. */
  ghost predicate SummaryKept(w: World) {
    match SummaryOf(w.initial)
    case Some(summary) => SummaryOf(w.status) == Some(RecordAll(summary, w.committed))
    case None => SummaryOf(w.status) == None && w.committed == []
  }

  ghost predicate Sound(w: World) {
    && SummaryKept(w)
    && (forall u | u in w.updaters :: UpdaterSound(w, w.updaters[u]))
    && (forall i | 0 <= i < |w.abandoned| :: w.abandoned[i].1 + ATTEMPTS <= w.abandoned[i].2 <= w.version)
  }

  /** Writing the reconciled status under the current version records the report. */
  lemma CommitSound(w: World, t: World, u: nat, report: ClusterSummary)
    requires Sound(w) && Reconciled(w.status, report).Some?
    requires t == Set(w, u, Idle).(status := Reconciled(w.status, report).value, version := w.version + 1, committed := w.committed + [report])
    ensures Sound(t)
  {
    ReconciledStatus(w.status, report);
    assert t.committed[..|w.committed|] == w.committed;
    forall v | v in t.updaters ensures UpdaterSound(t, t.updaters[v]) {
      if v != u { assert UpdaterSound(w, w.updaters[v]); }
    }
  }

  lemma WriteSound(w: World, u: nat, outcome: Outcome)
    requires Sound(w)
    ensures Sound(WriteStep(w, u, outcome))
  {
    hide Reconciled, SummaryOf;
    match At(w, u)
    case Holding(report, status, version, attempt, start) =>
      assert UpdaterSound(w, w.updaters[u]);
      if Reconciled(status, report).Some? && w.present && version == w.version && outcome != Refused {
        CommitSound(w, WriteStep(w, u, outcome), u, report);
      }
    case _ =>
  }

  lemma StepSound(w: World, a: Action)
    requires Sound(w)
    ensures Sound(Step(w, a))
  {
    match a
    case Write(u, outcome) => WriteSound(w, u, outcome);
    case Other(field, value) =>
      assert field != "complianceSummary" ==> SummaryField(Step(w, a).status) == SummaryField(w.status);
    case Begin(u, _) =>
    case Remove =>
    case Create(_) =>
    case Retry(u) => if u in w.updaters { assert UpdaterSound(w, w.updaters[u]); }
  }

  lemma {:induction false} RunSound(status: Status, actions: seq<Action>)
    ensures Sound(Run(Start(status), actions))
  {
    if actions != [] {
      RunSound(status, actions[..|actions| - 1]);
      StepSound(Run(Start(status), actions[..|actions| - 1]), actions[|actions| - 1]);
    }
  }

  /** Some interleaving leads from a policy with this status to w. */
  ghost predicate Reachable(status: Status, w: World) {
    exists actions :: Run(Start(status), actions) == w
  }

  /**
   No lost reports: after any interleaving of updaters and other writers, from any status, with the
   policy removed and created again at any time, the stored summary is the one the policy was created
   with and all reports written since recorded in the order they were written. If that one cannot be
   read, no report is ever written and it stays.
   */
  lemma NoLostReports(status: Status, w: World)
    requires Reachable(status, w)
    ensures SummaryKept(w)
  {
    var actions :| Run(Start(status), actions) == w;
    RunSound(status, actions);
  }

  /**
   A summary that is the recomputation of its history stays so: after any interleaving it is the
   one recomputed from the history and all reports written. No summary is that of no history.
   */
  lemma RecomputedStays(status: Status, w: World, history: seq<ClusterSummary>)
    requires Reachable(status, w) && (SummaryOf(w.initial) == Some(Recomputed(history)) || (SummaryField(w.initial) == Null && history == []))
    ensures SummaryOf(w.status) == Some(Recomputed(history + w.committed))
  {
    hide Reachable, Recomputed;
    NoLostReports(status, w);
    IncrementalIsRecomputed([]);
    RecordMore(history, w.committed);
  }

  /**
   A report is written exactly when the policy still is what its updater read: from any reachable
   world, an accepted write of an updater that holds a readable summary adds its report, and records
   it in the stored summary, if and only if the policy is there under the version that was read.
   */
  lemma AcceptedIsWritten(status: Status, w: World, u: nat)
    requires Reachable(status, w) && At(w, u).Holding? && SummaryOf(At(w, u).status).Some?
    ensures var t, up := Step(w, Write(u, Accepted)), At(w, u);
            if w.present && up.version == w.version then
              && t.committed == w.committed + [up.report] && At(t, u) == Idle
              && SummaryOf(w.status).Some? && SummaryOf(t.status) == Some(Record(SummaryOf(w.status).value, up.report))
              && FieldsOf(t.status) - {"complianceSummary"} == FieldsOf(w.status) - {"complianceSummary"}
            else t.committed == w.committed && t.status == w.status
  {
    hide Reconciled, SummaryOf, Record;
    var actions :| Run(Start(status), actions) == w;
    RunSound(status, actions);
    assert UpdaterSound(w, w.updaters[u]);
    ReconciledStatus(At(w, u).status, At(w, u).report);
  }

  /** A report is given up on conflict only after at least five writes by others since it began. */
  lemma AbandonedOnlyUnderContention(status: Status, w: World, i: nat)
    requires Reachable(status, w) && i < |w.abandoned|
    ensures w.abandoned[i].2 - w.abandoned[i].1 >= ATTEMPTS
  {
    var actions :| Run(Start(status), actions) == w;
    RunSound(status, actions);
  }
}
