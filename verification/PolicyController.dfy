/**
 The global hub's policy controller. A policy without an origin label gets its own namespace as
 origin; one labelled with its own namespace is left alone; any other is a copy made by a syncer,
 and its compliance counts are reported to the policy of the same name in the origin namespace.
 */
module PolicyController {
  import opened Options
  import opened KubeObjects
  import opened Compliance
  import opened SummaryCodec

  datatype Decision =
    | NeedsLabel
    | FromGlobalHub
    | Unreadable                                          // the status does not fit the policy type
    | NoReport                                            // no per-cluster status yet
    | ReportTo(origin: string, report: ClusterSummary)

  /** The compliance state of one cluster's status; None if it does not fit the type. */
  function StateOf(item: Value): Option<string> {
    if !item.Dict? then None
    else if "compliant" !in item.fields || item.fields["compliant"] == Null then Some("")
    else if item.fields["compliant"].Str? then Some(item.fields["compliant"].s)
    else None
  }

  predicate Readable(status: Value) {
    match status
    case Null => true
    case Dict(fields) =>
      "status" !in fields || fields["status"] == Null ||
      (fields["status"].List? && forall i | 0 <= i < |fields["status"].items| :: StateOf(fields["status"].items[i]).Some?)
    case _ => false
  }

  /** The per-cluster states in a policy status, if it has any. */
  function StatesOf(status: Value): Option<seq<string>>
    requires Readable(status)
  {
    if status.Dict? && "status" in status.fields && status.fields["status"] != Null then
      var items := status.fields["status"].items;
      Some(seq(|items|, i requires 0 <= i < |items| => StateOf(items[i]).value))
    else None
  }

  function ReportOf(namespace: string, states: seq<string>): ClusterSummary {
    ClusterSummary(namespace, Wrap(multiset(states)["Compliant"]), Wrap(multiset(states)["NonCompliant"]))
  }

  function Decide(o: Object): Decision {
    if ORIGIN !in LabelsOf(o) then NeedsLabel
    else if LabelsOf(o)[ORIGIN] == o.meta.namespace then FromGlobalHub
    else if !Readable(StatusOf(o)) then Unreadable
    else match StatesOf(StatusOf(o))
      case None => NoReport
      case Some(states) => ReportTo(LabelsOf(o)[ORIGIN], ReportOf(o.meta.namespace, states))
  }

  function WithOrigin(o: Object): Object {
    WithLabels(o, LabelsOf(o)[ORIGIN := o.meta.namespace])
  }

  // What a reconcile does, spelled out on the object itself.

  /** The namespace the object is labelled with as its origin, if it is labelled. */
  function OriginLabel(o: Object): Option<string> {
    var origin := "global-hub.open-cluster-management.io/original-namespace";
    if o.meta.labels.Some? && origin in o.meta.labels.value then Some(o.meta.labels.value[origin]) else None
  }

  /** A cluster's item in the list: a map whose compliance, if there is any, is a text. */
  predicate ItemFits(item: Value) {
    item.Dict? && ("compliant" in item.fields ==> item.fields["compliant"] == Null || item.fields["compliant"].Str?)
  }

  /** How many clusters in the list are in this state of compliance. */
  function Occurrences(items: seq<Value>, state: string): nat {
    if items == [] then 0
    else
      var last := items[|items| - 1];
      Occurrences(items[..|items| - 1], state) +
      if last.Dict? && "compliant" in last.fields && last.fields["compliant"] == Str(state) then 1 else 0
  }

  /** The status holds this list of clusters. */
  predicate ListsClusters(status: Value, items: seq<Value>) {
    status.Dict? && "status" in status.fields && status.fields["status"] == List(items)
  }

  /** There is no status, or no list in it. */
  predicate ListsNothing(status: Value) {
    status == Null || (status.Dict? && ("status" in status.fields ==> status.fields["status"] == Null))
  }

  /** Counting states that were read from the items is counting the items. */
  lemma {:induction false} StatesCounted(items: seq<Value>, state: string)
    requires state != "" && forall i | 0 <= i < |items| :: ItemFits(items[i])
    ensures forall i | 0 <= i < |items| :: StateOf(items[i]).Some?
    ensures multiset(seq(|items|, i requires 0 <= i < |items| => StateOf(items[i]).value))[state] == Occurrences(items, state)
  {
    var states := seq(|items|, i requires 0 <= i < |items| => StateOf(items[i]).value);
    if items != [] {
      var most, last := items[..|items| - 1], items[|items| - 1];
      StatesCounted(most, state);
      assert states == seq(|most|, i requires 0 <= i < |most| => StateOf(most[i]).value) + [StateOf(last).value];
    }
  }

  /**
   The report of a status, in full: it can be read if and only if it lists nothing or well-formed
   items, and its counts are the numbers of compliant and non-compliant clusters, in this order,
   modulo 2^32.
   */
  lemma ReportCounts(status: Value, namespace: string)
    ensures Readable(status) <==> ListsNothing(status) || exists items :: ListsClusters(status, items) && forall i | 0 <= i < |items| :: ItemFits(items[i])
    ensures Readable(status) ==> (StatesOf(status).None? <==> ListsNothing(status))
    ensures forall items | Readable(status) && ListsClusters(status, items) ::
              && StatesOf(status).Some?
              && ReportOf(namespace, StatesOf(status).value) ==
                 ClusterSummary(namespace, Occurrences(items, "Compliant") % 0x1_0000_0000, Occurrences(items, "NonCompliant") % 0x1_0000_0000)
  {
    if status.Dict? && "status" in status.fields && status.fields["status"].List? {
      var items := status.fields["status"].items;
      assert ListsClusters(status, items);
      assert forall i | 0 <= i < |items| :: StateOf(items[i]).Some? <==> ItemFits(items[i]);
      if forall i | 0 <= i < |items| :: ItemFits(items[i]) {
        StatesCounted(items, "Compliant");
        StatesCounted(items, "NonCompliant");
      }
    }
  }

  /** Labelling sets the one label and leaves everything else of the object as it is. */
  lemma WithOriginOnlyLabels(o: Object)
    ensures var labelled := WithOrigin(o);
            && OriginLabel(labelled) == Some(o.meta.namespace)
            && labelled == o.(meta := o.meta.(labels := labelled.meta.labels)) && labelled.meta.labels.Some?
            && forall key | key != "global-hub.open-cluster-management.io/original-namespace" ::
                 (key in labelled.meta.labels.value <==> o.meta.labels.Some? && key in o.meta.labels.value)
                 && (key in labelled.meta.labels.value ==> labelled.meta.labels.value[key] == o.meta.labels.value[key])
  {
  }

  /** One reconcile up to its request; the cached object is labelled in place before the update is sent. */
  method Reconcile(o: Object) returns (decision: Decision, cached: Object)
    ensures decision == Decide(o)
    ensures cached == if Decide(o) == NeedsLabel then WithOrigin(o) else o
    ensures decision == NeedsLabel <==> OriginLabel(o) == None
    ensures decision == NeedsLabel ==> OriginLabel(cached) == Some(o.meta.namespace)
    ensures decision != NeedsLabel ==> cached == o
    ensures decision == FromGlobalHub <==> OriginLabel(o) == Some(o.meta.namespace)
    ensures decision == NoReport <==> OriginLabel(o).Some? && OriginLabel(o).value != o.meta.namespace && ListsNothing(StatusOf(o))
    ensures decision.ReportTo? <==>
            && OriginLabel(o).Some? && OriginLabel(o).value != o.meta.namespace
            && exists items :: ListsClusters(StatusOf(o), items) && forall i | 0 <= i < |items| :: ItemFits(items[i])
    ensures decision.ReportTo? ==>
              && decision.origin == OriginLabel(o).value && decision.report.name == o.meta.namespace
              && forall items | ListsClusters(StatusOf(o), items) ::
                   && decision.report.compliant == Occurrences(items, "Compliant") % 0x1_0000_0000
                   && decision.report.nonCompliant == Occurrences(items, "NonCompliant") % 0x1_0000_0000
  {
    hide Occurrences, ItemFits, ReportOf;
    ReportCounts(StatusOf(o), o.meta.namespace);
    WithOriginOnlyLabels(o);
    ReportIs(o);
    cached := o;
    var labels := LabelsOf(o);
    if ORIGIN !in labels {
      labels := labels[ORIGIN := o.meta.namespace];
      cached := WithLabels(cached, labels);
      return NeedsLabel, cached;
    }
    if labels[ORIGIN] == o.meta.namespace {
      return FromGlobalHub, cached;
    }
    if !Readable(StatusOf(o)) {
      return Unreadable, cached;
    }
    var states := StatesOf(StatusOf(o));
    if states.None? {
      return NoReport, cached;
    }
    var compliant, nonCompliant := CountClusters(states.value);
    return ReportTo(labels[ORIGIN], ClusterSummary(o.meta.namespace, compliant, nonCompliant)), cached;
  }

  /** A policy's status as the map the reconcile works on; on any other shape the program panics. */
  function StatusFields(o: Object): Option<Status> {
    match StatusOf(o)
    case Null => Some(None)
    case Dict(fields) => Some(Some(fields))
    case _ => None
  }

  /** The status a report leads to, or nothing if the one there cannot be worked on. */
  function NewStatus(o: Object, report: ClusterSummary): Option<Status> {
    match StatusFields(o)
    case None => None
    case Some(status) => Reconciled(status, report)
  }

  lemma ReportIs(o: Object)
    ensures Decide(o).ReportTo? ==> StatesOf(StatusOf(o)).Some? && Decide(o).report == ReportOf(o.meta.namespace, StatesOf(StatusOf(o)).value)
    ensures forall states :: ReportOf(o.meta.namespace, states) ==
                             ClusterSummary(o.meta.namespace, Wrap(multiset(states)["Compliant"]), Wrap(multiset(states)["NonCompliant"]))
  {
  }

  /** The new status of the reported-to policy, computed on a summary object updated in place. */
  method UpdateGlobalHubPolicy(status: Status, report: ClusterSummary) returns (updated: Option<Status>)
    ensures updated == Reconciled(status, report)
  {
    var stored := SummaryOf(status);
    if stored.None? {
      return None;
    }
    var summary := new ComplianceSummary(stored.value);
    summary.Update(report);
    return Some(Some(FieldsOf(status)["complianceSummary" := EncodeSummary(summary.View())]));
  }

  /**
   The controller and the spec syncer split the policies between them: one that is in a namespace
   is synced down exactly when the controller takes it for the global hub's own.
   */
  lemma EligibleIffFromGlobalHub(o: Object)
    requires |o.meta.namespace| > 0
    ensures Eligible(o) <==> Decide(o) == FromGlobalHub
  {
  }

  /** A copy that carries another namespace's label reports its counts to the policy there. */
  lemma CopyReports(o: Object, s: string, origin: string, states: seq<string>)
    requires o.meta.namespace == s && s != origin && HasOrigin(o, origin) && Readable(StatusOf(o)) && StatesOf(StatusOf(o)) == Some(states)
    ensures Decide(o) == ReportTo(origin, ReportOf(s, states))
  {
  }
}
