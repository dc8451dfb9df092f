/**
 The hub record a status syncer keeps upstream sorts the hub's managed clusters by the first
 condition that tells whether they are available.
 */
module HubClassification {
  import opened Options
  import opened KubeObjects

  const AVAILABLE := "ManagedClusterConditionAvailable"

  datatype Class = Available | Unavailable | Unknown

  datatype ManagedClustersStatus = ManagedClustersStatus(available: seq<string>, unavailable: seq<string>, unknown: seq<string>)

  /** Conditions of the shape the program takes for granted. */
  predicate WellFormed(cond: Value) {
    && cond.Dict? && "type" in cond.fields && cond.fields["type"].Str?
    && (cond.fields["type"].s == AVAILABLE ==> "status" in cond.fields && cond.fields["status"].Str?)
  }

  predicate IsAvailability(cond: Value) {
    WellFormed(cond) && cond.fields["type"].s == AVAILABLE
  }

  /** The conditions in a status, if it is a map that holds a list of them. */
  function ConditionsOf(status: Value): Option<seq<Value>> {
    if status.Dict? && "conditions" in status.fields && status.fields["conditions"].List? then Some(status.fields["conditions"].items) else None
  }

  /** Every condition that is looked at has the shape: those after the first availability condition are not. */
  ghost predicate WellFormedConditions(conditions: seq<Value>) {
    forall i | 0 <= i < |conditions| && (forall j | 0 <= j < i :: !IsAvailability(conditions[j])) :: WellFormed(conditions[i])
  }

  ghost predicate WellFormedCluster(o: Object) {
    ConditionsOf(StatusOf(o)).Some? ==> WellFormedConditions(ConditionsOf(StatusOf(o)).value)
  }

  function ClassOfStatus(status: string): Class {
    if status == "True" then Available else if status == "False" then Unavailable else Unknown
  }

  /** Condition i is the first that tells availability, and says c. */
  predicate Decides(conditions: seq<Value>, i: nat, c: Class) {
    && i < |conditions| && IsAvailability(conditions[i]) && ClassOfStatus(conditions[i].fields["status"].s) == c
    && forall j | 0 <= j < i :: !IsAvailability(conditions[j])
  }

  /** A cluster's class: unknown without conditions, else what the first availability condition says; none if there is none. */
  ghost predicate HasClass(o: Object, c: Class) {
    match ConditionsOf(StatusOf(o))
    case None => c == Unknown
    case Some(conditions) => exists i: nat :: Decides(conditions, i, c)
  }

  /** The names of the clusters of a class, in the order of the list. */
  ghost function NamesOf(clusters: seq<Object>, c: Class): seq<string> {
    if clusters == [] then []
    else
      var last := clusters[|clusters| - 1];
      NamesOf(clusters[..|clusters| - 1], c) + if HasClass(last, c) then [last.meta.name] else []
  }

  ghost predicate Sorted(clusters: seq<Object>, s: ManagedClustersStatus) {
    s.available == NamesOf(clusters, Available) && s.unavailable == NamesOf(clusters, Unavailable) && s.unknown == NamesOf(clusters, Unknown)
  }

  /** A cluster has at most one class. */
  lemma ClassIsUnique(o: Object, c: Class, d: Class)
    requires HasClass(o, c) && HasClass(o, d)
    ensures c == d
  {
  }

  lemma ClassesExclude(o: Object, c: Class, d: Class)
    requires HasClass(o, c) && c != d
    ensures !HasClass(o, d)
  {
  }

  /** Adds a cluster's name to the list of its class. */
  function Append(s: ManagedClustersStatus, name: string, c: Class): ManagedClustersStatus {
    match c
    case Available => s.(available := s.available + [name])
    case Unavailable => s.(unavailable := s.unavailable + [name])
    case Unknown => s.(unknown := s.unknown + [name])
  }

  lemma AppendSorted(clusters: seq<Object>, n: nat, s: ManagedClustersStatus, c: Class)
    requires n < |clusters| && Sorted(clusters[..n], s) && HasClass(clusters[n], c)
    ensures Sorted(clusters[..n + 1], Append(s, clusters[n].meta.name, c))
  {
    assert clusters[..n + 1][..n] == clusters[..n];
    forall d | HasClass(clusters[n], d) ensures d == c { ClassIsUnique(clusters[n], c, d); }
  }

  lemma SkipSorted(clusters: seq<Object>, n: nat, s: ManagedClustersStatus)
    requires n < |clusters| && Sorted(clusters[..n], s) && forall c :: !HasClass(clusters[n], c)
    ensures Sorted(clusters[..n + 1], s)
  {
    assert clusters[..n + 1][..n] == clusters[..n];
  }

  /** The loops of the program: for each cluster, its conditions up to the first that tells availability. */
  method Classify(clusters: seq<Object>) returns (s: ManagedClustersStatus)
    requires forall i | 0 <= i < |clusters| :: WellFormedCluster(clusters[i])
    ensures Sorted(clusters, s)
    ensures forall n, conditions, i: nat, text | 0 <= n < |clusters| && HasConditions(clusters[n], conditions) && Says(conditions, i, text) ::
              if text == "True" then clusters[n].meta.name in s.available
              else if text == "False" then clusters[n].meta.name in s.unavailable
              else clusters[n].meta.name in s.unknown
  {
    s := ManagedClustersStatus([], [], []);
    for n := 0 to |clusters|
      invariant Sorted(clusters[..n], s)
    {
      var cluster := clusters[n];
      var status := StatusOf(cluster);
      if status.Dict? {
        if "conditions" in status.fields && status.fields["conditions"].List? {
          s := ClassifyConditions(clusters, n, status.fields["conditions"].items, s);
        } else {
          AppendSorted(clusters, n, s, Unknown);
          s := s.(unknown := s.unknown + [cluster.meta.name]);
        }
      } else {
        AppendSorted(clusters, n, s, Unknown);
        s := s.(unknown := s.unknown + [cluster.meta.name]);
      }
    }
    assert clusters[..|clusters|] == clusters;
    hide Sorted, HasConditions, Says;
    forall n | 0 <= n < |clusters|
      ensures forall conditions, i: nat, text | HasConditions(clusters[n], conditions) && Says(conditions, i, text) ::
                if text == "True" then clusters[n].meta.name in s.available
                else if text == "False" then clusters[n].meta.name in s.unavailable
                else clusters[n].meta.name in s.unknown
    {
      ListedInFull(clusters, s, n);
    }
  }

  /** The inner loop, which stops at the first availability condition. */
  method ClassifyConditions(clusters: seq<Object>, n: nat, conditions: seq<Value>, before: ManagedClustersStatus) returns (s: ManagedClustersStatus)
    requires n < |clusters| && forall i | 0 <= i < |clusters| :: WellFormedCluster(clusters[i])
    requires ConditionsOf(StatusOf(clusters[n])) == Some(conditions) && Sorted(clusters[..n], before)
    ensures Sorted(clusters[..n + 1], s)
  {
    s := before;
    var name := clusters[n].meta.name;
    for i := 0 to |conditions|
      invariant s == before && forall j | 0 <= j < i :: !IsAvailability(conditions[j])
    {
      var cond := conditions[i];
      if cond.fields["type"].s == AVAILABLE {
        var class_ := ClassOfStatus(cond.fields["status"].s);
        assert Decides(conditions, i, class_);
        AppendSorted(clusters, n, s, class_);
        match cond.fields["status"].s {
          case "True" => s := s.(available := s.available + [name]);
          case "False" => s := s.(unavailable := s.unavailable + [name]);
          case _ => s := s.(unknown := s.unknown + [name]);
        }
        return;
      }
    }
    SkipSorted(clusters, n, s);
  }

  // ------------------------------------------------------------------ theorems

  predicate TellsAvailability(cond: Value) {
    cond.Dict? && "type" in cond.fields && cond.fields["type"] == Str("ManagedClusterConditionAvailable")
  }

  /** The status of a cluster holds this list of conditions. */
  predicate HasConditions(o: Object, conditions: seq<Value>) {
    "status" in o.content && o.content["status"].Dict? && "conditions" in o.content["status"].fields
    && o.content["status"].fields["conditions"] == List(conditions)
  }

  /** The first condition that tells availability says this. */
  predicate Says(conditions: seq<Value>, i: nat, text: string) {
    && i < |conditions| && TellsAvailability(conditions[i]) && "status" in conditions[i].fields && conditions[i].fields["status"] == Str(text)
    && forall j | 0 <= j < i :: !TellsAvailability(conditions[j])
  }

  /** What the first availability condition says decides: "True", "False", or any other text. */
  lemma ClassInFull(o: Object, conditions: seq<Value>, i: nat, text: string)
    requires WellFormedCluster(o) && HasConditions(o, conditions) && Says(conditions, i, text)
    ensures HasClass(o, if text == "True" then Available else if text == "False" then Unavailable else Unknown)
  {
    FirstIsLookedAt(conditions, i);
    var c := if text == "True" then Available else if text == "False" then Unavailable else Unknown;
    assert Decides(conditions, i, c);
  }

  lemma FirstIsLookedAt(conditions: seq<Value>, i: nat)
    requires WellFormedConditions(conditions) && i < |conditions| && TellsAvailability(conditions[i]) && forall j | 0 <= j < i :: !TellsAvailability(conditions[j])
    ensures IsAvailability(conditions[i]) && forall j | 0 <= j < i :: !IsAvailability(conditions[j])
  {
    forall j | 0 <= j < i ensures !IsAvailability(conditions[j]) { assert !TellsAvailability(conditions[j]); }
    assert WellFormed(conditions[i]);
  }

  /** A cluster that holds no list of conditions is unknown; one whose list tells nothing has no class. */
  lemma NoClassInFull(o: Object, c: Class)
    requires WellFormedCluster(o)
    ensures (forall conditions :: !HasConditions(o, conditions)) ==> (HasClass(o, c) <==> c == Unknown)
    ensures forall conditions | HasConditions(o, conditions) && (forall j | 0 <= j < |conditions| :: !TellsAvailability(conditions[j])) :: !HasClass(o, c)
  {
    if ConditionsOf(StatusOf(o)).Some? { assert HasConditions(o, ConditionsOf(StatusOf(o)).value); }
  }

  /**
   The lists, in full: a cluster whose first availability condition says "True" is listed as
   available, "False" as unavailable, anything else as unknown, as is one without a list of
   conditions.
   */
  lemma ListedInFull(clusters: seq<Object>, s: ManagedClustersStatus, n: nat)
    requires forall j | 0 <= j < |clusters| :: WellFormedCluster(clusters[j])
    requires Sorted(clusters, s) && n < |clusters|
    ensures forall conditions, i: nat, text | HasConditions(clusters[n], conditions) && Says(conditions, i, text) ::
              if text == "True" then clusters[n].meta.name in s.available
              else if text == "False" then clusters[n].meta.name in s.unavailable
              else clusters[n].meta.name in s.unknown
    ensures (forall conditions :: !HasConditions(clusters[n], conditions)) ==> clusters[n].meta.name in s.unknown
  {
    hide HasClass, Says, HasConditions, WellFormedCluster;
    forall c | HasClass(clusters[n], c) ensures clusters[n].meta.name in ListOf(s, c) { NamesAre(clusters, c, clusters[n].meta.name); }
    forall conditions, i: nat, text | HasConditions(clusters[n], conditions) && Says(conditions, i, text)
      ensures HasClass(clusters[n], if text == "True" then Available else if text == "False" then Unavailable else Unknown)
    {
      ClassInFull(clusters[n], conditions, i, text);
    }
    if forall conditions :: !HasConditions(clusters[n], conditions) { NoClassInFull(clusters[n], Unknown); }
  }

  /** And nobody else is listed. */
  lemma NobodyElseListed(clusters: seq<Object>, s: ManagedClustersStatus, name: string)
    requires forall j | 0 <= j < |clusters| :: WellFormedCluster(clusters[j])
    requires Sorted(clusters, s) && (name in s.available || name in s.unavailable || name in s.unknown)
    ensures exists n :: 0 <= n < |clusters| && clusters[n].meta.name == name &&
                        forall conditions | HasConditions(clusters[n], conditions) :: exists i :: 0 <= i < |conditions| && TellsAvailability(conditions[i])
  {
    hide HasClass, HasConditions, WellFormedCluster;
    var c := if name in s.available then Available else if name in s.unavailable then Unavailable else Unknown;
    NamesAre(clusters, c, name);
    var n :| 0 <= n < |clusters| && clusters[n].meta.name == name && HasClass(clusters[n], c);
    NoClassInFull(clusters[n], c);
  }

  lemma {:induction false} NamesAre(clusters: seq<Object>, c: Class, name: string)
    ensures name in NamesOf(clusters, c) <==> exists i :: 0 <= i < |clusters| && clusters[i].meta.name == name && HasClass(clusters[i], c)
  {
    if clusters != [] {
      var n := |clusters| - 1;
      NamesAre(clusters[..n], c, name);
      assert forall i | 0 <= i < n :: clusters[..n][i] == clusters[i];
      if exists i :: 0 <= i < n && clusters[..n][i].meta.name == name && HasClass(clusters[..n][i], c) {
        var i :| 0 <= i < n && clusters[..n][i].meta.name == name && HasClass(clusters[..n][i], c);
        assert clusters[i].meta.name == name && HasClass(clusters[i], c);
      }
    }
  }

  function ListOf(s: ManagedClustersStatus, c: Class): seq<string> {
    match c case Available => s.available case Unavailable => s.unavailable case Unknown => s.unknown
  }

  /**
   The lists partition the clusters that have a class: with distinct names, no name is in two
   lists, and a cluster is listed under a class exactly if it has it.
   */
  lemma ListsPartitionClusters(clusters: seq<Object>, s: ManagedClustersStatus, i: nat, c: Class)
    requires forall j, k | 0 <= j < k < |clusters| :: clusters[j].meta.name != clusters[k].meta.name
    requires Sorted(clusters, s) && i < |clusters|
    ensures clusters[i].meta.name in ListOf(s, c) <==> HasClass(clusters[i], c)
    ensures forall d, name | d != c && name in ListOf(s, c) :: name !in ListOf(s, d)
  {
    hide HasClass;
    assert forall d :: ListOf(s, d) == NamesOf(clusters, d);
    NamesAre(clusters, c, clusters[i].meta.name);
    forall d, name | d != c && name in ListOf(s, c) ensures name !in ListOf(s, d) {
      NamesAre(clusters, c, name);
      NamesAre(clusters, d, name);
      var j :| 0 <= j < |clusters| && clusters[j].meta.name == name && HasClass(clusters[j], c);
      ClassesExclude(clusters[j], c, d);
    }
  }

  /** The lists keep the order of the clusters: each prefix of the clusters gives a prefix of each list. */
  lemma {:induction false} ListsKeepOrder(clusters: seq<Object>, n: nat, c: Class)
    requires n <= |clusters|
    ensures NamesOf(clusters[..n], c) <= NamesOf(clusters, c)
    decreases |clusters|
  {
    if n == |clusters| {
      assert clusters[..n] == clusters;
    } else {
      var most := clusters[..|clusters| - 1];
      assert most[..n] == clusters[..n];
      ListsKeepOrder(most, n, c);
    }
  }

  /** An update the status syncer suppresses never changes a cluster's class. */
  lemma SuppressedUpdateKeepsClass(a: Object, b: Object, c: Class)
    requires StatusOf(a) == StatusOf(b) && WellFormedCluster(a)
    ensures WellFormedCluster(b) && (HasClass(a, c) <==> HasClass(b, c))
  {
  }
}
