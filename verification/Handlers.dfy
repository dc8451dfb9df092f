/**
 What the event handlers let through and what they drop, spelled out on the objects themselves. The
 machine decides by essences and statuses; here the same decision is stated field by field, as a
 maintainer would check it.
 */
module Handlers {
  import opened Options
  import opened KubeObjects
  import opened SyncMachine

  predicate Has(entries: Option<map<string, string>>, key: string) {
    entries.Some? && key in entries.value
  }

  /** The same labels or annotations; none at all is the same as an empty map. */
  ghost predicate SameEntries(a: Option<map<string, string>>, b: Option<map<string, string>>) {
    forall key :: (Has(a, key) <==> Has(b, key)) && (Has(a, key) ==> a.value[key] == b.value[key])
  }

  predicate Filled(o: Object, key: string) {
    key in o.content && o.content[key] != Null
  }

  predicate SameField(a: Object, b: Object, key: string) {
    (Filled(a, key) <==> Filled(b, key)) && (Filled(a, key) ==> a.content[key] == b.content[key])
  }

  /** The same labels, annotations and content, but for metadata and status. */
  ghost predicate SameBelow(a: Object, b: Object) {
    && SameEntries(a.meta.labels, b.meta.labels)
    && SameEntries(a.meta.annotations, b.meta.annotations)
    && forall key | key != "metadata" && key != "status" :: SameField(a, b, key)
  }

  /** Cluster-scoped, or labelled with its own namespace as its origin. */
  predicate GoesDown(o: Object) {
    var origin := "global-hub.open-cluster-management.io/original-namespace";
    o.meta.namespace == "" || (Has(o.meta.labels, origin) && o.meta.labels.value[origin] == o.meta.namespace)
  }

  /** Anything but the definition of a resource other than managed clusters. */
  predicate GoesUp(resource: string, o: Object) {
    resource != "customresourcedefinitions" || o.meta.name == "managedclusters.cluster.open-cluster-management.io"
  }

  predicate Goes(dir: Direction, resource: string, o: Object) {
    match dir
    case Down => GoesDown(o)
    case Up => GoesUp(resource, o)
  }

  /** What an update must differ in to matter. */
  ghost predicate SameFor(dir: Direction, a: Object, b: Object) {
    match dir
    case Down => SameBelow(a, b)
    case Up => SameField(a, b, "status")
  }

  lemma EssenceIsSameBelow(a: Object, b: Object)
    ensures EssenceOf(a) == EssenceOf(b) <==> SameBelow(a, b)
  {
    var la, lb := LabelsOf(a), LabelsOf(b);
    var na, nb := AnnotationsOf(a), AnnotationsOf(b);
    assert forall key :: (Has(a.meta.labels, key) <==> key in la) && (Has(b.meta.labels, key) <==> key in lb);
    assert forall key :: (Has(a.meta.annotations, key) <==> key in na) && (Has(b.meta.annotations, key) <==> key in nb);
    if SameBelow(a, b) {
      assert la == lb && na == nb;
      forall key | key != "metadata" && key != "status" ensures FieldOf(a, key) == FieldOf(b, key) {
        assert SameField(a, b, key);
      }
      FieldsDecideBody(a, b);
    }
    if EssenceOf(a) == EssenceOf(b) {
      forall key | key != "metadata" && key != "status" ensures SameField(a, b, key) {
        BodyAt(a, key);
        BodyAt(b, key);
      }
    }
  }

  /**
   The handlers, exactly. Adds and deletes go through if and only if the object is one that is
   synced in this direction; updates moreover only if they change what is synced: labels,
   annotations or content other than status going down, the status going up.
   */
  lemma EventsLetThrough(dir: Direction, resource: string, prior: Object, obj: Object)
    ensures Enqueues(dir, Added(resource, obj)) <==> Goes(dir, resource, obj)
    ensures Enqueues(dir, Deleted(resource, obj)) <==> Goes(dir, resource, obj)
    ensures Enqueues(dir, Updated(resource, prior, obj)) <==> Goes(dir, resource, obj) && !SameFor(dir, prior, obj)
  {
    hide SameBelow, EssenceOf;
    EssenceIsSameBelow(prior, obj);
  }

  /** A status set on a policy never makes the spec syncer apply it again. */
  lemma StatusIsNotReapplied(resource: string, o: Object, status: Value)
    ensures !Enqueues(Down, Updated(resource, o, o.(content := o.content["status" := status])))
    ensures Goes(Up, resource, o) && status != Null && !(Filled(o, "status") && o.content["status"] == status) ==>
              Enqueues(Up, Updated(resource, o, o.(content := o.content["status" := status])))
  {
    var reported := o.(content := o.content["status" := status]);
    assert forall key | key != "status" :: SameField(o, reported, key);
    EventsLetThrough(Down, resource, o, reported);
    EventsLetThrough(Up, resource, o, reported);
  }
}
