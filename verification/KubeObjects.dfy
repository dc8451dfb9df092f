/**
 API objects as the syncer and the controllers see them: decoded JSON values, object
 metadata, and the two comparisons the event handlers use to suppress updates.

 The comparison that ignores status is specified by `Essence`, the part of an object that a
 downstream copy must reproduce; the loop that the syncer runs is proved to decide equality
 of essences, and the copy that is sent downstream is proved to keep the essence.
 */
module KubeObjects {
  import opened Options

  /** A decoded JSON value. Equality of values is the semantic equality of decoded JSON. */
  datatype Value =
    | Null
    | Bool(b: bool)
    | Num(n: int)
    | Str(s: string)
    | List(items: seq<Value>)
    | Dict(fields: map<string, Value>)

  /** Object metadata; `fields` holds the metadata fields not listed by name. */
  datatype Meta = Meta(
    name: string,
    namespace: string,
    uid: string,
    resourceVersion: string,
    labels: Option<map<string, string>>,
    annotations: Option<map<string, string>>,
    fields: map<string, Value>)

  /** An unstructured object: metadata, and its other top-level fields. */
  datatype Object = Object(meta: Meta, content: map<string, Value>)

  /** Marks the namespace in which a policy was created on the global hub. */
  const ORIGIN := "global-hub.open-cluster-management.io/original-namespace"

  /** Metadata fields that are cleared before an object is applied to another hub. */
  const CLEARED: set<string> :=
    {"managedFields", "deletionTimestamp", "deletionGracePeriodSeconds", "ownerReferences", "finalizers"}

  /** The labels; a missing label map reads as an empty one. */
  function LabelsOf(o: Object): map<string, string> {
    if o.meta.labels.Some? then o.meta.labels.value else map[]
  }

  function AnnotationsOf(o: Object): map<string, string> {
    if o.meta.annotations.Some? then o.meta.annotations.value else map[]
  }

  /** A top-level field; a missing field reads as null. */
  function FieldOf(o: Object, key: string): Value {
    if key in o.content then o.content[key] else Null
  }

  function StatusOf(o: Object): Value {
    FieldOf(o, "status")
  }

  predicate HasOrigin(o: Object, namespace: string) {
    ORIGIN in LabelsOf(o) && LabelsOf(o)[ORIGIN] == namespace
  }

  /** The test of the sync-down handlers: cluster-scoped, or labelled with its own namespace. */
  predicate Eligible(o: Object) {
    |o.meta.namespace| > 0 ==> HasOrigin(o, o.meta.namespace)
  }

  /** What a downstream copy must reproduce. Null fields are dropped, so missing equals null. */
  datatype Essence = Essence(labels: map<string, string>, annotations: map<string, string>, body: map<string, Value>)

  function EssenceOf(o: Object): Essence {
    Essence(LabelsOf(o), AnnotationsOf(o),
            map key | key in o.content && key != "metadata" && key != "status" && o.content[key] != Null :: o.content[key])
  }

  /** The configuration sent to another hub: a copy with identity and server-owned metadata cleared. */
  function Stripped(o: Object, namespace: string): Object {
    o.(meta := o.meta.(uid := "", resourceVersion := "", namespace := namespace, fields := o.meta.fields - CLEARED))
  }

  function WithStatus(o: Object, status: Value): Object {
    o.(content := o.content["status" := status])
  }

  function WithLabels(o: Object, labels: map<string, string>): Object {
    o.(meta := o.meta.(labels := Some(labels)))
  }

  /** Writing a status writes that field and no other, and what was written is what is read. */
  lemma StatusIsOneField(o: Object, status: Value)
    ensures WithStatus(o, status).meta == o.meta && StatusOf(WithStatus(o, status)) == status
    ensures forall key | key != "status" ::
              && (key in WithStatus(o, status).content <==> key in o.content)
              && (key in o.content ==> WithStatus(o, status).content[key] == o.content[key])
    ensures StatusOf(o) == if "status" in o.content then o.content["status"] else Null
    ensures forall later :: WithStatus(WithStatus(o, status), later) == WithStatus(o, later)
  {
  }

  /** Writing labels writes nothing else, and what was written is what is read; no labels read as none. */
  lemma LabelsAreOneField(o: Object, labels: map<string, string>)
    ensures LabelsOf(WithLabels(o, labels)) == labels && WithLabels(o, labels) == o.(meta := o.meta.(labels := Some(labels)))
    ensures LabelsOf(o) == (match o.meta.labels case Some(m) => m case None => map[])
    ensures AnnotationsOf(o) == (match o.meta.annotations case Some(m) => m case None => map[])
    ensures EssenceOf(WithLabels(o, labels)) == EssenceOf(o).(labels := labels)
  {
  }

  /**
   The comparison of the sync-down update handler, with its early exits and its walk over the
   union of the top-level keys in no particular order. It answers exactly whether the two
   downstream configurations would carry the same labels, annotations and non-status content.
   */
  method DeepEqualApartFromStatus(a: Object, b: Object) returns (same: bool)
    ensures same <==> EssenceOf(Stripped(a, a.meta.namespace)) == EssenceOf(Stripped(b, b.meta.namespace))
  {
    StrippedKeepsEssence(a, a.meta.namespace);
    StrippedKeepsEssence(b, b.meta.namespace);
    if AnnotationsOf(a) != AnnotationsOf(b) {
      return false;
    }
    if LabelsOf(a) != LabelsOf(b) {
      return false;
    }
    var keys := a.content.Keys + b.content.Keys;
    var left := keys;
    while left != {}
      invariant left <= keys
      invariant forall key | key in keys - left && key != "metadata" && key != "status" :: FieldOf(a, key) == FieldOf(b, key)
      decreases |left|
    {
      var key :| key in left;
      left := left - {key};
      if key == "metadata" || key == "status" {
        continue;
      }
      if FieldOf(a, key) != FieldOf(b, key) {
        BodyAt(a, key);
        BodyAt(b, key);
        return false;
      }
    }
    forall key | key != "metadata" && key != "status" ensures FieldOf(a, key) == FieldOf(b, key) {
      if key in keys { assert key in keys - left; }
    }
    FieldsDecideBody(a, b);
    return true;
  }

  /** The comparison of the sync-up update handler. */
  method DeepEqualStatus(a: Object, b: Object) returns (same: bool)
    ensures same <==> forall anyObject: Object :: WithStatus(anyObject, StatusOf(a)) == WithStatus(anyObject, StatusOf(b))
  {
    same := StatusOf(a) == StatusOf(b);
    if !same {
      assert WithStatus(a, StatusOf(a)).content["status"] != WithStatus(a, StatusOf(b)).content["status"];
    }
  }

  lemma BodyAt(o: Object, key: string)
    requires key != "metadata" && key != "status"
    ensures FieldOf(o, key) == if key in EssenceOf(o).body then EssenceOf(o).body[key] else Null
  {
  }

  lemma FieldsDecideBody(a: Object, b: Object)
    requires forall key | key != "metadata" && key != "status" :: FieldOf(a, key) == FieldOf(b, key)
    ensures EssenceOf(a).body == EssenceOf(b).body
  {
    forall key ensures key in EssenceOf(a).body <==> key in EssenceOf(b).body {
      if key != "metadata" && key != "status" { assert FieldOf(a, key) == FieldOf(b, key); }
    }
    forall key | key in EssenceOf(a).body ensures EssenceOf(a).body[key] == EssenceOf(b).body[key] {
      assert FieldOf(a, key) == FieldOf(b, key);
    }
  }

  /**
   Suppression is exact: two objects have the same essence if and only if their downstream
   configurations agree on labels, annotations and every field but the status.
   */
  lemma SameEssenceIffConfigurationsAgree(a: Object, b: Object, namespace: string)
    ensures EssenceOf(a) == EssenceOf(b) <==>
            && LabelsOf(Stripped(a, namespace)) == LabelsOf(Stripped(b, namespace))
            && AnnotationsOf(Stripped(a, namespace)) == AnnotationsOf(Stripped(b, namespace))
            && (forall key | key != "metadata" && key != "status" ::
                  FieldOf(Stripped(a, namespace), key) == FieldOf(Stripped(b, namespace), key))
  {
    forall key | key != "metadata" && key != "status"
      ensures FieldOf(Stripped(a, namespace), key) == FieldOf(a, key)
      ensures FieldOf(Stripped(b, namespace), key) == FieldOf(b, key)
    {
    }
    if EssenceOf(a) == EssenceOf(b) {
      forall key | key != "metadata" && key != "status" ensures FieldOf(a, key) == FieldOf(b, key) {
        BodyAt(a, key);
        BodyAt(b, key);
      }
    } else if forall key | key != "metadata" && key != "status" :: FieldOf(Stripped(a, namespace), key) == FieldOf(Stripped(b, namespace), key) {
      forall key | key != "metadata" && key != "status" ensures FieldOf(a, key) == FieldOf(b, key) {
        assert FieldOf(Stripped(a, namespace), key) == FieldOf(Stripped(b, namespace), key);
      }
      FieldsDecideBody(a, b);
    }
  }

  lemma StrippedKeepsEssence(o: Object, namespace: string)
    ensures EssenceOf(Stripped(o, namespace)) == EssenceOf(o)
  {
  }

  /** Free of what ties an object to the hub it was read from: identity, version, server-owned metadata. */
  predicate Portable(o: Object) {
    o.meta.uid == "" && o.meta.resourceVersion == "" && o.meta.fields.Keys !! CLEARED
  }

  /**
   The configuration is portable and depends on nothing a hub adds: any identity, version,
   namespace and server-owned metadata give the same one. The rest of the object is kept.
   */
  lemma StrippedIsPortable(o: Object, namespace: string, uid: string, version: string, elsewhere: string, owned: map<string, Value>)
    requires owned.Keys <= CLEARED
    ensures Portable(Stripped(o, namespace)) && Stripped(o, namespace).meta.namespace == namespace
    ensures var r := Stripped(o, namespace);
            && r.meta.name == o.meta.name && r.meta.labels == o.meta.labels && r.meta.annotations == o.meta.annotations && r.content == o.content
            && r.meta.uid == "" && r.meta.resourceVersion == ""
            && forall field :: field in r.meta.fields <==>
                 && field in o.meta.fields && field != "managedFields" && field != "ownerReferences" && field != "finalizers"
                 && field != "deletionTimestamp" && field != "deletionGracePeriodSeconds"
    ensures var added := o.(meta := o.meta.(uid := uid, resourceVersion := version, namespace := elsewhere, fields := o.meta.fields + owned));
            Stripped(added, namespace) == Stripped(o, namespace)
    ensures Portable(o) && o.meta.namespace == namespace ==> Stripped(o, namespace) == o
  {
  }

  /** A suppressed update never changes whether an object is to be synced down. */
  lemma SameEssenceSameEligibility(a: Object, b: Object)
    requires EssenceOf(a) == EssenceOf(b) && a.meta.namespace == b.meta.namespace
    ensures Eligible(a) <==> Eligible(b)
  {
  }
}
