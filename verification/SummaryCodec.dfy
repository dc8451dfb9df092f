/**
 How a summary is kept in a policy's status: as a JSON object in which zero counts, an empty
 name and an empty list are left out. What one reconcile writes, the next one reads back.
 */
module SummaryCodec {
  import opened Options
  import opened KubeObjects
  import opened Compliance

  /** A field is written only when it is not the zero of its type. */
  function CountField(key: string, n: uint32): map<string, Value> {
    if n == 0 then map[] else map[key := Num(n)]
  }

  function NameField(name: string): map<string, Value> {
    if name == "" then map[] else map["name" := Str(name)]
  }

  function EncodeEntry(e: ClusterSummary): Value {
    Dict(NameField(e.name) + CountField("compliant", e.compliant) + CountField("noncompliant", e.nonCompliant))
  }

  function EncodeEntries(entries: seq<ClusterSummary>): seq<Value> {
    seq(|entries|, i requires 0 <= i < |entries| => EncodeEntry(entries[i]))
  }

  function EncodeSummary(s: Summary): Value {
    var entries: map<string, Value> := if s.summaries == [] then map[] else map["summaries" := List(EncodeEntries(s.summaries))];
    Dict(CountField("compliant", s.compliant) + CountField("noncompliant", s.nonCompliant) + entries)
  }

  /** Missing and null read as zero; anything but an unsigned 32-bit number is an error. */
  function DecodeCount(fields: map<string, Value>, key: string): Option<uint32> {
    if key !in fields || fields[key] == Null then Some(0)
    else if fields[key].Num? && 0 <= fields[key].n < MODULUS then Some(fields[key].n)
    else None
  }

  function DecodeName(fields: map<string, Value>): Option<string> {
    if "name" !in fields || fields["name"] == Null then Some("")
    else if fields["name"].Str? then Some(fields["name"].s)
    else None
  }

  function DecodeEntry(v: Value): Option<ClusterSummary> {
    if v == Null then Some(ClusterSummary("", 0, 0))
    else if !v.Dict? then None
    else match (DecodeName(v.fields), DecodeCount(v.fields, "compliant"), DecodeCount(v.fields, "noncompliant"))
      case (Some(name), Some(c), Some(n)) => Some(ClusterSummary(name, c, n))
      case _ => None
  }

  function DecodeEntries(items: seq<Value>): Option<seq<ClusterSummary>> {
    if items == [] then Some([])
    else match (DecodeEntry(items[0]), DecodeEntries(items[1..]))
      case (Some(e), Some(rest)) => Some([e] + rest)
      case _ => None
  }

  function DecodeList(fields: map<string, Value>): Option<seq<ClusterSummary>> {
    if "summaries" !in fields || fields["summaries"] == Null then Some([])
    else if fields["summaries"].List? then DecodeEntries(fields["summaries"].items)
    else None
  }

  function DecodeSummary(v: Value): Option<Summary> {
    if v == Null then Some(EMPTY)
    else if !v.Dict? then None
    else match (DecodeCount(v.fields, "compliant"), DecodeCount(v.fields, "noncompliant"), DecodeList(v.fields))
      case (Some(c), Some(n), Some(entries)) => Some(Summary(c, n, entries))
      case _ => None
  }

  lemma EntryRoundTrip(e: ClusterSummary)
    ensures DecodeEntry(EncodeEntry(e)) == Some(e)
  {
  }

  lemma {:induction false} EntriesRoundTrip(entries: seq<ClusterSummary>)
    ensures DecodeEntries(EncodeEntries(entries)) == Some(entries)
  {
    if entries != [] {
      EntryRoundTrip(entries[0]);
      EntriesRoundTrip(entries[1..]);
      assert EncodeEntries(entries)[0] == EncodeEntry(entries[0]) && EncodeEntries(entries)[1..] == EncodeEntries(entries[1..]);
      assert entries == [entries[0]] + entries[1..];
    }
  }

  /** What a reconcile writes is what the next one reads. */
  lemma SummaryRoundTrip(s: Summary)
    ensures DecodeSummary(EncodeSummary(s)) == Some(s)
  {
    EntriesRoundTrip(s.summaries);
    var f := EncodeSummary(s).fields;
    assert "summaries" in f <==> s.summaries != [];
    assert "compliant" in f <==> s.compliant != 0;
    assert "noncompliant" in f <==> s.nonCompliant != 0;
  }

  // ----------------------------------------------------- the encoding, in full

  /** A count that is left out when it is zero. */
  predicate HoldsCount(fields: map<string, Value>, key: string, n: int) {
    if n == 0 then key !in fields else key in fields && fields[key] == Num(n)
  }

  /** The fields of a summary as they are written: each under its own name, zeros left out. */
  lemma EncodedInFull(s: Summary)
    ensures EncodeSummary(s).Dict?
    ensures var f := EncodeSummary(s).fields;
            && f.Keys <= {"compliant", "noncompliant", "summaries"}
            && HoldsCount(f, "compliant", s.compliant) && HoldsCount(f, "noncompliant", s.nonCompliant)
            && ("summaries" in f <==> s.summaries != [])
            && (s.summaries != [] ==> f["summaries"].List? && |f["summaries"].items| == |s.summaries|)
    ensures forall i | 0 <= i < |s.summaries| ::
              var item, e := EncodeSummary(s).fields["summaries"].items[i], s.summaries[i];
              && item.Dict? && item.fields.Keys <= {"name", "compliant", "noncompliant"}
              && HoldsCount(item.fields, "compliant", e.compliant) && HoldsCount(item.fields, "noncompliant", e.nonCompliant)
              && if e.name == "" then "name" !in item.fields else "name" in item.fields && item.fields["name"] == Str(e.name)
  {
  }

  /** A count is missing, null, or an unsigned 32-bit number. */
  predicate CountFits(fields: map<string, Value>, key: string) {
    key in fields ==> fields[key] == Null || (fields[key].Num? && 0 <= fields[key].n < 0x1_0000_0000)
  }

  predicate EntryFits(v: Value) {
    v == Null || (v.Dict? && CountFits(v.fields, "compliant") && CountFits(v.fields, "noncompliant")
                  && ("name" in v.fields ==> v.fields["name"] == Null || v.fields["name"].Str?))
  }

  /** What a stored value must look like to be read as a summary. */
  predicate SummaryFits(v: Value) {
    v == Null || (v.Dict? && CountFits(v.fields, "compliant") && CountFits(v.fields, "noncompliant")
                  && ("summaries" in v.fields ==>
                        || v.fields["summaries"] == Null
                        || (v.fields["summaries"].List? && forall i | 0 <= i < |v.fields["summaries"].items| :: EntryFits(v.fields["summaries"].items[i]))))
  }

  /** The number under a key; zero if there is none. */
  function CountAt(v: Value, key: string): int {
    if v.Dict? && key in v.fields && v.fields[key].Num? then v.fields[key].n else 0
  }

  function NameAt(v: Value): string {
    if v.Dict? && "name" in v.fields && v.fields["name"].Str? then v.fields["name"].s else ""
  }

  lemma EntryInFull(v: Value)
    ensures DecodeEntry(v).Some? <==> EntryFits(v)
    ensures EntryFits(v) ==>
              var e := DecodeEntry(v).value;
              e.name == NameAt(v) && e.compliant == CountAt(v, "compliant") && e.nonCompliant == CountAt(v, "noncompliant")
  {
  }

  lemma {:induction false} EntriesInFull(items: seq<Value>)
    ensures DecodeEntries(items).Some? <==> forall i | 0 <= i < |items| :: EntryFits(items[i])
    ensures DecodeEntries(items).Some? ==>
              var entries := DecodeEntries(items).value;
              |entries| == |items| && forall i | 0 <= i < |items| ::
                entries[i].name == NameAt(items[i]) && entries[i].compliant == CountAt(items[i], "compliant") && entries[i].nonCompliant == CountAt(items[i], "noncompliant")
  {
    hide EntryFits, NameAt, CountAt, DecodeEntry;
    if items != [] {
      EntryInFull(items[0]);
      EntriesInFull(items[1..]);
    }
  }

  /** A value is read if and only if it has the shape, and then each count and name from its own field. */
  lemma DecodedInFull(v: Value)
    ensures DecodeSummary(v).Some? <==> SummaryFits(v)
    ensures DecodeSummary(v).Some? ==>
              var s := DecodeSummary(v).value;
              && s.compliant == CountAt(v, "compliant") && s.nonCompliant == CountAt(v, "noncompliant")
              && if v.Dict? && "summaries" in v.fields && v.fields["summaries"].List? then
                   var items := v.fields["summaries"].items;
                   |s.summaries| == |items| && forall i | 0 <= i < |items| ::
                     && s.summaries[i].name == NameAt(items[i])
                     && s.summaries[i].compliant == CountAt(items[i], "compliant") && s.summaries[i].nonCompliant == CountAt(items[i], "noncompliant")
                 else s.summaries == []
  {
    hide EntryFits;
    if v.Dict? && "summaries" in v.fields && v.fields["summaries"].List? {
      EntriesInFull(v.fields["summaries"].items);
    }
  }

  // ------------------------------------------------------- the policy status

  /** A policy's status; None is a status that is missing or null. */
  type Status = Option<map<string, Value>>

  function FieldsOf(status: Status): map<string, Value> {
    if status.Some? then status.value else map[]
  }

  function SummaryField(status: Status): Value {
    if "complianceSummary" in FieldsOf(status) then FieldsOf(status)["complianceSummary"] else Null
  }

  function SummaryOf(status: Status): Option<Summary> {
    DecodeSummary(SummaryField(status))
  }

  /** The status a report leads to, or an error if the stored summary cannot be read. */
  function Reconciled(status: Status, r: ClusterSummary): Option<Status> {
    match SummaryOf(status)
    case None => None
    case Some(s) => Some(Some(FieldsOf(status)["complianceSummary" := EncodeSummary(Record(s, r))]))
  }

  /** A reconcile fails only on an unreadable summary; else it records the report and touches no other field. */
  lemma ReconciledStatus(status: Status, r: ClusterSummary)
    ensures Reconciled(status, r).None? <==> SummaryOf(status).None?
    ensures Reconciled(status, r).Some? ==>
              && SummaryOf(Reconciled(status, r).value) == Some(Record(SummaryOf(status).value, r))
              && FieldsOf(Reconciled(status, r).value) - {"complianceSummary"} == FieldsOf(status) - {"complianceSummary"}
  {
    if SummaryOf(status).Some? {
      SummaryRoundTrip(Record(SummaryOf(status).value, r));
    }
  }
}
