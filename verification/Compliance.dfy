/**
 The compliance summary of a policy: one entry per regional hub, and two uint32 totals that are
 adjusted by wrapping differences whenever a hub reports. The totals are proved to be those a
 recomputation from the entries would give, and the whole summary the one a recomputation from
 the history of reports would give.
 */
module Compliance {

  const MODULUS: int := 0x1_0000_0000

  type uint32 = n: int | 0 <= n < MODULUS

  /** Reduction to 32 bits, also of negative differences. */
  function Wrap(x: int): uint32 {
    x % MODULUS
  }

  datatype ClusterSummary = ClusterSummary(name: string, compliant: uint32, nonCompliant: uint32)

  datatype Summary = Summary(compliant: uint32, nonCompliant: uint32, summaries: seq<ClusterSummary>)

  const EMPTY := Summary(0, 0, [])

  datatype Counter = Compliant | NonCompliant

  function CountOf(e: ClusterSummary, c: Counter): uint32 {
    match c case Compliant => e.compliant case NonCompliant => e.nonCompliant
  }

  function TotalOf(s: Summary, c: Counter): uint32 {
    match c case Compliant => s.compliant case NonCompliant => s.nonCompliant
  }

  function Sum(entries: seq<ClusterSummary>, c: Counter): nat {
    if entries == [] then 0 else CountOf(entries[0], c) + Sum(entries[1..], c)
  }

  predicate Reported(entries: seq<ClusterSummary>, name: string) {
    exists i :: 0 <= i < |entries| && entries[i].name == name
  }

  /** Every entry of the reporting hub takes the new counts. */
  function Replaced(entries: seq<ClusterSummary>, r: ClusterSummary): seq<ClusterSummary> {
    seq(|entries|, i requires 0 <= i < |entries| => if entries[i].name == r.name then r else entries[i])
  }

  function Merged(entries: seq<ClusterSummary>, r: ClusterSummary): seq<ClusterSummary> {
    if Reported(entries, r.name) then Replaced(entries, r) else entries + [r]
  }

  /** The summary after a report: the entries take it in, each total moves by the change of their sum. */
  function Record(s: Summary, r: ClusterSummary): Summary {
    var entries := Merged(s.summaries, r);
    Summary(Wrap(s.compliant + Sum(entries, Compliant) - Sum(s.summaries, Compliant)),
            Wrap(s.nonCompliant + Sum(entries, NonCompliant) - Sum(s.summaries, NonCompliant)),
            entries)
  }

  // ------------------------------------------------------------ the program

  /** Counts the clusters of a syncer's policy; states other than the two counted are ignored. */
  method CountClusters(states: seq<string>) returns (compliant: uint32, nonCompliant: uint32)
    ensures compliant == Wrap(multiset(states)["Compliant"])
    ensures nonCompliant == Wrap(multiset(states)["NonCompliant"])
  {
    compliant, nonCompliant := 0, 0;
    for i := 0 to |states|
      invariant compliant == Wrap(multiset(states[..i])["Compliant"])
      invariant nonCompliant == Wrap(multiset(states[..i])["NonCompliant"])
    {
      assert states[..i + 1] == states[..i] + [states[i]];
      if states[i] == "Compliant" {
        WrapAdd(multiset(states[..i])["Compliant"], 1);
        compliant := Wrap(compliant + 1);
      } else if states[i] == "NonCompliant" {
        WrapAdd(multiset(states[..i])["NonCompliant"], 1);
        nonCompliant := Wrap(nonCompliant + 1);
      }
    }
    assert states[..|states|] == states;
  }

  /** The summary object that a reconcile updates in place. */
  class ComplianceSummary {
    var compliant: uint32
    var nonCompliant: uint32
    var summaries: seq<ClusterSummary>

    function View(): Summary
      reads this
    {
      Summary(compliant, nonCompliant, summaries)
    }

    constructor (s: Summary)
      ensures View() == s
    {
      compliant, nonCompliant, summaries := s.compliant, s.nonCompliant, s.summaries;
    }

    /** One entry of the loop: the reporting hub's entry takes its counts, the totals the wrapped differences. */
    method UpdateEntry(index: nat, r: ClusterSummary)
      requires index < |summaries| && summaries[index].name == r.name
      modifies this
      ensures View() == Adjust(old(View()), index, r)
    {
      hide Wrap;
      var entry := summaries[index];
      compliant := Wrap(compliant + Wrap(r.compliant - entry.compliant));
      nonCompliant := Wrap(nonCompliant + Wrap(r.nonCompliant - entry.nonCompliant));
      summaries := summaries[index := summaries[index].(compliant := r.compliant)];
      summaries := summaries[index := summaries[index].(nonCompliant := r.nonCompliant)];
    }

    /** The program's loop over the entries; a hub without one gets a new entry at the end. */
    method Update(r: ClusterSummary)
      modifies this
      ensures View() == Record(old(View()), r)
    {
      hide LoopAt, Adjust, Record, Wrap;
      ghost var before := View();
      var exist := false;
      var index := 0;
      LoopStart(before, r);
      while index < |summaries|
        invariant index <= |summaries| == |before.summaries|
        invariant LoopAt(before, View(), index, exist, r)
      {
        LoopStep(before, View(), index, exist, r);
        if r.name == summaries[index].name {
          exist := true;
          UpdateEntry(index, r);
        }
        index := index + 1;
      }
      LoopEnd(before, View(), exist, r);
      if !exist {
        compliant := Wrap(compliant + r.compliant);
        nonCompliant := Wrap(nonCompliant + r.nonCompliant);
        summaries := summaries + [r];
      }
    }
  }

  function Adjust(s: Summary, index: nat, r: ClusterSummary): Summary
    requires index < |s.summaries|
  {
    var entry := s.summaries[index];
    Summary(Wrap(s.compliant + Wrap(r.compliant - entry.compliant)),
            Wrap(s.nonCompliant + Wrap(r.nonCompliant - entry.nonCompliant)),
            s.summaries[index := r])
  }

  /** Between the totals of `before` and `now` lies exactly the change of the entries' sums. */
  ghost predicate Balanced(before: Summary, now: Summary) {
    forall c :: TotalOf(now, c) == Wrap(TotalOf(before, c) + Sum(now.summaries, c) - Sum(before.summaries, c))
  }

  /** The state of the update loop when `index` entries are done. */
  ghost predicate Adjusted(before: Summary, now: Summary, index: nat, r: ClusterSummary) {
    && index <= |before.summaries|
    && now.summaries == Replaced(before.summaries[..index], r) + before.summaries[index..]
    && Balanced(before, now)
  }

  /** The same, and whether the reporting hub was among the entries done. */
  ghost predicate LoopAt(before: Summary, now: Summary, index: nat, exist: bool, r: ClusterSummary) {
    Adjusted(before, now, index, r) && (exist <==> Reported(before.summaries[..index], r.name))
  }

  lemma LoopStart(before: Summary, r: ClusterSummary)
    ensures LoopAt(before, before, 0, false, r)
  {
  }

  lemma LoopStep(before: Summary, now: Summary, index: nat, exist: bool, r: ClusterSummary)
    requires LoopAt(before, now, index, exist, r) && index < |before.summaries|
    ensures |now.summaries| == |before.summaries|
    ensures if now.summaries[index].name == r.name then
              |Adjust(now, index, r).summaries| == |before.summaries| && LoopAt(before, Adjust(now, index, r), index + 1, true, r)
            else LoopAt(before, now, index + 1, exist, r)
  {
    hide Adjusted, Reported;
    AdjustOne(before, now, index, r);
    ReportedStep(before.summaries, index, r);
  }

  lemma LoopEnd(before: Summary, now: Summary, exist: bool, r: ClusterSummary)
    requires LoopAt(before, now, |before.summaries|, exist, r)
    ensures Record(before, r) ==
            if exist then now else Summary(Wrap(now.compliant + r.compliant), Wrap(now.nonCompliant + r.nonCompliant), now.summaries + [r])
  {
    hide Adjusted, Record, Wrap;
    assert before.summaries[..|before.summaries|] == before.summaries;
    AdjustEnd(before, now, r);
  }

  lemma AdjustOne(before: Summary, now: Summary, index: nat, r: ClusterSummary)
    requires Adjusted(before, now, index, r) && index < |before.summaries|
    ensures |now.summaries| == |before.summaries| && now.summaries[index] == before.summaries[index]
    ensures Adjusted(before, if before.summaries[index].name == r.name then Adjust(now, index, r) else now, index + 1, r)
  {
    var entry := before.summaries[index];
    ReportedStep(before.summaries, index, r);
    if entry.name == r.name {
      var next := Adjust(now, index, r);
      forall c ensures TotalOf(next, c) == Wrap(TotalOf(before, c) + Sum(next.summaries, c) - Sum(before.summaries, c)) {
        SumUpdate(now.summaries, index, r, c);
        WrapSum(TotalOf(before, c) + Sum(now.summaries, c) - Sum(before.summaries, c), CountOf(r, c) - CountOf(entry, c));
      }
    }
  }

  lemma AdjustEnd(before: Summary, now: Summary, r: ClusterSummary)
    requires Adjusted(before, now, |before.summaries|, r)
    ensures Record(before, r) ==
            if Reported(before.summaries, r.name) then now
            else Summary(Wrap(now.compliant + r.compliant), Wrap(now.nonCompliant + r.nonCompliant), now.summaries + [r])
  {
    assert before.summaries[..|before.summaries|] == before.summaries;
    assert now.summaries == Replaced(before.summaries, r);
    assert TotalOf(now, Compliant) == now.compliant && TotalOf(now, NonCompliant) == now.nonCompliant;
    if !Reported(before.summaries, r.name) {
      NothingReplaced(before.summaries, r);
      assert now.summaries == before.summaries;
      SumAppend(before.summaries, r, Compliant);
      SumAppend(before.summaries, r, NonCompliant);
      assert now.compliant == before.compliant && now.nonCompliant == before.nonCompliant;
    }
  }

  // --------------------------------------------------------------- arithmetic

  lemma WrapAdd(a: int, b: int)
    ensures Wrap(Wrap(a) + b) == Wrap(a + b)
  {
  }

  lemma WrapSum(a: int, b: int)
    ensures Wrap(Wrap(a) + Wrap(b)) == Wrap(a + b)
  {
  }

  lemma SumAppend(entries: seq<ClusterSummary>, e: ClusterSummary, c: Counter)
    ensures Sum(entries + [e], c) == Sum(entries, c) + CountOf(e, c)
  {
    if entries == [] {
      assert entries + [e] == [e];
    } else {
      assert (entries + [e])[1..] == entries[1..] + [e];
      SumAppend(entries[1..], e, c);
    }
  }

  lemma SumUpdate(entries: seq<ClusterSummary>, i: nat, e: ClusterSummary, c: Counter)
    requires i < |entries|
    ensures Sum(entries[i := e], c) == Sum(entries, c) - CountOf(entries[i], c) + CountOf(e, c)
  {
    if i == 0 {
      assert entries[i := e][1..] == entries[1..];
    } else {
      assert entries[i := e][1..] == entries[1..][i - 1 := e];
      SumUpdate(entries[1..], i - 1, e, c);
    }
  }

  lemma ReportedStep(entries: seq<ClusterSummary>, i: nat, r: ClusterSummary)
    requires i < |entries|
    ensures Reported(entries[..i + 1], r.name) <==> Reported(entries[..i], r.name) || entries[i].name == r.name
    ensures Replaced(entries[..i + 1], r) == Replaced(entries[..i], r) + [if entries[i].name == r.name then r else entries[i]]
  {
    var most, all := entries[..i], entries[..i + 1];
    assert all == most + [entries[i]];
    if Reported(most, r.name) {
      var j :| 0 <= j < |most| && most[j].name == r.name;
      assert all[j].name == r.name;
    }
    if Reported(all, r.name) {
      var j :| 0 <= j < |all| && all[j].name == r.name;
      assert j < i ==> most[j].name == r.name;
    }
    assert all[i] == entries[i];
  }

  lemma NothingReplaced(entries: seq<ClusterSummary>, r: ClusterSummary)
    requires !Reported(entries, r.name)
    ensures Replaced(entries, r) == entries
  {
  }

  // ----------------------------------------------------------------- totals

  /** Each total is the sum of its entries, reduced to 32 bits. */
  predicate TotalsRight(s: Summary) {
    s.compliant == Wrap(Sum(s.summaries, Compliant)) && s.nonCompliant == Wrap(Sum(s.summaries, NonCompliant))
  }

  /**
   A report makes right totals right and wrong totals stay wrong, whatever duplicates the entries
   hold and however often the differences wrap.
   */
  lemma RecordKeepsTotals(s: Summary, r: ClusterSummary)
    ensures TotalsRight(Record(s, r)) <==> TotalsRight(s)
  {
    CongruenceMoves(s.compliant, Sum(s.summaries, Compliant), Sum(Merged(s.summaries, r), Compliant));
    CongruenceMoves(s.nonCompliant, Sum(s.summaries, NonCompliant), Sum(Merged(s.summaries, r), NonCompliant));
  }

  lemma CongruenceMoves(total: uint32, before: nat, after: nat)
    ensures Wrap(total + after - before) == Wrap(after) <==> total == Wrap(before)
  {
  }

  /** Below 2^32 the totals are the true sums. */
  lemma RightTotalsAreExact(s: Summary, c: Counter)
    requires TotalsRight(s) && Sum(s.summaries, c) < MODULUS
    ensures TotalOf(s, c) == Sum(s.summaries, c)
  {
  }

  // --------------------------------------------------- refinement of recompute

  /** The summary after a history of reports, oldest first. */
  function After(reports: seq<ClusterSummary>): Summary {
    if reports == [] then EMPTY else Record(After(reports[..|reports| - 1]), reports[|reports| - 1])
  }

  /** The hubs that reported, by first report. */
  function Hubs(reports: seq<ClusterSummary>): seq<string> {
    if reports == [] then []
    else
      var earlier, name := Hubs(reports[..|reports| - 1]), reports[|reports| - 1].name;
      if name in earlier then earlier else earlier + [name]
  }

  /** A hub's latest report; reports of zeros under its name if it never reported. */
  function Latest(reports: seq<ClusterSummary>, name: string): (r: ClusterSummary)
    ensures r.name == name
  {
    if reports == [] then ClusterSummary(name, 0, 0)
    else if reports[|reports| - 1].name == name then reports[|reports| - 1]
    else Latest(reports[..|reports| - 1], name)
  }

  function LatestOf(reports: seq<ClusterSummary>, hubs: seq<string>): seq<ClusterSummary> {
    seq(|hubs|, i requires 0 <= i < |hubs| => Latest(reports, hubs[i]))
  }

  /** The summary computed afresh from the history: the latest report of each hub, and their sums. */
  function Recomputed(reports: seq<ClusterSummary>): Summary {
    var entries := LatestOf(reports, Hubs(reports));
    Summary(Wrap(Sum(entries, Compliant)), Wrap(Sum(entries, NonCompliant)), entries)
  }

  /** The hubs of a history are listed once each, and are those that reported. */
  lemma HubsDistinct(reports: seq<ClusterSummary>)
    ensures forall i, j | 0 <= i < j < |Hubs(reports)| :: Hubs(reports)[i] != Hubs(reports)[j]
    ensures forall name :: name in Hubs(reports) <==> exists i :: 0 <= i < |reports| && reports[i].name == name
  {
  }

  lemma MergeLatest(earlier: seq<ClusterSummary>, r: ClusterSummary)
    ensures Merged(LatestOf(earlier, Hubs(earlier)), r) == LatestOf(earlier + [r], Hubs(earlier + [r]))
  {
    var entries, hubs := LatestOf(earlier, Hubs(earlier)), Hubs(earlier);
    assert (earlier + [r])[..|earlier|] == earlier;
    assert Reported(entries, r.name) <==> r.name in hubs by {
      assert forall i | 0 <= i < |hubs| :: entries[i].name == hubs[i];
    }
  }

  /**
   The incremental summary is the recomputed one after any history of reports: one entry per hub
   that reported, in order of first report, holding its latest counts, with the sums as totals.
   */
  lemma {:induction false} IncrementalIsRecomputed(reports: seq<ClusterSummary>)
    ensures After(reports) == Recomputed(reports)
  {
    if reports != [] {
      var earlier, r := reports[..|reports| - 1], reports[|reports| - 1];
      IncrementalIsRecomputed(earlier);
      assert earlier + [r] == reports;
      MergeLatest(earlier, r);
      RecordKeepsTotals(After(earlier), r);
    }
  }

  /**
   What a report does to the entries: every entry of its hub is the report, there is one, and no
   entry of another hub changes.
   */
  lemma ReportEntersSummary(s: Summary, r: ClusterSummary)
    ensures var t := Record(s, r);
            && (exists i :: 0 <= i < |t.summaries| && t.summaries[i] == r)
            && (forall i | 0 <= i < |t.summaries| && t.summaries[i].name == r.name :: t.summaries[i] == r)
            && |s.summaries| <= |t.summaries|
            && (forall i | 0 <= i < |s.summaries| && s.summaries[i].name != r.name :: t.summaries[i] == s.summaries[i])
            && (forall i | |s.summaries| <= i < |t.summaries| :: i == |s.summaries| && t.summaries[i] == r)
            && (|t.summaries| > |s.summaries| <==> forall i | 0 <= i < |s.summaries| :: s.summaries[i].name != r.name)
  {
    var t := Record(s, r);
    if Reported(s.summaries, r.name) {
      var i :| 0 <= i < |s.summaries| && s.summaries[i].name == r.name;
      assert t.summaries[i] == r;
    } else {
      assert t.summaries[|s.summaries|] == r;
    }
  }

  /** What a report does to the totals: a new hub's counts are added, a known hub's difference is, modulo 2^32. */
  lemma ReportMovesTotals(s: Summary, r: ClusterSummary)
    ensures (forall i | 0 <= i < |s.summaries| :: s.summaries[i].name != r.name) ==>
              && Record(s, r).compliant == (s.compliant + r.compliant) % 0x1_0000_0000
              && Record(s, r).nonCompliant == (s.nonCompliant + r.nonCompliant) % 0x1_0000_0000
    ensures forall i | 0 <= i < |s.summaries| && s.summaries[i].name == r.name
                       && (forall j | 0 <= j < |s.summaries| && j != i :: s.summaries[j].name != r.name) ::
              && Record(s, r).compliant == (s.compliant + r.compliant - s.summaries[i].compliant) % 0x1_0000_0000
              && Record(s, r).nonCompliant == (s.nonCompliant + r.nonCompliant - s.summaries[i].nonCompliant) % 0x1_0000_0000
  {
    if forall i | 0 <= i < |s.summaries| :: s.summaries[i].name != r.name {
      SumAppend(s.summaries, r, Compliant);
      SumAppend(s.summaries, r, NonCompliant);
    }
    forall i | 0 <= i < |s.summaries| && s.summaries[i].name == r.name && (forall j | 0 <= j < |s.summaries| && j != i :: s.summaries[j].name != r.name)
      ensures Record(s, r).compliant == (s.compliant + r.compliant - s.summaries[i].compliant) % 0x1_0000_0000
      ensures Record(s, r).nonCompliant == (s.nonCompliant + r.nonCompliant - s.summaries[i].nonCompliant) % 0x1_0000_0000
    {
      assert Merged(s.summaries, r) == s.summaries[i := r];
      SumUpdate(s.summaries, i, r, Compliant);
      SumUpdate(s.summaries, i, r, NonCompliant);
    }
  }

  /** The totals of right summaries are the sums over their entries, written out. */
  lemma SumsAreSums(entries: seq<ClusterSummary>, e: ClusterSummary)
    ensures Sum([], Compliant) == 0 && Sum([], NonCompliant) == 0
    ensures Sum(entries + [e], Compliant) == Sum(entries, Compliant) + e.compliant
    ensures Sum(entries + [e], NonCompliant) == Sum(entries, NonCompliant) + e.nonCompliant
  {
    SumAppend(entries, e, Compliant);
    SumAppend(entries, e, NonCompliant);
  }

  /** What a summary becomes by recording reports one after the other. */
  function RecordAll(s: Summary, reports: seq<ClusterSummary>): Summary {
    if reports == [] then s else Record(RecordAll(s, reports[..|reports| - 1]), reports[|reports| - 1])
  }

  /** Recording more reports on a recomputed summary is recomputing from them all. */
  lemma {:induction false} RecordMore(earlier: seq<ClusterSummary>, later: seq<ClusterSummary>)
    ensures RecordAll(Recomputed(earlier), later) == Recomputed(earlier + later)
  {
    hide Record, Recomputed;
    if later == [] {
      assert earlier + later == earlier;
    } else {
      var most, all := later[..|later| - 1], earlier + later;
      assert all[..|all| - 1] == earlier + most && all[|all| - 1] == later[|later| - 1];
      RecordMore(earlier, most);
      IncrementalIsRecomputed(earlier + most);
      IncrementalIsRecomputed(all);
    }
  }

  // ------------------------------------------------- commuting and repeating

  lemma RecordEntries(s: Summary, r: ClusterSummary, c: Counter)
    ensures TotalOf(Record(s, r), c) == Wrap(TotalOf(s, c) + Sum(Merged(s.summaries, r), c) - Sum(s.summaries, c))
  {
  }

  lemma TwoRecords(s: Summary, a: ClusterSummary, b: ClusterSummary, c: Counter)
    ensures TotalOf(Record(Record(s, a), b), c) ==
            Wrap(TotalOf(s, c) + Sum(Merged(Merged(s.summaries, a), b), c) - Sum(s.summaries, c))
  {
    var sa := Record(s, a);
    RecordEntries(s, a, c);
    RecordEntries(sa, b, c);
    WrapAdd(TotalOf(s, c) + Sum(sa.summaries, c) - Sum(s.summaries, c), Sum(Merged(sa.summaries, b), c) - Sum(sa.summaries, c));
  }

  lemma MergeKnown(entries: seq<ClusterSummary>, a: ClusterSummary, b: ClusterSummary)
    requires a.name != b.name && Reported(entries, a.name)
    ensures Merged(Merged(entries, a), b) == Merged(Merged(entries, b), a)
  {
    var i :| 0 <= i < |entries| && entries[i].name == a.name;
    assert Merged(entries, b)[i].name == a.name;
    SameNames(entries, a, b.name);
    if Reported(entries, b.name) {
      SameNames(entries, b, a.name);
    }
  }

  lemma SameNames(entries: seq<ClusterSummary>, r: ClusterSummary, name: string)
    ensures Reported(Replaced(entries, r), name) <==> Reported(entries, name)
  {
    if Reported(entries, name) {
      var i :| 0 <= i < |entries| && entries[i].name == name;
      assert Replaced(entries, r)[i].name == name;
    }
    if Reported(Replaced(entries, r), name) {
      var i :| 0 <= i < |entries| && Replaced(entries, r)[i].name == name;
      assert entries[i].name == name;
    }
  }

  lemma NotReportedAfter(entries: seq<ClusterSummary>, a: ClusterSummary, name: string)
    requires !Reported(entries, a.name) && !Reported(entries, name) && a.name != name
    ensures !Reported(entries + [a], name)
  {
  }

  /**
   Reports of different hubs commute: same totals and the same entries, up to the order in which
   two hubs that had not reported before were added. The start may be any summary at all.
   */
  lemma ReportsCommute(s: Summary, a: ClusterSummary, b: ClusterSummary)
    requires a.name != b.name
    ensures var ab, ba := Record(Record(s, a), b), Record(Record(s, b), a);
            && ab.compliant == ba.compliant && ab.nonCompliant == ba.nonCompliant
            && multiset(ab.summaries) == multiset(ba.summaries)
            && (Reported(s.summaries, a.name) || Reported(s.summaries, b.name) ==> ab == ba)
  {
    var e := s.summaries;
    TwoRecords(s, a, b, Compliant);
    TwoRecords(s, b, a, Compliant);
    TwoRecords(s, a, b, NonCompliant);
    TwoRecords(s, b, a, NonCompliant);
    if Reported(e, a.name) {
      MergeKnown(e, a, b);
    } else if Reported(e, b.name) {
      MergeKnown(e, b, a);
    } else {
      NotReportedAfter(e, a, b.name);
      NotReportedAfter(e, b, a.name);
      forall c ensures Sum(e + [a] + [b], c) == Sum(e + [b] + [a], c) {
        SumAppend(e, a, c);
        SumAppend(e + [a], b, c);
        SumAppend(e, b, c);
        SumAppend(e + [b], a, c);
      }
      assert Merged(Merged(e, a), b) == e + [a] + [b] && Merged(Merged(e, b), a) == e + [b] + [a];
    }
  }

  /** Repeating a report changes nothing, whatever the summary it was made to. */
  lemma ReportsAreIdempotent(s: Summary, r: ClusterSummary)
    ensures Record(Record(s, r), r) == Record(s, r)
  {
    var e := Merged(s.summaries, r);
    assert Reported(e, r.name) by {
      if Reported(s.summaries, r.name) {
        var i :| 0 <= i < |s.summaries| && s.summaries[i].name == r.name;
        assert e[i].name == r.name;
      } else {
        assert e[|s.summaries|].name == r.name;
      }
    }
    assert Replaced(e, r) == e;
    TwoRecords(s, r, r, Compliant);
    TwoRecords(s, r, r, NonCompliant);
  }
}
