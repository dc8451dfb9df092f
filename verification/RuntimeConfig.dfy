/**
 The start-up rewrite of the runtime-config option: legacy spellings of the core API are folded
 into "/v1" and "api/legacy" is dropped, while the map is being ranged over. Go leaves open in
 which order keys are visited and whether a key inserted on the way is visited too; the result is
 described for every choice.
 */
module RuntimeConfig {
  import opened Text

  /** A legacy spelling of the core API. */
  predicate Legacy(key: string) {
    key == "v1" || HasPrefix(key, "v1/") || key == "api/v1" || HasPrefix(key, "api/v1/")
  }

  /** In full: the key is "v1" or "api/v1", or begins with one of them and a slash. */
  lemma LegacyIs(key: string)
    ensures Legacy(key) <==>
            || key == "v1" || key == "api/v1"
            || (|key| >= 3 && key[..3] == "v1/") || (|key| >= 7 && key[..7] == "api/v1/")
  {
  }

  const CORE := "/v1"

  const DROPPED := "api/legacy"

  lemma CoreIsNotLegacy()
    ensures !Legacy(CORE) && CORE != DROPPED && !Legacy(DROPPED)
  {
    assert CORE[..3][0] == '/' && "v1/"[0] == 'v';
    assert DROPPED[..3][0] == 'a' && DROPPED[..7][4] == 'l' && "api/v1/"[4] == 'v';
  }

  /** What a visit to a key that is still present does. */
  function Visit(m: map<string, string>, key: string): map<string, string>
    requires key in m
  {
    if Legacy(key) then (m - {key})[CORE := m[key]]
    else if key == DROPPED then m - {key}
    else m
  }

  /** The map after a sequence of visits; keys deleted meanwhile are not produced. */
  function Visited(m: map<string, string>, order: seq<string>): map<string, string> {
    if order == [] then m
    else
      var before, key := Visited(m, order[..|order| - 1]), order[|order| - 1];
      if key in before then Visit(before, key) else before
  }

  /** A range over m: every key of m once; the inserted key perhaps, if it was not one of them. */
  ghost predicate Ranges(m: map<string, string>, order: seq<string>) {
    && (forall i, j | 0 <= i < j < |order| :: order[i] != order[j])
    && (forall key | key in m :: key in order)
    && (forall key | key in order :: key in m || key == CORE)
  }

  /** The legacy key of m visited last before position n, if any. */
  function LastLegacy(m: map<string, string>, order: seq<string>): (last: seq<string>)
    ensures |last| <= 1 && (last != [] ==> last[0] in m && Legacy(last[0]) && last[0] in order)
    ensures last == [] ==> forall key | key in order && key in m :: !Legacy(key)
  {
    if order == [] then []
    else
      var key := order[|order| - 1];
      if key in m && Legacy(key) then [key] else LastLegacy(m, order[..|order| - 1])
  }

  /** The entries that survive visits to the keys in `seen`. */
  function Kept(m: map<string, string>, seen: seq<string>): map<string, string> {
    map key | key in m && !((Legacy(key) || key == DROPPED) && key in seen) :: m[key]
  }

  /** The map that start-up is to produce when `last` is the legacy key visited last. */
  function Folded(m: map<string, string>, seen: seq<string>, last: seq<string>): map<string, string>
    requires |last| <= 1 && (last != [] ==> last[0] in m)
  {
    if last == [] then Kept(m, seen) else Kept(m, seen)[CORE := m[last[0]]]
  }

  lemma KeptStep(m: map<string, string>, most: seq<string>, key: string)
    ensures Kept(m, most + [key]) == if Legacy(key) || key == DROPPED then Kept(m, most) - {key} else Kept(m, most)
  {
  }

  lemma FoldStep(m: map<string, string>, most: seq<string>, key: string, last: seq<string>)
    requires |last| <= 1 && (last != [] ==> last[0] in m) && key !in most
    ensures var before := Folded(m, most, last);
            (if key in before then Visit(before, key) else before) ==
            Folded(m, most + [key], if key in m && Legacy(key) then [key] else last)
  {
    CoreIsNotLegacy();
    hide Legacy;
    KeptStep(m, most, key);
    var before := Folded(m, most, last);
    if Legacy(key) || key == DROPPED {
      assert key in before <==> key in m;
      assert before - {key} == if last == [] then Kept(m, most) - {key} else (Kept(m, most) - {key})[CORE := m[last[0]]];
    }
  }

  lemma {:induction false} VisitedIsFolded(m: map<string, string>, order: seq<string>)
    requires forall i, j | 0 <= i < j < |order| :: order[i] != order[j]
    ensures Visited(m, order) == Folded(m, order, LastLegacy(m, order))
  {
    hide Legacy, Folded, Visit;
    if order != [] {
      var most, key := order[..|order| - 1], order[|order| - 1];
      VisitedIsFolded(m, most);
      assert order == most + [key] && key !in most;
      FoldStep(m, most, key, LastLegacy(m, most));
    } else {
      assert Folded(m, [], []) == m by { EmptyFold(m); }
    }
  }

  lemma EmptyFold(m: map<string, string>)
    ensures Folded(m, [], []) == m
  {
  }

  /**
   The rewrite in any visit order: no legacy or dropped key remains, every other key but "/v1"
   keeps its value, and "/v1" takes the value of the legacy key visited last, or keeps its own
   if there is none.
   */
  lemma RewriteIsSafe(m: map<string, string>, order: seq<string>)
    requires Ranges(m, order)
    ensures var r := Visited(m, order);
            && (forall key | key in r :: !Legacy(key) && key != "api/legacy")
            && (forall key | key != "/v1" && !Legacy(key) && key != "api/legacy" :: (key in r <==> key in m) && (key in m ==> r[key] == m[key]))
            && if exists key :: key in m && Legacy(key) then "/v1" in r && exists key :: key in m && Legacy(key) && r["/v1"] == m[key]
               else ("/v1" in r <==> "/v1" in m) && ("/v1" in m ==> r["/v1"] == m["/v1"])
  {
    hide Legacy;
    CoreIsNotLegacy();
    VisitedIsFolded(m, order);
  }

  lemma MoveToEnd(order: seq<string>, i: nat) returns (other: seq<string>)
    requires i < |order| && forall j, k | 0 <= j < k < |order| :: order[j] != order[k]
    ensures |other| == |order| && other[|other| - 1] == order[i]
    ensures forall j, k | 0 <= j < k < |other| :: other[j] != other[k]
    ensures forall key :: key in other <==> key in order
  {
    other := order[..i] + order[i + 1..] + [order[i]];
    assert forall j | 0 <= j < |order| :: order[j] == other[if j < i then j else if j == i then |order| - 1 else j - 1];
    assert forall j | 0 <= j < |order| - 1 :: other[j] == order[if j < i then j else j + 1];
  }

  /** Any of the legacy values can win: for each there is a visit order that leaves it under "/v1". */
  lemma AnyLegacyValueCanWin(m: map<string, string>, order: seq<string>, winner: string)
    requires Ranges(m, order) && winner in m && Legacy(winner)
    ensures exists other :: Ranges(m, other) && CORE in Visited(m, other) && Visited(m, other)[CORE] == m[winner]
  {
    hide Visited, HasPrefix;
    assert winner in order;
    var i :| 0 <= i < |order| && order[i] == winner;
    var other := MoveToEnd(order, i);
    assert Ranges(m, other);
    VisitedIsFolded(m, other);
    assert LastLegacy(m, other) == [winner];
  }

  class APIEnablement {
    var runtimeConfig: map<string, string>

    constructor (m: map<string, string>)
      ensures runtimeConfig == m
    {
      runtimeConfig := m;
    }

    /**
     The start-up loop over the option, changed while it is ranged over. The order of the keys and
     whether an inserted key is visited are left open, as the language leaves them.
     */
    method Rewrite() returns (ghost order: seq<string>)
      modifies this
      ensures Ranges(old(runtimeConfig), order) && runtimeConfig == Visited(old(runtimeConfig), order)
    {
      CoreIsNotLegacy();
      hide Legacy;
      ghost var m := runtimeConfig;
      var left, visited := runtimeConfig.Keys, {};
      order := [];
      while left != {}
        invariant runtimeConfig == Visited(m, order)
        invariant forall i, j | 0 <= i < j < |order| :: order[i] != order[j]
        invariant forall key :: key in visited <==> key in order
        invariant left !! visited && m.Keys <= left + visited <= m.Keys + {CORE}
        decreases m.Keys + {CORE} - visited
      {
        var key :| key in left;
        left, visited := left - {key}, visited + {key};
        ghost var before := order;
        order := order + [key];
        assert order[..|before|] == before;
        assert forall k :: k in order <==> k in before || k == key;
        if key in runtimeConfig {
          var value := runtimeConfig[key];
          if Legacy(key) {
            runtimeConfig := runtimeConfig - {key};
            runtimeConfig := runtimeConfig[CORE := value];
            var visitInserted: bool := *;
            if visitInserted && CORE !in visited {
              left := left + {CORE};
            }
          }
          if key == DROPPED {
            runtimeConfig := runtimeConfig - {key};
          }
        }
      }
    }
  }
}
