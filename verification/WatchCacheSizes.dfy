/**
 The watch-cache-size option of the API server: a list of `resource.group#size` entries, its
 parser, its printer, and the start-up step that overrides defaults with the user's entries and
 prints the result back into the option.
 */
module WatchCacheSizes {
  import opened Options
  import opened Text

  datatype Result<+T> = Ok(value: T) | Err(error: Error)

  datatype Error = InvalidValue(entry: string) | InvalidSize(entry: string) | NegativeSize(entry: string) | NegativeFor(key: GroupResource)

  datatype GroupResource = GroupResource(group: string, resource: string)

  const MAX_INT: int := 0x7fff_ffff_ffff_ffff

  // ------------------------------------------------------------------ numbers

  predicate IsDigit(c: char) {
    '0' <= c <= '9'
  }

  function Decimal(n: nat): string {
    if n < 10 then [('0' as int + n) as char] else Decimal(n / 10) + Decimal(n % 10)
  }

  function DigitsValue(s: string): (v: Option<nat>)
  {
    if s == "" then Some(0)
    else
      var last := s[|s| - 1];
      if !IsDigit(last) then None
      else match DigitsValue(s[..|s| - 1])
        case None => None
        case Some(v) => Some(10 * v + (last as int - '0' as int))
  }

  /** A signed decimal number that fits a 64-bit integer. */
  function Atoi(s: string): Option<int> {
    if s == "" then None
    else
      var signed := s[0] == '-' || s[0] == '+';
      var digits := if signed then s[1..] else s;
      if digits == "" || DigitsValue(digits).None? then None
      else
        var v: int := if s[0] == '-' then -(DigitsValue(digits).value as int) else DigitsValue(digits).value;
        if -MAX_INT - 1 <= v <= MAX_INT then Some(v) else None
  }

  lemma DecimalStep(n: nat)
    ensures Decimal(n) != ""
    ensures n >= 10 ==> Decimal(n)[..|Decimal(n)| - 1] == Decimal(n / 10) && Decimal(n)[|Decimal(n)| - 1] == Decimal(n % 10)[0]
    ensures forall i | 0 <= i < |Decimal(n)| :: IsDigit(Decimal(n)[i])
  {
  }

  lemma {:induction false} DigitsRoundTrip(n: nat)
    ensures DigitsValue(Decimal(n)) == Some(n)
  {
    DecimalStep(n);
    if n >= 10 {
      DigitsRoundTrip(n / 10);
      var last := Decimal(n)[|Decimal(n)| - 1];
      assert last as int - '0' as int == n % 10;
    } else {
      assert Decimal(n)[..0] == "";
    }
  }

  lemma AtoiRoundTrip(n: nat)
    requires n <= MAX_INT
    ensures Atoi(Decimal(n)) == Some(n) && '#' !in Decimal(n)
  {
    DecimalStep(n);
    DigitsRoundTrip(n);
    assert IsDigit(Decimal(n)[0]);
  }

  // ------------------------------------------------------------------ entries

  /** `resource.group`, or just the resource when there is no group. */
  function NameOf(key: GroupResource): string {
    if key.group == "" then key.resource else key.resource + "." + key.group
  }

  /** The resource is what precedes the first dot, the group what follows it. */
  function ParseName(s: string): GroupResource {
    var dot := IndexOf(s, '.');
    if dot < |s| then GroupResource(s[dot + 1..], s[..dot]) else GroupResource("", s)
  }

  function Entry(key: GroupResource, size: nat): string {
    NameOf(key) + "#" + Decimal(size)
  }

  /** Names that survive printing and parsing. */
  predicate Clean(key: GroupResource) {
    '.' !in key.resource && '#' !in key.resource && '#' !in key.group
  }

  function ParseEntry(entry: string): Result<(GroupResource, nat)> {
    var tokens := Split(entry, '#');
    if |tokens| != 2 then Err(InvalidValue(entry))
    else match Atoi(tokens[1])
      case None => Err(InvalidSize(entry))
      case Some(size) => if size < 0 then Err(NegativeSize(entry)) else Ok((ParseName(tokens[0]), size))
  }

  lemma ParseNameOf(key: GroupResource)
    requires '.' !in key.resource
    ensures ParseName(NameOf(key)) == key
  {
    var s := NameOf(key);
    assert s[..|key.resource|] == key.resource;
    IndexOfIs(s, '.', |key.resource|);
    if key.group != "" { assert s[|key.resource| + 1..] == key.group; }
  }

  lemma EntryRoundTrip(key: GroupResource, size: nat)
    requires Clean(key) && size <= MAX_INT
    ensures ParseEntry(Entry(key, size)) == Ok((key, size))
  {
    AtoiRoundTrip(size);
    ParseNameOf(key);
    SplitOnce(NameOf(key), '#', Decimal(size));
    assert NameOf(key) + ['#'] + Decimal(size) == Entry(key, size);
  }

  /** Whatever the parser accepts names a clean key and a size in range. */
  lemma ParsedIsClean(entry: string)
    requires ParseEntry(entry).Ok?
    ensures Clean(ParseEntry(entry).value.0) && ParseEntry(entry).value.1 <= MAX_INT
  {
    var name := Split(entry, '#')[0];
    SplitPiecesClean(entry, '#', 0);
    var dot := IndexOf(name, '.');
    assert forall c | c in name[..dot] :: c in name;
    if dot < |name| {
      assert forall c | c in name[dot + 1..] :: c in name;
    } else {
      assert name[..dot] == name;
    }
  }

  // ------------------------------------------------- what an entry means, in full

  predicate AllDigits(s: string) {
    forall i | 0 <= i < |s| :: '0' <= s[i] <= '9'
  }

  function Power(n: nat): nat {
    if n == 0 then 1 else 10 * Power(n - 1)
  }

  function Place(digit: nat, n: nat): nat {
    digit * Power(n)
  }

  /** What a row of digits denotes, the first one counting most. */
  function Denotes(s: string): nat
    requires AllDigits(s)
  {
    if s == "" then 0 else Place(s[0] as int - '0' as int, |s| - 1) + Denotes(s[1..])
  }

  lemma Shift(digit: nat, n: nat)
    requires n > 0
    ensures Place(digit, n) == 10 * Place(digit, n - 1)
  {
  }

  lemma DenotesFirst(s: string)
    requires AllDigits(s) && s != ""
    ensures Denotes(s) == Place(s[0] as int - '0' as int, |s| - 1) + Denotes(s[1..])
  {
  }

  /** One more digit at the end shifts the others by one place. */
  lemma {:induction false} DenotesAppend(s: string, c: char)
    requires AllDigits(s) && '0' <= c <= '9'
    ensures AllDigits(s + [c]) && Denotes(s + [c]) == 10 * Denotes(s) + (c as int - '0' as int)
  {
    if s == "" {
      assert s + [c] == [c] && [c][1..] == "";
    } else {
      var more, first := s + [c], s[0] as int - '0' as int;
      assert more[0] == s[0] && more[1..] == s[1..] + [c];
      DenotesAppend(s[1..], c);
      Shift(first, |s|);
      hide Denotes, Power, Place;
      DenotesFirst(s);
      DenotesFirst(more);
    }
  }

  /** A text has a value if and only if it is all digits, and then what they denote. */
  lemma {:induction false} DigitsMean(s: string)
    ensures DigitsValue(s).Some? <==> AllDigits(s)
    ensures AllDigits(s) ==> DigitsValue(s) == Some(Denotes(s))
  {
    if s != "" {
      var most, last := s[..|s| - 1], s[|s| - 1];
      DigitsMean(most);
      assert s == most + [last];
      if AllDigits(most) && IsDigit(last) { DenotesAppend(most, last); }
    }
  }

  /** One or more digits, perhaps after a sign. */
  predicate Numeral(text: string) {
    var digits := Unsigned(text);
    digits != "" && AllDigits(digits)
  }

  function Unsigned(text: string): string {
    if text != "" && (text[0] == '+' || text[0] == '-') then text[1..] else text
  }

  function ValueOf(text: string): int
    requires Numeral(text)
  {
    if text[0] == '-' then -(Denotes(Unsigned(text)) as int) else Denotes(Unsigned(text))
  }

  lemma AtoiMeans(text: string)
    ensures Atoi(text) ==
            if Numeral(text) && -0x8000_0000_0000_0000 <= ValueOf(text) <= 0x7fff_ffff_ffff_ffff then Some(ValueOf(text)) else None
  {
    DigitsMean(Unsigned(text));
  }

  /** The resource is the name up to its first dot, and the group what follows the dot. */
  predicate Names(name: string, key: GroupResource) {
    if '.' in name then '.' !in key.resource && name == key.resource + "." + key.group
    else key.resource == name && key.group == ""
  }

  lemma NamesMeans(name: string)
    ensures Names(name, ParseName(name))
  {
    var dot := IndexOf(name, '.');
    if dot < |name| {
      assert name == name[..dot] + "." + name[dot + 1..];
    } else {
      assert name[..dot] == name;
    }
  }

  /**
   An entry with one separator, in full: a text that is no numeral, or whose value does not fit 64
   bits, is an invalid size; a value below zero is a negative one; any other entry is accepted, for
   the key its name stands for and with the value the text denotes.
   */
  lemma EntryMeans(name: string, text: string)
    requires '#' !in name && '#' !in text
    ensures var entry := name + "#" + text;
            match ParseEntry(entry)
            case Ok((key, size)) => Names(name, key) && Numeral(text) && ValueOf(text) == size && 0 <= size <= 0x7fff_ffff_ffff_ffff
            case Err(InvalidSize(e)) => e == entry && (!Numeral(text) || !(-0x8000_0000_0000_0000 <= ValueOf(text) <= 0x7fff_ffff_ffff_ffff))
            case Err(NegativeSize(e)) => e == entry && Numeral(text) && -0x8000_0000_0000_0000 <= ValueOf(text) < 0
            case Err(_) => false
  {
    hide Numeral, Names;
    SplitOnce(name, '#', text);
    assert name + ['#'] + text == name + "#" + text;
    AtoiMeans(text);
    NamesMeans(name);
  }

  /** An entry with no separator, or more than one, is an invalid value. */
  lemma OtherEntryMeans(entry: string)
    ensures (forall name, text | '#' !in name && '#' !in text :: entry != name + "#" + text) <==> ParseEntry(entry) == Err(InvalidValue(entry))
  {
    var tokens := Split(entry, '#');
    if |tokens| == 2 {
      JoinSplit(entry, '#');
      SplitPiecesClean(entry, '#', 0);
      SplitPiecesClean(entry, '#', 1);
      assert tokens[1..] == [tokens[1]];
      assert entry == tokens[0] + "#" + tokens[1];
    } else {
      forall name, text | '#' !in name && '#' !in text ensures entry != name + "#" + text {
        SplitOnce(name, '#', text);
        assert name + ['#'] + text == name + "#" + text;
      }
    }
  }

  /** A name, a separator and the numeral of a size that is neither negative nor too large. */
  ghost predicate Acceptable(entry: string) {
    exists name, text ::
      && '#' !in name && '#' !in text && entry == name + "#" + text
      && Numeral(text) && 0 <= ValueOf(text) <= 0x7fff_ffff_ffff_ffff
  }

  lemma AcceptedIff(entry: string)
    ensures ParseEntry(entry).Ok? <==> Acceptable(entry)
  {
    hide Numeral, ValueOf, ParseEntry;
    OtherEntryMeans(entry);
    forall name, text | '#' !in name && '#' !in text && entry == name + "#" + text
      ensures ParseEntry(entry).Ok? <==> Numeral(text) && 0 <= ValueOf(text) <= 0x7fff_ffff_ffff_ffff
    {
      EntryMeans(name, text);
    }
  }

  /** What is printed for a key: its resource, a dot and its group if it has one, a separator, and the plain decimal of the size. */
  lemma PrintedInFull(key: GroupResource, size: nat)
    ensures exists text ::
              && Entry(key, size) == (if key.group == "" then key.resource else key.resource + "." + key.group) + "#" + text
              && text != "" && AllDigits(text) && Denotes(text) == size && (|text| > 1 ==> text[0] != '0')
  {
    DecimalStep(size);
    DigitsRoundTrip(size);
    DigitsMean(Decimal(size));
    NoLeadingZero(size);
  }

  lemma {:induction false} NoLeadingZero(n: nat)
    ensures Decimal(n) != "" && (n > 0 ==> Decimal(n)[0] != '0') && (n < 10 ==> |Decimal(n)| == 1)
  {
    if n >= 10 { NoLeadingZero(n / 10); }
  }

  // -------------------------------------------------------------------- lists

  /** The map a list of entries stands for: later entries win; the first bad entry is the error. */
  function ParseAll(entries: seq<string>): Result<map<GroupResource, nat>> {
    if entries == [] then Ok(map[])
    else match ParseAll(entries[..|entries| - 1])
      case Err(e) => Err(e)
      case Ok(m) =>
        match ParseEntry(entries[|entries| - 1])
        case Err(e) => Err(e)
        case Ok((key, size)) => Ok(m[key := size])
  }

  method ParseWatchCacheSizes(cacheSizes: seq<string>) returns (r: Result<map<GroupResource, nat>>)
    ensures r == ParseAll(cacheSizes)
    ensures r.Ok? <==> forall i | 0 <= i < |cacheSizes| :: Acceptable(cacheSizes[i])
  {
    hide Acceptable, ParseAll, Atoi, ParseName, Split;
    ListAccepted(cacheSizes);
    NothingParsed(cacheSizes);
    var watchCacheSizes: map<GroupResource, nat> := map[];
    for i := 0 to |cacheSizes|
      invariant ParseAll(cacheSizes[..i]) == Ok(watchCacheSizes)
    {
      var c := cacheSizes[i];
      NextParsed(cacheSizes, i);
      var tokens := Split(c, '#');
      if |tokens| != 2 {
        FirstErrorStays(cacheSizes, i + 1);
        return Err(InvalidValue(c));
      }
      var size := Atoi(tokens[1]);
      if size.None? {
        FirstErrorStays(cacheSizes, i + 1);
        return Err(InvalidSize(c));
      }
      if size.value < 0 {
        FirstErrorStays(cacheSizes, i + 1);
        return Err(NegativeSize(c));
      }
      watchCacheSizes := watchCacheSizes[ParseName(tokens[0]) := size.value];
    }
    assert cacheSizes[..|cacheSizes|] == cacheSizes;
    return Ok(watchCacheSizes);
  }

  lemma NothingParsed(entries: seq<string>)
    ensures ParseAll(entries[..0]) == Ok(map[])
  {
  }

  lemma NextParsed(entries: seq<string>, i: nat)
    requires i < |entries|
    ensures ParseAll(entries[..i + 1]) ==
            match ParseAll(entries[..i])
            case Err(e) => Err(e)
            case Ok(m) =>
              match ParseEntry(entries[i])
              case Err(e) => Err(e)
              case Ok((key, size)) => Ok(m[key := size])
  {
    hide ParseEntry;
    assert entries[..i + 1][..i] == entries[..i];
  }

  /** A list is accepted if and only if each of its entries is. */
  lemma {:induction false} ListAccepted(entries: seq<string>)
    ensures ParseAll(entries).Ok? <==> forall i | 0 <= i < |entries| :: Acceptable(entries[i])
  {
    hide Acceptable, ParseEntry;
    if entries != [] {
      ListAccepted(entries[..|entries| - 1]);
      AcceptedIff(entries[|entries| - 1]);
    }
  }

  /** The error of a list is that of its first unacceptable entry. */
  lemma {:induction false} FirstErrorIsGiven(entries: seq<string>, i: nat)
    requires i < |entries| && !Acceptable(entries[i]) && forall j | 0 <= j < i :: Acceptable(entries[j])
    ensures ParseEntry(entries[i]).Err? && ParseAll(entries) == Err(ParseEntry(entries[i]).error)
  {
    hide Acceptable, ParseEntry;
    AcceptedIff(entries[i]);
    ListAccepted(entries[..i]);
    assert entries[..i + 1][..i] == entries[..i];
    FirstErrorStays(entries, i + 1);
  }

  lemma {:induction false} FirstErrorStays(entries: seq<string>, i: nat)
    requires i <= |entries| && ParseAll(entries[..i]).Err?
    ensures ParseAll(entries) == ParseAll(entries[..i])
    decreases |entries|
  {
    if i == |entries| {
      assert entries[..i] == entries;
    } else {
      var most := entries[..|entries| - 1];
      assert most[..i] == entries[..i];
      FirstErrorStays(most, i);
    }
  }

  /** Entry i is the last one for its key, and gives it this size. */
  ghost predicate DecidedBy(entries: seq<string>, i: nat, key: GroupResource, size: nat) {
    && i < |entries| && ParseEntry(entries[i]) == Ok((key, size))
    && forall j | i < j < |entries| :: ParseEntry(entries[j]).Ok? && ParseEntry(entries[j]).value.0 != key
  }

  /** An accepted list gives each key the size of its last entry, and no key that is not listed. */
  lemma {:induction false} LastEntryWins(entries: seq<string>, key: GroupResource)
    requires ParseAll(entries).Ok?
    ensures if key in ParseAll(entries).value then exists i :: DecidedBy(entries, i, key, ParseAll(entries).value[key])
            else forall i | 0 <= i < |entries| :: ParseEntry(entries[i]).Ok? && ParseEntry(entries[i]).value.0 != key
  {
    hide ParseEntry;
    if entries != [] {
      var n := |entries| - 1;
      var most := entries[..n];
      LastEntryWins(most, key);
      if ParseEntry(entries[n]).value.0 == key {
        assert DecidedBy(entries, n, key, ParseAll(entries).value[key]);
      } else if key in ParseAll(most).value {
        var i :| DecidedBy(most, i, key, ParseAll(most).value[key]);
        assert DecidedBy(entries, i, key, ParseAll(entries).value[key]);
      }
    }
  }

  lemma {:induction false} ParsedKeysClean(entries: seq<string>)
    requires ParseAll(entries).Ok?
    ensures forall key | key in ParseAll(entries).value :: Clean(key) && ParseAll(entries).value[key] <= MAX_INT
  {
    if entries != [] {
      ParsedKeysClean(entries[..|entries| - 1]);
      ParsedIsClean(entries[|entries| - 1]);
    }
  }

  /** The entries print the map in the order the keys are visited, each once. */
  ghost predicate Prints(m: map<GroupResource, int>, order: seq<GroupResource>, entries: seq<string>) {
    && |order| == |entries|
    && (forall i, j | 0 <= i < j < |order| :: order[i] != order[j])
    && (forall key :: key in order <==> key in m)
    && (forall i | 0 <= i < |order| :: m[order[i]] >= 0 && entries[i] == Entry(order[i], m[order[i]]))
  }

  /** Prints a map in whatever order its keys come; a negative size is an error. */
  method WriteWatchCacheSizes(watchCacheSizes: map<GroupResource, int>) returns (r: Result<seq<string>>, ghost order: seq<GroupResource>)
    ensures r.Ok? <==> forall key | key in watchCacheSizes :: watchCacheSizes[key] >= 0
    ensures r.Ok? ==> Prints(watchCacheSizes, order, r.value)
    ensures r.Err? ==> r.error.NegativeFor? && r.error.key in watchCacheSizes && watchCacheSizes[r.error.key] < 0
  {
    var cacheSizes: seq<string> := [];
    order := [];
    var left := watchCacheSizes.Keys;
    while left != {}
      invariant left <= watchCacheSizes.Keys && |order| == |cacheSizes|
      invariant forall key :: key in order <==> key in watchCacheSizes && key !in left
      invariant forall i, j | 0 <= i < j < |order| :: order[i] != order[j]
      invariant forall i | 0 <= i < |order| ::
                  order[i] in watchCacheSizes && watchCacheSizes[order[i]] >= 0 && cacheSizes[i] == Entry(order[i], watchCacheSizes[order[i]])
      decreases |left|
    {
      var resource :| resource in left;
      left := left - {resource};
      var size := watchCacheSizes[resource];
      if size < 0 {
        return Err(NegativeFor(resource)), order;
      }
      cacheSizes := cacheSizes + [Entry(resource, size)];
      ghost var before := order;
      order := order + [resource];
      assert forall key :: key in order <==> key in before || key == resource;
    }
    assert forall key | key in watchCacheSizes :: key in order;
    return Ok(cacheSizes), order;
  }

  lemma {:induction false} PrintedPrefix(m: map<GroupResource, int>, order: seq<GroupResource>, entries: seq<string>, n: nat)
    requires Prints(m, order, entries) && n <= |entries|
    requires forall key | key in m :: Clean(key) && m[key] <= MAX_INT
    ensures ParseAll(entries[..n]).Ok?
    ensures forall key :: key in ParseAll(entries[..n]).value <==> key in order[..n]
    ensures forall key | key in order[..n] :: key in m && ParseAll(entries[..n]).value[key] == m[key]
  {
    hide ParseEntry, Entry, Clean;
    if n > 0 {
      var key := order[n - 1];
      PrintedPrefix(m, order, entries, n - 1);
      assert entries[..n][..n - 1] == entries[..n - 1] && entries[..n][n - 1] == entries[n - 1];
      assert forall k :: k in order[..n] <==> k in order[..n - 1] || k == key;
      assert key in order;
      EntryRoundTrip(key, m[key]);
    }
  }

  /**
   Round trip, exactly: for every map of sizes that fit an int, and for every order in which its
   keys are visited, parsing what was printed gives the map back if and only if no name holds a
   separator that the parser splits on.
   */
  lemma PrintParseRoundTrip(m: map<GroupResource, int>, order: seq<GroupResource>, entries: seq<string>)
    requires Prints(m, order, entries) && forall key | key in m :: m[key] <= MAX_INT
    ensures (ParseAll(entries).Ok? && ParseAll(entries).value == m) <==> forall key | key in m :: Clean(key)
  {
    hide Entry, ParseAll, Clean;
    if forall key | key in m :: Clean(key) {
      PrintedPrefix(m, order, entries, |entries|);
      assert entries[..|entries|] == entries && order[..|order|] == order;
    }
    if ParseAll(entries).Ok? {
      ParsedKeysClean(entries);
    }
  }

  // ------------------------------------------------------------------ start-up

  /** Start-up: the user's list is parsed, overrides the defaults entry by entry, and the result is printed. */
  method CompleteCacheSizes(defaults: map<GroupResource, nat>, user: seq<string>) returns (r: Result<seq<string>>)
    requires forall key | key in defaults :: Clean(key) && defaults[key] <= MAX_INT
    ensures ParseAll(user).Err? ==> r == Err(ParseAll(user).error)
    ensures ParseAll(user).Ok? ==> r.Ok? && ParseAll(r.value) == Ok(defaults + ParseAll(user).value)
  {
    hide ParseAll, Prints, Clean;
    var userSpecified := ParseWatchCacheSizes(user);
    if userSpecified.Err? {
      return Err(userSpecified.error);
    }
    var sizes := Override(defaults, userSpecified.value);
    ParsedKeysClean(user);
    ghost var order;
    r, order := WriteWatchCacheSizes(sizes);
    PrintParseRoundTrip(sizes, order, r.value);
    assert ParseAll(r.value).value == defaults + userSpecified.value;
  }

  /** The overriding loop, in whatever order the user's keys come. */
  method Override(defaults: map<GroupResource, nat>, user: map<GroupResource, nat>) returns (sizes: map<GroupResource, nat>)
    ensures sizes == defaults + user
  {
    hide Overridden;
    sizes := defaults;
    var left := user.Keys;
    OverrideEnds(defaults, user);
    while left != {}
      invariant left <= user.Keys && sizes == Overridden(defaults, user, left)
      decreases |left|
    {
      var resource :| resource in left;
      OverrideOne(defaults, user, left, resource);
      left := left - {resource};
      sizes := sizes[resource := user[resource]];
    }
  }

  /** The sizes when these keys of the user's are left. */
  function Overridden(defaults: map<GroupResource, nat>, user: map<GroupResource, nat>, left: set<GroupResource>): map<GroupResource, nat> {
    defaults + (user - left)
  }

  lemma OverrideEnds(defaults: map<GroupResource, nat>, user: map<GroupResource, nat>)
    ensures Overridden(defaults, user, user.Keys) == defaults && Overridden(defaults, user, {}) == defaults + user
  {
    assert user - {} == user && user - user.Keys == map[];
  }

  lemma OverrideOne(defaults: map<GroupResource, nat>, user: map<GroupResource, nat>, left: set<GroupResource>, resource: GroupResource)
    requires resource in left && resource in user
    ensures Overridden(defaults, user, left - {resource}) == Overridden(defaults, user, left)[resource := user[resource]]
  {
    var before, after := user - left, user - (left - {resource});
    assert after.Keys == before.Keys + {resource};
    assert forall key | key in before :: after[key] == before[key];
  }

  /** Start-up on an option that start-up has already completed leaves the map it stands for unchanged. */
  method CompleteTwice(defaults: map<GroupResource, nat>, user: seq<string>) returns (once: Result<seq<string>>, twice: Result<seq<string>>)
    requires forall key | key in defaults :: Clean(key) && defaults[key] <= MAX_INT
    ensures ParseAll(user).Ok? ==> once.Ok? && twice.Ok? && ParseAll(twice.value) == ParseAll(once.value) == Ok(defaults + ParseAll(user).value)
    ensures ParseAll(user).Err? ==> once.Err? && twice == once
  {
    hide ParseAll, Clean;
    once := CompleteCacheSizes(defaults, user);
    if once.Err? {
      return once, once;
    }
    twice := CompleteCacheSizes(defaults, once.value);
    assert defaults + (defaults + ParseAll(user).value) == defaults + ParseAll(user).value;
  }
}
