/**
 Registration of API services from the paths a server lists, and the health gate that holds until
 every registered service has been seen available once.
 */
module APIServices {
  import opened Options
  import opened Text

  datatype GroupVersion = GroupVersion(group: string, version: string)

  datatype Priority = Priority(group: int, version: int)

  const PRIORITIES: map<GroupVersion, Priority> := map[
    GroupVersion("", "v1") := Priority(18000, 1),
    GroupVersion("events.k8s.io", "v1") := Priority(17750, 15),
    GroupVersion("events.k8s.io", "v1beta1") := Priority(17750, 5),
    GroupVersion("authentication.k8s.io", "v1") := Priority(17700, 15),
    GroupVersion("authorization.k8s.io", "v1") := Priority(17600, 15),
    GroupVersion("certificates.k8s.io", "v1") := Priority(17300, 15),
    GroupVersion("rbac.authorization.k8s.io", "v1") := Priority(17000, 15),
    GroupVersion("apiextensions.k8s.io", "v1") := Priority(16700, 15),
    GroupVersion("admissionregistration.k8s.io", "v1") := Priority(16700, 15),
    GroupVersion("coordination.k8s.io", "v1") := Priority(16500, 15),
    GroupVersion("discovery.k8s.io", "v1") := Priority(16200, 15),
    GroupVersion("discovery.k8s.io", "v1beta1") := Priority(16200, 12),
    GroupVersion("flowcontrol.apiserver.k8s.io", "v1beta2") := Priority(16100, 15),
    GroupVersion("flowcontrol.apiserver.k8s.io", "v1beta1") := Priority(16100, 12),
    GroupVersion("flowcontrol.apiserver.k8s.io", "v1alpha1") := Priority(16100, 9),
    GroupVersion("internal.apiserver.k8s.io", "v1alpha1") := Priority(16000, 9)
  ]

  const CORE := GroupVersion("", "v1")

  datatype APIService = APIService(name: string, gv: GroupVersion, priority: Priority)

  function NameOf(gv: GroupVersion): string {
    gv.version + "." + gv.group
  }

  /** The service of a group version that has a priority; others are not registered. */
  function MakeAPIService(gv: GroupVersion): Option<APIService> {
    if gv in PRIORITIES then Some(APIService(NameOf(gv), gv, PRIORITIES[gv])) else None
  }

  /** The path under which a group version is served. */
  predicate Serves(path: string, gv: GroupVersion) {
    path == "/apis/" + gv.group + "/" + gv.version || (gv == CORE && path == "/api/v1")
  }

  /** A group version is registered when it has a priority and one of its paths is listed. */
  ghost predicate Registered(paths: seq<string>, gv: GroupVersion) {
    gv in PRIORITIES && '/' !in gv.group && '/' !in gv.version && exists i :: 0 <= i < |paths| && Serves(paths[i], gv)
  }

  /** The group version a listed path stands for. */
  function VersionAt(path: string): Option<GroupVersion> {
    if path == "/api/v1" then Some(CORE)
    else if !HasPrefix(path, "/apis/") then None
    else
      var tokens := Split(path, '/');
      if |tokens| != 4 then None else Some(GroupVersion(tokens[2], tokens[3]))
  }

  /** A path with the API prefix splits into two fixed tokens and the split of the rest. */
  lemma SplitApiPath(path: string)
    requires HasPrefix(path, "/apis/")
    ensures Split(path, '/') == ["", "apis"] + Split(path[6..], '/')
  {
    var rest := path[6..];
    assert path == "" + ['/'] + ("apis" + ['/'] + rest);
    SplitFirst("", '/', "apis" + ['/'] + rest);
    SplitFirst("apis", '/', rest);
  }

  /** Two tokens are what the text puts on either side of its only separator. */
  lemma TwoTokensIff(rest: string, group: string, version: string)
    ensures Split(rest, '/') == [group, version] <==> '/' !in group && '/' !in version && rest == group + "/" + version
  {
    if Split(rest, '/') == [group, version] {
      JoinSplit(rest, '/');
      assert [group, version][1..] == [version];
      assert Join([version], '/') == version;
      SplitPiecesClean(rest, '/', 0);
      SplitPiecesClean(rest, '/', 1);
    }
    if '/' !in group && '/' !in version {
      SplitOnce(group, '/', version);
    }
  }

  lemma ApiPrefix(path: string, group: string, version: string)
    requires path == "/apis/" + group + "/" + version
    ensures HasPrefix(path, "/apis/") && path[6..] == group + "/" + version && path != "/api/v1"
  {
    assert path[..6] == "/apis/";
    assert "/api/v1"[4] == '/' && path[4] == "/apis/"[4] == 's';
  }

  /** A path stands for exactly the group version it serves: the core path for core "v1", else "/apis/", group, slash, version. */
  lemma VersionAtIff(path: string, gv: GroupVersion)
    ensures VersionAt(path) == Some(gv) <==> '/' !in gv.group && '/' !in gv.version && Serves(path, gv)
    ensures VersionAt(path) == Some(gv) <==>
            || (path == "/api/v1" && gv.group == "" && gv.version == "v1")
            || (path == "/apis/" + gv.group + "/" + gv.version && '/' !in gv.group && '/' !in gv.version)
  {
    hide Split, HasPrefix;
    if path == "/apis/" + gv.group + "/" + gv.version {
      ApiPrefix(path, gv.group, gv.version);
    }
    if path != "/api/v1" && HasPrefix(path, "/apis/") {
      PrefixRest(path);
      SplitApiPath(path);
      TwoTokensIff(path[6..], gv.group, gv.version);
      TokensAfterTwo(Split(path[6..], '/'), gv);
    }
  }

  lemma PrefixRest(path: string)
    requires HasPrefix(path, "/apis/")
    ensures |path| >= 6 && path == "/apis/" + path[6..]
  {
  }

  lemma TokensAfterTwo(rest: seq<string>, gv: GroupVersion)
    ensures var tokens := ["", "apis"] + rest;
            (|tokens| == 4 && GroupVersion(tokens[2], tokens[3]) == gv) <==> rest == [gv.group, gv.version]
  {
  }

  // --------------------------------------------------------- the services' content

  /** Not a beta or alpha version. */
  predicate Stable(version: string) {
    version == "v1"
  }

  /**
   What the priorities are for: the versions of a group keep together under one group priority, the
   stable version of a group outranks its betas and alphas, and the core group outranks every other.
   */
  lemma PrioritiesOrder(gv: GroupVersion, other: GroupVersion)
    requires gv in PRIORITIES && other in PRIORITIES && gv != other
    ensures gv.group == other.group ==> PRIORITIES[gv].group == PRIORITIES[other].group
    ensures gv.group == other.group && Stable(gv.version) ==> PRIORITIES[gv].version > PRIORITIES[other].version
    ensures gv.group == "" ==> PRIORITIES[gv].group > PRIORITIES[other].group
    ensures PRIORITIES[gv].group >= 16000 && 1 <= PRIORITIES[gv].version <= 15
  {
  }

  /** A service's name is its version, a dot and its group, and the two can be read back from it. */
  lemma NameReadsBack(gv: GroupVersion)
    ensures NameOf(gv) == gv.version + "." + gv.group
    ensures '.' !in gv.version ==>
              var dot := IndexOf(NameOf(gv), '.');
              dot < |NameOf(gv)| && NameOf(gv)[..dot] == gv.version && NameOf(gv)[dot + 1..] == gv.group
    ensures gv in PRIORITIES ==> '.' !in gv.version
  {
    var name := NameOf(gv);
    if '.' !in gv.version {
      assert name[..|gv.version|] == gv.version && name[|gv.version|] == '.';
      IndexOfIs(name, '.', |gv.version|);
    }
  }

  /** A service is what is registered for a group version: its name, and its priorities from the table. */
  predicate IsServiceOf(service: APIService, gv: GroupVersion) {
    && service.gv.group == gv.group && service.gv.version == gv.version && service.name == gv.version + "." + gv.group
    && gv in PRIORITIES && service.priority.group == PRIORITIES[gv].group && service.priority.version == PRIORITIES[gv].version
  }

  lemma MadeService(gv: GroupVersion)
    ensures MakeAPIService(gv).Some? <==> gv in PRIORITIES
    ensures MakeAPIService(gv).Some? ==> IsServiceOf(MakeAPIService(gv).value, gv)
  {
  }

  // ------------------------------------------------------------- registration

  /** Registers what the listed paths stand for, in order; unknown group versions are skipped. */
  method APIServicesToRegister(paths: seq<string>) returns (services: seq<APIService>)
    ensures forall i | 0 <= i < |services| :: Registered(paths, services[i].gv) && IsServiceOf(services[i], services[i].gv)
    ensures forall gv | Registered(paths, gv) :: exists i :: 0 <= i < |services| && services[i].gv == gv
  {
    hide PRIORITIES, VersionAt, MakeAPIService;
    services := [];
    for n := 0 to |paths|
      invariant forall i | 0 <= i < |services| :: Registered(paths, services[i].gv) && IsServiceOf(services[i], services[i].gv)
      invariant forall m, gv | 0 <= m < n && VersionAt(paths[m]) == Some(gv) && gv in PRIORITIES ::
                  exists i :: 0 <= i < |services| && services[i].gv == gv
    {
      ghost var before := services;
      var gv := VersionAt(paths[n]);
      if gv.Some? {
        VersionAtIff(paths[n], gv.value);
        MadeService(gv.value);
        var apiService := MakeAPIService(gv.value);
        if apiService.Some? {
          services := services + [apiService.value];
          assert services[|before|].gv == gv.value;
        }
      }
      assert forall i | 0 <= i < |before| :: services[i] == before[i];
    }
    forall gv | Registered(paths, gv) ensures exists i :: 0 <= i < |services| && services[i].gv == gv {
      var m :| 0 <= m < |paths| && Serves(paths[m], gv);
      VersionAtIff(paths[m], gv);
    }
  }

  // --------------------------------------------------------------- health gate

  /** An add or update event: a service, and whether its Available condition is true. */
  datatype Event = Event(name: string, available: bool)

  function NamesOf(services: seq<APIService>): set<string> {
    set i | 0 <= i < |services| :: services[i].name
  }

  predicate SeenAvailable(trace: seq<Event>, name: string) {
    Event(name, true) in trace
  }

  /** The names still awaited after a trace of events. */
  function Awaited(names: set<string>, trace: seq<Event>): set<string> {
    set name | name in names && !SeenAvailable(trace, name)
  }

  class HealthGate {
    var pending: set<string>

    ghost const names: set<string>
    ghost var history: seq<Event>

    /** The awaited names are those not yet seen available. */
    ghost predicate Valid()
      reads this
    {
      pending == Awaited(names, history)
    }

    constructor (services: seq<APIService>)
      ensures Valid() && names == NamesOf(services) && history == []
    {
      var names := {};
      for i := 0 to |services|
        invariant names == NamesOf(services[..i])
      {
        names := names + {services[i].name};
        assert forall j | 0 <= j < i + 1 :: services[..i + 1][j] == services[j];
        assert forall j | 0 <= j < i :: services[..i][j] == services[j];
        assert NamesOf(services[..i + 1]) == NamesOf(services[..i]) + {services[i].name};
      }
      assert services[..|services|] == services;
      pending, this.names, history := names, names, [];
    }

    method HandleChange(e: Event)
      requires Valid()
      modifies this
      ensures Valid() && history == old(history) + [e]
    {
      assert forall name :: SeenAvailable(history + [e], name) <==> SeenAvailable(history, name) || e == Event(name, true);
      history := history + [e];
      if e.name !in pending {
        return;
      }
      if e.available {
        pending := pending - {e.name};
      }
    }

    /** Healthy once nothing is awaited: exactly when every name was seen available. */
    method Check() returns (healthy: bool)
      requires Valid()
      ensures healthy <==> forall name | name in names :: SeenAvailable(history, name)
    {
      healthy := pending == {};
      assert forall name | name in names :: name in pending <==> !SeenAvailable(history, name);
    }
  }

  /**
   From listed paths and a trace of service events to the verdict: the gate is healthy exactly
   when every registered group version's service has been seen available at least once.
   */
  method RunGate(paths: seq<string>, trace: seq<Event>) returns (healthy: bool)
    ensures healthy <==> forall gv | Registered(paths, gv) :: Event(gv.version + "." + gv.group, true) in trace
  {
    hide PRIORITIES, Serves;
    var services := APIServicesToRegister(paths);
    var gate := new HealthGate(services);
    for i := 0 to |trace|
      invariant gate.Valid() && gate.history == trace[..i]
    {
      assert trace[..i + 1] == trace[..i] + [trace[i]];
      gate.HandleChange(trace[i]);
    }
    assert trace[..|trace|] == trace;
    healthy := gate.Check();
    forall gv | Registered(paths, gv) ensures gv.version + "." + gv.group in NamesOf(services) {
      var i :| 0 <= i < |services| && services[i].gv == gv;
      assert services[i].name == gv.version + "." + gv.group;
    }
    forall name | name in NamesOf(services) ensures exists gv :: Registered(paths, gv) && gv.version + "." + gv.group == name {
      var i :| 0 <= i < |services| && services[i].name == name;
      assert Registered(paths, services[i].gv) && services[i].gv.version + "." + services[i].gv.group == name;
    }
  }

  /** Once healthy, the gate stays healthy, and no event ever makes it await a name again. */
  lemma HealthyStays(names: set<string>, trace: seq<Event>, more: seq<Event>)
    ensures Awaited(names, trace + more) <= Awaited(names, trace)
    ensures Awaited(names, trace) == {} ==> Awaited(names, trace + more) == {}
  {
  }
}
