/** suites/ and tests/run.go: the tests, the suites and the run over all of them. */
module TestRun {
  import opened Wrappers
  import opened Annotations
  import P = Polling

  const HOSTNAME := "external-dns.alpha.kubernetes.io/hostname"
  const INTERNAL_LB := "service.beta.kubernetes.io/azure-load-balancer-internal"
  const INTERNAL_HOSTNAME := "external-dns.alpha.kubernetes.io/internal-hostname"

  // What a test or its run function comes to. Panicked is the end of the process: a nil service or
  // cluster name, an empty ingress list, or a fatal log.
  datatype Outcome = Passed | Failed | Panicked

  datatype Test = PublicA | PublicAaaa | PrivateA | PrivateAaaa

  // The part of the fetched service that the tests use.
  datatype ServiceObj = ServiceObj(name: string, ingress: seq<string>)

  // The saved infrastructure, as far as the tests use it.
  datatype Infra = Infra(
    subscriptionId: string, resourceGroup: string,
    ipv4ServiceName: string, ipv6ServiceName: string, zones: seq<string>, privateZones: seq<string>)

  /******* Assembling the suites *******/

  const BASIC_SUITE := [PublicA, PublicAaaa]
  const PRIVATE_SUITE := [PrivateA, PrivateAaaa]

  function Flatten(suites: seq<seq<Test>>): seq<Test> {
    if suites == [] then [] else suites[0] + Flatten(suites[1..])
  }

  function Blanks(n: nat): seq<seq<Test>> { seq(n, _ => []) }

  // The list starts as long as the list of suites, and the suites are appended after that.
  method Assemble(allSuites: seq<seq<Test>>) returns (final: seq<seq<Test>>)
    ensures final == Blanks(|allSuites|) + allSuites
  {
    final := Blanks(|allSuites|);
    for i := 0 to |allSuites|
      invariant final == Blanks(|allSuites|) + allSuites[..i]
    {
      var suite := allSuites[i];
      var ret := new Test[|suite|];
      for j := 0 to |suite|
        invariant ret[..j] == suite[..j]
      {
        ret[j] := suite[j];
      }
      assert ret[..] == suite;
      final := final + [ret[..]];
    }
  }

  // Suites without tests add nothing to the run.
  lemma {:induction false} FlattenBlanks(n: nat, suites: seq<seq<Test>>)
    ensures Flatten(Blanks(n) + suites) == Flatten(suites)
  {
    if n == 0 {
      assert Blanks(0) + suites == suites;
    } else {
      assert (Blanks(n) + suites)[1..] == Blanks(n - 1) + suites;
      FlattenBlanks(n - 1, suites);
    }
  }

  /** `All` returns four suites of which the first two are empty; run one after the other they are
    * the four tests, each once, in the order of the suites. */
  method All() returns (final: seq<seq<Test>>)
    ensures |final| == 4 && final[0] == [] && final[1] == [] && final[2] == BASIC_SUITE && final[3] == PRIVATE_SUITE
    ensures Flatten(final) == [PublicA, PublicAaaa, PrivateA, PrivateAaaa]
  {
    final := Assemble([BASIC_SUITE, PRIVATE_SUITE]);
    FlattenBlanks(2, [BASIC_SUITE, PRIVATE_SUITE]);
    assert [BASIC_SUITE, PRIVATE_SUITE][1..] == [PRIVATE_SUITE] && [PRIVATE_SUITE][1..] == [];
    assert Flatten([PRIVATE_SUITE]) == PRIVATE_SUITE + [] == PRIVATE_SUITE;
  }

  /******* The run *******/

  class Runner {
    const infra: Infra
    const cluster: Cluster
    // The globals that the setup fills.
    var clusterName: Option<string>
    var ipv4Service: Option<ServiceObj>
    var ipv6Service: Option<ServiceObj>
    var publicZone: string
    var privateZone: string
    var resourceGroup: string
    var subId: string
    // Whether every ClearAnnotations call so far returned nil, and the annotations of the services
    // before and after each test.
    ghost var cleanups: bool
    ghost var history: seq<map<string, Marks>>
    // The tests run so far, in order.
    var ran: seq<Test>
    // The last-applied entries that the services start with.
    ghost const original: Marks
    // What each test in turn will see of ExternalDNS, of the clock and of the records.
    const worlds: nat -> P.World

    constructor (infra: Infra, cluster: Cluster, ghost original: Marks, worlds: nat -> P.World)
      ensures this.infra == infra && this.cluster == cluster && this.original == original && this.worlds == worlds
      ensures clusterName == None && ipv4Service == None && ipv6Service == None
      ensures cleanups && history == [] && ran == []
    {
      this.infra, this.cluster, this.original, this.worlds := infra, cluster, original, worlds;
      clusterName, ipv4Service, ipv6Service := None, None, None;
      publicZone, privateZone, resourceGroup, subId := "", "", "", "";
      cleanups, history, ran := true, [], [];
    }

    // The service carries its last-applied entry and nothing else.
    ghost predicate IsClean(services: map<string, Marks>, service: string) {
      service in services && service in original && services[service] == map[LAST_APPLIED := original[service]]
    }

    ghost predicate BothClean(services: map<string, Marks>) {
      IsClean(services, infra.ipv4ServiceName) && IsClean(services, infra.ipv6ServiceName)
    }

    // The names that the tests clear are those that they annotate.
    ghost predicate NamesOk()
      reads this`ipv4Service, this`ipv6Service
    {
      && (ipv4Service.Some? ==> ipv4Service.value.name == infra.ipv4ServiceName)
      && (ipv6Service.Some? ==> ipv6Service.value.name == infra.ipv6ServiceName)
    }

    ghost predicate Known()
      reads cluster
    {
      infra.ipv4ServiceName in cluster.services && infra.ipv6ServiceName in cluster.services
    }

    // Every test so far started and ended with clean services.
    ghost predicate HistoryClean()
      reads this`history
    {
      forall i :: 0 <= i < |history| ==> BothClean(history[i])
    }

    // The service with its original entry and possibly others.
    ghost predicate Marked(services: map<string, Marks>, service: string) {
      && service in services && service in original
      && LAST_APPLIED in services[service] && services[service][LAST_APPLIED] == original[service]
    }

    /******* Setup *******/

    // `kubectl get service`: the object that comes back has the name that was asked for.
    method GetServiceObj(name: string) returns (obj: Option<ServiceObj>)
      ensures obj.Some? ==> obj.value.name == name
    {
      var ok: bool := *;
      var ingress: seq<string> := *;
      obj := if ok then Some(ServiceObj(name, ingress)) else None;
    }

    // Stops at the first failure, with the globals set so far.
    method SetObjectsForTesting() returns (ok: bool)
      requires clusterName.None? && ipv4Service.None? && ipv6Service.None?
      modifies this`clusterName, this`ipv4Service, this`ipv6Service
      modifies this`publicZone, this`privateZone, this`resourceGroup, this`subId
      ensures NamesOk()
      ensures ok <==> clusterName.Some? && ipv4Service.Some? && ipv6Service.Some?
      ensures (ipv6Service.Some? ==> ipv4Service.Some?) && (ipv4Service.Some? ==> clusterName.Some?)
      ensures ok ==> resourceGroup == infra.resourceGroup && subId == infra.subscriptionId
      ensures !ok ==> resourceGroup == old(resourceGroup) && subId == old(subId)
      ensures !ok ==> publicZone == old(publicZone) && privateZone == old(privateZone)
      ensures ok && infra.zones != [] ==> publicZone == infra.zones[|infra.zones| - 1]
      ensures ok && infra.privateZones != [] ==> privateZone == infra.privateZones[|infra.privateZones| - 1]
    {
      var found: bool := *;
      var name: string := *;
      if !found {
        return false;
      }
      clusterName := Some(name);
      var v4 := GetServiceObj(infra.ipv4ServiceName);
      if v4.None? {
        return false;
      }
      ipv4Service := v4;
      var v6 := GetServiceObj(infra.ipv6ServiceName);
      if v6.None? {
        return false;
      }
      ipv6Service := v6;
      for i := 0 to |infra.zones|
        invariant clusterName.Some? && ipv4Service == v4 && ipv6Service == v6
        invariant i > 0 ==> publicZone == infra.zones[i - 1]
      {
        publicZone := infra.zones[i];
      }
      for i := 0 to |infra.privateZones|
        invariant clusterName.Some? && ipv4Service == v4 && ipv6Service == v6
        invariant i > 0 ==> privateZone == infra.privateZones[i - 1]
        invariant infra.zones != [] ==> publicZone == infra.zones[|infra.zones| - 1]
      {
        privateZone := infra.privateZones[i];
      }
      resourceGroup := infra.resourceGroup;
      subId := infra.subscriptionId;
      ok := true;
    }

    /******* The four tests *******/

    function PublicMarks(): (marks: Marks)
      ensures LAST_APPLIED !in marks
      reads this`publicZone
    {
      map[HOSTNAME := publicZone]
    }

    function PrivateMarks(): (marks: Marks)
      ensures LAST_APPLIED !in marks
      reads this`privateZone
    {
      map[HOSTNAME := privateZone, INTERNAL_LB := "true", INTERNAL_HOSTNAME := "server-clusterip.example.com"]
    }

    // The tests over IPv6 use both services.
    predicate NeedsIpv6(t: Test) { t.PublicAaaa? || t.PrivateAaaa? }

    ghost predicate Clocks() {
      forall k: nat :: P.Ticks(worlds(k).readyNow) && P.Ticks(worlds(k).now)
    }

    // The record that a test waits for has come: it names the zone, and its first address is the
    // first ingress address of the service that the test fetched in setup.
    ghost predicate Checked(t: Test, w: P.World)
      reads this`ipv4Service, this`ipv6Service, this`publicZone, this`privateZone
    {
      var service := if NeedsIpv6(t) then ipv6Service else ipv4Service;
      && service.Some? && service.value.ingress != []
      && var ip := service.value.ingress[0];
      match t
      case PublicA => P.Validated(w, P.PUBLIC_DEPLOYMENT, P.A, publicZone, 150, ip)
      case PublicAaaa => P.Validated(w, P.PUBLIC_DEPLOYMENT, P.AAAA, publicZone, 100, ip)
      case PrivateA => P.Validated(w, P.PRIVATE_DEPLOYMENT, P.A, privateZone, 150, ip)
      case PrivateAaaa => P.Validated(w, P.PRIVATE_DEPLOYMENT, P.AAAA, privateZone, 150, ip)
    }

    // Waiting for the record and deleting it, which leave the services alone. It panics if the
    // service was not fetched or has no ingress address.
    method ValidateAndDelete(t: Test, w: P.World) returns (r: Outcome)
      requires P.Ticks(w.readyNow) && P.Ticks(w.now)
      ensures var service := if NeedsIpv6(t) then ipv6Service else ipv4Service;
              service.None? || service.value.ingress == [] ==> r.Panicked?
      ensures r.Passed? ==> Checked(t, w)
    {
      var service := if NeedsIpv6(t) then ipv6Service else ipv4Service;
      if service.None? || service.value.ingress == [] {
        return Panicked;
      }
      var ip := service.value.ingress[0];
      var v: P.Verdict, polls: nat;
      match t {
        case PublicA => v, polls := P.ValidateRecord(w, P.A, publicZone, 150, ip);
        case PublicAaaa => v, polls := P.ValidateRecord(w, P.AAAA, publicZone, 100, ip);
        case PrivateA => v, polls := P.ValidatePrivateRecords(w, P.A, privateZone, 150, ip);
        case PrivateAaaa => v, polls := P.ValidatePrivateRecords(w, P.AAAA, privateZone, 150, ip);
      }
      if v.Panicked? || v.Halted? {
        return Panicked;
      }
      if !v.Found? {
        return Failed;
      }
      r := *;
    }

    // Annotates one of the two services. A test that gets this far leaves the original entry alone.
    method Annotate(service: string, marks: Marks) returns (ok: bool)
      requires Known() && service in cluster.services && LAST_APPLIED !in marks
      modifies cluster
      ensures cluster.OnlyTouched(service)
      ensures ok ==> cluster.services == old(cluster.services)[service := old(cluster.services)[service] + marks]
      ensures forall s :: old(Marked(cluster.services, s)) ==> Marked(cluster.services, s)
    {
      ok := cluster.AnnotateService(service, marks);
    }

    // The annotations after a test has set all of its own.
    function Marking(t: Test, services: map<string, Marks>): map<string, Marks>
      requires infra.ipv4ServiceName in services && infra.ipv6ServiceName in services
      reads this`publicZone, this`privateZone
    {
      var v4, v6 := infra.ipv4ServiceName, infra.ipv6ServiceName;
      match t
      case PublicA => services[v4 := services[v4] + PublicMarks()]
      case PublicAaaa =>
        var first := services[v6 := services[v6] + PublicMarks()];
        first[v4 := first[v4] + PublicMarks()]
      case PrivateA => services[v4 := services[v4] + PrivateMarks()]
      case PrivateAaaa => services[v6 := services[v6] + PrivateMarks()]
    }

    /** Which services a test annotates, and with what: the A tests the service over IPv4, the public
      * AAAA test both and the private one the service over IPv6; each for the zone of its kind, and the
      * private tests for an internal load balancer as well. */
    lemma MarkingExact(t: Test, services: map<string, Marks>, service: string)
      requires infra.ipv4ServiceName in services && infra.ipv6ServiceName in services && service in services
      requires infra.ipv4ServiceName != infra.ipv6ServiceName
      ensures Marking(t, services).Keys == services.Keys
      ensures Marking(t, services)[service] == services[service] +
              if (service == infra.ipv4ServiceName && !t.PrivateAaaa?)
                 || (service == infra.ipv6ServiceName && (t.PublicAaaa? || t.PrivateAaaa?)) then
                if t.PublicA? || t.PublicAaaa? then map["external-dns.alpha.kubernetes.io/hostname" := publicZone]
                else map["external-dns.alpha.kubernetes.io/hostname" := privateZone,
                         "service.beta.kubernetes.io/azure-load-balancer-internal" := "true",
                         "external-dns.alpha.kubernetes.io/internal-hostname" := "server-clusterip.example.com"]
              else map[]
    {
    }

    /** What a test that passes has checked: the record is of the type of the service's address, in the
      * zone of the test's kind, and appeared while the deployment for that kind was ready. */
    lemma CheckedExact(t: Test, w: P.World)
      requires Checked(t, w)
      ensures var service := if t.PublicA? || t.PrivateA? then ipv4Service else ipv6Service;
              && service.Some? && service.value.ingress != []
              && P.Validated(w,
                             if t.PublicA? || t.PublicAaaa? then "external-dns" else "external-dns-private",
                             if t.PublicA? || t.PrivateA? then P.A else P.AAAA,
                             if t.PublicA? || t.PublicAaaa? then publicZone else privateZone,
                             if t.PublicAaaa? then 100 else 150,
                             service.value.ingress[0])
    {
    }

    // The first part of a test.
    method AnnotateFor(t: Test) returns (ok: bool)
      requires Known()
      requires Marked(cluster.services, infra.ipv4ServiceName) && Marked(cluster.services, infra.ipv6ServiceName)
      modifies cluster
      ensures Known()
      ensures Marked(cluster.services, infra.ipv4ServiceName) && Marked(cluster.services, infra.ipv6ServiceName)
      ensures !NeedsIpv6(t) ==> cluster.OnlyTouched(infra.ipv4ServiceName)
      ensures ok ==> cluster.services == Marking(t, old(cluster.services))
    {
      hide Marked, PublicMarks, PrivateMarks;
      match t {
        case PublicA =>
          ok := Annotate(infra.ipv4ServiceName, PublicMarks());
        case PrivateA =>
          ok := Annotate(infra.ipv4ServiceName, PrivateMarks());
        case PublicAaaa =>
          ok := Annotate(infra.ipv6ServiceName, PublicMarks());
          if !ok { return; }
          ok := Annotate(infra.ipv4ServiceName, PublicMarks());
        case PrivateAaaa =>
          ok := Annotate(infra.ipv6ServiceName, PrivateMarks());
      }
    }

    /** A test that passes has annotated its services for its zone and seen the record come. Whatever
      * it returns, it leaves the original entries alone. */
    method RunTest(t: Test, w: P.World) returns (r: Outcome)
      requires Known() && NamesOk() && P.Ticks(w.readyNow) && P.Ticks(w.now)
      requires Marked(cluster.services, infra.ipv4ServiceName) && Marked(cluster.services, infra.ipv6ServiceName)
      modifies cluster
      ensures Known()
      ensures Marked(cluster.services, infra.ipv4ServiceName) && Marked(cluster.services, infra.ipv6ServiceName)
      ensures !NeedsIpv6(t) ==> cluster.OnlyTouched(infra.ipv4ServiceName)
      ensures r.Passed? ==> cluster.services == Marking(t, old(cluster.services)) && Checked(t, w)
      ensures clusterName.None? ==> r.Panicked? && cluster.services == old(cluster.services)
    {
      hide Marked, Marking, Checked, P.Ticks;
      if clusterName.None? {
        return Panicked;
      }
      var ok := AnnotateFor(t);
      if !ok {
        return Failed;
      }
      r := ValidateAndDelete(t, w);
    }

    // Clears the service behind one of the globals; its error is ignored.
    method Clear(service: string)
      requires service in cluster.services && Marked(cluster.services, service)
      modifies cluster, this`cleanups
      ensures cluster.OnlyTouched(service)
      ensures forall s :: old(Marked(cluster.services, s)) ==> Marked(cluster.services, s)
      ensures cleanups ==> old(cleanups) && IsClean(cluster.services, service)
    {
      var ok := cluster.ClearAnnotations(service);
      cleanups := cleanups && ok;
    }

    // What the setup must have fetched for a test to come to an end.
    ghost predicate Fetched(t: Test)
      reads this`clusterName, this`ipv4Service, this`ipv6Service
    {
      clusterName.Some? && ipv4Service.Some? && (NeedsIpv6(t) ==> ipv6Service.Some?)
    }

    lemma SetUp(t: Test)
      requires Fetched(t) && NeedsIpv6(t)
      ensures clusterName.Some? && ipv4Service.Some? && ipv6Service.Some?
    {
    }

    // The run function of a test: the test, then the cleanup, the same on both exits.
    method RunFn(t: Test, w: P.World) returns (r: Outcome)
      requires Known() && NamesOk() && P.Ticks(w.readyNow) && P.Ticks(w.now)
      requires (cleanups ==> BothClean(cluster.services))
      requires Marked(cluster.services, infra.ipv4ServiceName) && Marked(cluster.services, infra.ipv6ServiceName)
      modifies cluster, this`cleanups
      ensures Known() && (cleanups ==> old(cleanups))
      ensures Marked(cluster.services, infra.ipv4ServiceName) && Marked(cluster.services, infra.ipv6ServiceName)
      ensures !r.Panicked? ==> Fetched(t)
      ensures r.Passed? ==> Checked(t, w)
      ensures !r.Panicked? && cleanups ==> BothClean(cluster.services)
    {
      hide Marked, Checked, P.Ticks;
      r := RunTest(t, w);
      if r.Panicked? {
        return;
      }
      if ipv4Service.None? {
        return Panicked;
      }
      Clear(ipv4Service.value.name);
      if NeedsIpv6(t) {
        if ipv6Service.None? {
          return Panicked;
        }
        Clear(ipv6Service.value.name);
      }
    }

    /** Ts.Run: every test of a suite in turn. Whatever each test returns, the suite returns nil; it
      * is cut short only by the end of the process. */
    method RunSuite(suite: seq<Test>) returns (alive: bool, failed: bool)
      requires Known() && NamesOk() && Clocks()
      requires (cleanups ==> HistoryClean() && BothClean(cluster.services))
      requires Marked(cluster.services, infra.ipv4ServiceName) && Marked(cluster.services, infra.ipv6ServiceName)
      modifies cluster, this`cleanups, this`history, this`ran
      ensures Known() && (cleanups ==> old(cleanups))
      ensures Marked(cluster.services, infra.ipv4ServiceName) && Marked(cluster.services, infra.ipv6ServiceName)
      ensures alive && cleanups ==> BothClean(cluster.services)
      ensures alive ==> ran == old(ran) + suite && |history| == old(|history|) + 2 * |suite|
      ensures alive ==> forall t :: t in suite ==> Fetched(t)
      ensures cleanups ==> HistoryClean()
      ensures !failed
    {
      hide Marked, IsClean, Fetched, P.Ticks;
      failed := false;
      for i := 0 to |suite|
        invariant Known() && (cleanups ==> old(cleanups) && HistoryClean() && BothClean(cluster.services))
        invariant Marked(cluster.services, infra.ipv4ServiceName) && Marked(cluster.services, infra.ipv6ServiceName)
        invariant ran == old(ran) + suite[..i] && |history| == old(|history|) + 2 * i
        invariant forall j :: 0 <= j < i ==> Fetched(suite[j])
      {
        var w := worlds(|ran|);
        history, ran := history + [cluster.services], ran + [suite[i]];
        var r := RunFn(suite[i], w);
        if r.Panicked? {
          return false, false;
        }
        history := history + [cluster.services];
      }
      alive := true;
    }

    /** The test command: the setup, whose error is ignored, and then every suite. If both services
      * start with nothing but their last-applied entries and every cleanup succeeds, the same holds
      * before and after every test, whatever the tests return. The command reports an error for no
      * outcome of the tests. A failed setup ends the process in one of the tests, so a command that
      * comes to its end has set up everything and run all four tests. */
    method RunAll() returns (alive: bool, failed: bool)
      requires clusterName.None? && ipv4Service.None? && ipv6Service.None? && cleanups && history == [] && ran == []
      requires Known() && Clocks() && BothClean(cluster.services)
      modifies cluster, this
      ensures cleanups ==> HistoryClean()
      ensures alive && cleanups ==> BothClean(cluster.services)
      ensures alive ==> ran == [PublicA, PublicAaaa, PrivateA, PrivateAaaa] && |history| == 8
      ensures alive ==> clusterName.Some? && ipv4Service.Some? && ipv6Service.Some?
      ensures Marked(cluster.services, infra.ipv4ServiceName) && Marked(cluster.services, infra.ipv6ServiceName)
      ensures !failed
    {
      assert Marked(cluster.services, infra.ipv4ServiceName) && Marked(cluster.services, infra.ipv6ServiceName);
      hide Marked, IsClean, P.Ticks, Fetched;
      var _ := SetObjectsForTesting();
      var suites := All();
      alive, failed := true, false;
      for i := 0 to |suites|
        invariant alive && !failed && Known() && NamesOk()
        invariant cleanups ==> HistoryClean() && BothClean(cluster.services)
        invariant ran + Flatten(suites[i..]) == Flatten(suites) && |history| == 2 * |ran|
        invariant Marked(cluster.services, infra.ipv4ServiceName) && Marked(cluster.services, infra.ipv6ServiceName)
        invariant forall j :: 0 <= j < i ==> forall t :: t in suites[j] ==> Fetched(t)
      {
        assert suites[i..][1..] == suites[i + 1..];
        alive, failed := RunSuite(suites[i]);
        if !alive || failed {
          return;
        }
      }
      assert PublicAaaa in suites[2];
      assert Fetched(PublicAaaa);
      SetUp(PublicAaaa);
      assert suites[4..] == [];
    }
  }
}
