/** infra/convert.go with the loaders of clients/: saving provisioned infrastructure as resource ids
  * and loading it back.
  */
module Convert {
  import opened Wrappers
  import opened Text
  import opened ResourceId

  datatype Zone = Zone(
    name: string, subscriptionId: string, resourceGroup: string, id: string, nameservers: seq<string>)

  datatype PrivateZone = PrivateZone(name: string, subscriptionId: string, resourceGroup: string, id: string)

  datatype Aks = Aks(
    name: string, subscriptionId: string, resourceGroup: string, id: string,
    dnsServiceIp: string, location: string, principalId: string, clientId: string, options: set<string>)

  datatype Rg = Rg(name: string, id: string)

  datatype Provisioned = Provisioned(
    name: string, cluster: Aks, resourceGroup: Rg, subscriptionId: string, tenantId: string,
    zones: seq<Zone>, privateZones: seq<PrivateZone>, ipv4ServiceName: string, ipv6ServiceName: string)

  // arm.ResourceID for a resource group.
  datatype GroupId = GroupId(subscriptionId: string, name: string)

  datatype LoadableZone = LoadableZone(resourceId: Resource, nameservers: seq<string>)

  datatype LoadableProvisioned = LoadableProvisioned(
    name: string, cluster: Resource,
    clusterLocation: string, clusterDnsServiceIp: string, clusterPrincipalId: string, clusterClientId: string,
    clusterOptions: set<string>, resourceGroup: GroupId, subscriptionId: string, tenantId: string,
    zones: seq<LoadableZone>, privateZones: seq<Resource>, ipv4ServiceName: string, ipv6ServiceName: string)

  // What failed to parse.
  datatype Error = BadCluster | BadGroup | BadZone(i: nat) | BadPrivateZone(i: nat)

  datatype ListError = ListError(name: string, error: Error)

  // The id parsers are library functions. Saving is described for any of them; what loading gives
  // back depends on what they read, and is proved for the ones below.
  datatype Parsers = Parsers(resource: string -> Result<Resource, string>, group: string -> Result<GroupId, string>)

  const CANONICAL := Parsers(Parse, ParseGroup)

  /******* Resource group ids *******/

  function GroupSegments(g: GroupId): seq<string> { ["", "subscriptions", g.subscriptionId, "resourceGroups", g.name] }

  function PrintGroup(g: GroupId): string { Join(GroupSegments(g), '/') }

  function ParseGroup(id: string): Result<GroupId, string> {
    var p := Split(id, '/');
    if |p| == 5 && p[0] == "" && EqualFold(p[1], "subscriptions") && EqualFold(p[3], "resourceGroups")
       && p[2] != "" && p[4] != ""
    then Ok(GroupId(p[2], p[4]))
    else Err(id)
  }

  predicate CanonicalGroup(id: string) {
    var p := Split(id, '/');
    |p| == 5 && p[1] == "subscriptions" && p[3] == "resourceGroups"
  }

  /** What parses as the id of a group, and to what. */
  lemma ParseGroupExact(id: string, g: GroupId)
    ensures ParseGroup(id) == Ok(g) <==>
            && Segment(g.subscriptionId) && Segment(g.name)
            && exists a, b :: SameWord(a, "subscriptions") && SameWord(b, "resourceGroups")
                 && id == Join(["", a, g.subscriptionId, b, g.name], '/')
  {
    var p := Split(id, '/');
    if ParseGroup(id) == Ok(g) {
      SplitFree(id, '/');
      JoinSplit(id, '/');
      Keywords(p[1], p[3], "");
      assert p == ["", p[1], p[2], p[3], p[4]];
    }
    if Segment(g.subscriptionId) && Segment(g.name) {
      forall a, b | SameWord(a, "subscriptions") && SameWord(b, "resourceGroups")
          && id == Join(["", a, g.subscriptionId, b, g.name], '/')
        ensures ParseGroup(id) == Ok(g)
      {
        Keywords(a, b, "");
        WordFree(a, "subscriptions");
        WordFree(b, "resourceGroups");
        var q := ["", a, g.subscriptionId, b, g.name];
        hide SameWord, EqualFold;
        SplitJoin(q, '/');
      }
    }
  }

  lemma GroupRoundTrip(id: string)
    requires ParseGroup(id).Ok?
    ensures var g := ParseGroup(id).value;
            && ParseGroup(PrintGroup(g)) == Ok(g)
            && (PrintGroup(g) == id <==> CanonicalGroup(id))
  {
    var g := ParseGroup(id).value;
    SplitFree(id, '/');
    SplitJoin(GroupSegments(g), '/');
    JoinSplit(id, '/');
    if CanonicalGroup(id) {
      assert Split(id, '/') == GroupSegments(g);
    }
  }

  /******* Loading *******/

  function LoadAks(id: Resource, dnsServiceIp: string, location: string, principalId: string, clientId: string,
                   options: set<string>): Aks {
    Aks(id.resourceName, id.subscriptionId, id.resourceGroup, Print(id),
        dnsServiceIp, location, principalId, clientId, options)
  }

  function LoadZone(id: Resource, nameservers: seq<string>): Zone {
    Zone(id.resourceName, id.subscriptionId, id.resourceGroup, Print(id), nameservers)
  }

  function LoadPrivateZone(id: Resource): PrivateZone {
    PrivateZone(id.resourceName, id.subscriptionId, id.resourceGroup, Print(id))
  }

  function LoadRg(id: GroupId): Rg { Rg(id.name, PrintGroup(id)) }

  // What LoadableProvisioned.Provisioned returns.
  function Loaded(l: LoadableProvisioned): Provisioned {
    Provisioned(
      l.name,
      LoadAks(l.cluster, l.clusterDnsServiceIp, l.clusterLocation,
              l.clusterPrincipalId, l.clusterClientId, l.clusterOptions),
      LoadRg(l.resourceGroup), l.subscriptionId, l.tenantId,
      seq(|l.zones|, i requires 0 <= i < |l.zones| => LoadZone(l.zones[i].resourceId, l.zones[i].nameservers)),
      seq(|l.privateZones|, i requires 0 <= i < |l.privateZones| => LoadPrivateZone(l.privateZones[i])),
      l.ipv4ServiceName, l.ipv6ServiceName)
  }

  /******* Saving *******/

  predicate Parses(ps: Parsers, p: Provisioned) {
    && ps.resource(p.cluster.id).Ok?
    && ps.group(p.resourceGroup.id).Ok?
    && (forall i :: 0 <= i < |p.zones| ==> ps.resource(p.zones[i].id).Ok?)
    && (forall i :: 0 <= i < |p.privateZones| ==> ps.resource(p.privateZones[i].id).Ok?)
  }

  // What Provisioned.Loadable returns if every id parses.
  function Saved(ps: Parsers, p: Provisioned): LoadableProvisioned
    requires Parses(ps, p)
  {
    LoadableProvisioned(
      p.name, ps.resource(p.cluster.id).value,
      p.cluster.location, p.cluster.dnsServiceIp, p.cluster.principalId, p.cluster.clientId,
      p.cluster.options, ps.group(p.resourceGroup.id).value, p.subscriptionId, p.tenantId,
      seq(|p.zones|, i requires 0 <= i < |p.zones| =>
          LoadableZone(ps.resource(p.zones[i].id).value, p.zones[i].nameservers)),
      seq(|p.privateZones|, i requires 0 <= i < |p.privateZones| => ps.resource(p.privateZones[i].id).value),
      p.ipv4ServiceName, p.ipv6ServiceName)
  }

  // The error is that of the first id which does not parse, in the order cluster, group, zones,
  // private zones.
  predicate FirstError(ps: Parsers, p: Provisioned, e: Error) {
    match e
    case BadCluster => ps.resource(p.cluster.id).Err?
    case BadGroup => ps.resource(p.cluster.id).Ok? && ps.group(p.resourceGroup.id).Err?
    case BadZone(i) =>
      && ps.resource(p.cluster.id).Ok? && ps.group(p.resourceGroup.id).Ok?
      && i < |p.zones| && ps.resource(p.zones[i].id).Err?
      && (forall j :: 0 <= j < i ==> ps.resource(p.zones[j].id).Ok?)
    case BadPrivateZone(i) =>
      && ps.resource(p.cluster.id).Ok? && ps.group(p.resourceGroup.id).Ok?
      && (forall j :: 0 <= j < |p.zones| ==> ps.resource(p.zones[j].id).Ok?)
      && i < |p.privateZones| && ps.resource(p.privateZones[i].id).Err?
      && (forall j :: 0 <= j < i ==> ps.resource(p.privateZones[j].id).Ok?)
  }

  method SaveZones(ps: Parsers, zones: seq<Zone>) returns (saved: Option<seq<LoadableZone>>, bad: nat)
    ensures saved.Some? <==> forall i :: 0 <= i < |zones| ==> ps.resource(zones[i].id).Ok?
    ensures saved.Some? ==>
              && |saved.value| == |zones|
              && forall i :: 0 <= i < |zones| ==>
                   ps.resource(zones[i].id).Ok?
                   && saved.value[i] == LoadableZone(ps.resource(zones[i].id).value, zones[i].nameservers)
    ensures saved.None? ==>
              && bad < |zones| && ps.resource(zones[bad].id).Err?
              && forall j :: 0 <= j < bad ==> ps.resource(zones[j].id).Ok?
  {
    var ret := new LoadableZone[|zones|];
    bad := 0;
    for i := 0 to |zones|
      invariant forall j :: 0 <= j < i ==>
                  ps.resource(zones[j].id).Ok?
                  && ret[j] == LoadableZone(ps.resource(zones[j].id).value, zones[j].nameservers)
    {
      var z := ps.resource(zones[i].id);
      if z.Err? {
        return None, i;
      }
      ret[i] := LoadableZone(z.value, zones[i].nameservers);
    }
    saved := Some(ret[..]);
  }

  method SavePrivateZones(ps: Parsers, zones: seq<PrivateZone>) returns (saved: Option<seq<Resource>>, bad: nat)
    ensures saved.Some? <==> forall i :: 0 <= i < |zones| ==> ps.resource(zones[i].id).Ok?
    ensures saved.Some? ==>
              && |saved.value| == |zones|
              && forall i :: 0 <= i < |zones| ==>
                   ps.resource(zones[i].id).Ok? && saved.value[i] == ps.resource(zones[i].id).value
    ensures saved.None? ==>
              && bad < |zones| && ps.resource(zones[bad].id).Err?
              && forall j :: 0 <= j < bad ==> ps.resource(zones[j].id).Ok?
  {
    var ret := new Resource[|zones|];
    bad := 0;
    for i := 0 to |zones|
      invariant forall j :: 0 <= j < i ==> ps.resource(zones[j].id).Ok? && ret[j] == ps.resource(zones[j].id).value
    {
      var z := ps.resource(zones[i].id);
      if z.Err? {
        return None, i;
      }
      ret[i] := z.value;
    }
    saved := Some(ret[..]);
  }

  /** Saving succeeds exactly when every id parses; otherwise the error is the first one. */
  method Loadable(ps: Parsers, p: Provisioned) returns (r: Result<LoadableProvisioned, Error>)
    ensures r.Ok? <==> Parses(ps, p)
    ensures r.Ok? ==> r.value == Saved(ps, p)
    ensures r.Err? ==> FirstError(ps, p, r.error)
    ensures r == Err(BadCluster) <==> ps.resource(p.cluster.id).Err?
    ensures r == Err(BadGroup) <==> ps.resource(p.cluster.id).Ok? && ps.group(p.resourceGroup.id).Err?
    ensures r.Err? && r.error.BadZone? ==>
              && ps.group(p.resourceGroup.id).Ok? && r.error.i < |p.zones| && ps.resource(p.zones[r.error.i].id).Err?
              && forall j :: 0 <= j < r.error.i ==> ps.resource(p.zones[j].id).Ok?
    ensures r.Err? && r.error.BadPrivateZone? ==>
              && (forall j :: 0 <= j < |p.zones| ==> ps.resource(p.zones[j].id).Ok?)
              && r.error.i < |p.privateZones| && ps.resource(p.privateZones[r.error.i].id).Err?
              && forall j :: 0 <= j < r.error.i ==> ps.resource(p.privateZones[j].id).Ok?
  {
    var cluster := ps.resource(p.cluster.id);
    if cluster.Err? {
      return Err(BadCluster);
    }
    var group := ps.group(p.resourceGroup.id);
    if group.Err? {
      return Err(BadGroup);
    }
    var zones, badZone := SaveZones(ps, p.zones);
    if zones.None? {
      return Err(BadZone(badZone));
    }
    var privateZones, badPrivateZone := SavePrivateZones(ps, p.privateZones);
    if privateZones.None? {
      return Err(BadPrivateZone(badPrivateZone));
    }
    assert zones.value == Saved(ps, p).zones && privateZones.value == Saved(ps, p).privateZones;
    r := Ok(LoadableProvisioned(
              p.name, cluster.value,
              p.cluster.location, p.cluster.dnsServiceIp, p.cluster.principalId, p.cluster.clientId,
              p.cluster.options, group.value, p.subscriptionId, p.tenantId,
              zones.value, privateZones.value, p.ipv4ServiceName, p.ipv6ServiceName));
  }

  /** The list is saved element by element, or not at all: the error then names the first element
    * with an id that does not parse. */
  method ToLoadable(ps: Parsers, p: seq<Provisioned>) returns (r: Result<seq<LoadableProvisioned>, ListError>)
    ensures r.Ok? <==> forall i :: 0 <= i < |p| ==> Parses(ps, p[i])
    ensures r.Ok? ==> |r.value| == |p| && forall i :: 0 <= i < |p| ==> Parses(ps, p[i]) && r.value[i] == Saved(ps, p[i])
    ensures r.Err? ==>
              exists k :: 0 <= k < |p| && !Parses(ps, p[k]) && (forall j :: 0 <= j < k ==> Parses(ps, p[j]))
                && r.error.name == p[k].name && FirstError(ps, p[k], r.error.error)
  {
    var ret := new LoadableProvisioned[|p|];
    for i := 0 to |p|
      invariant forall j :: 0 <= j < i ==> Parses(ps, p[j]) && ret[j] == Saved(ps, p[j])
    {
      var loadable := Loadable(ps, p[i]);
      if loadable.Err? {
        return Err(ListError(p[i].name, loadable.error));
      }
      ret[i] := loadable.value;
    }
    r := Ok(ret[..]);
  }

  /** Loading always succeeds and keeps the order. */
  method ToProvisioned(l: seq<LoadableProvisioned>) returns (r: seq<Provisioned>)
    ensures |r| == |l| && forall i :: 0 <= i < |l| ==> r[i] == Loaded(l[i])
  {
    var ret := new Provisioned[|l|];
    for i := 0 to |l|
      invariant forall j :: 0 <= j < i ==> ret[j] == Loaded(l[j])
    {
      ret[i] := FromLoadable(l[i]);
    }
    r := ret[..];
  }

  method FromLoadable(l: LoadableProvisioned) returns (p: Provisioned)
    ensures p == Loaded(l)
  {
    var zs := new Zone[|l.zones|];
    for i := 0 to |l.zones|
      invariant forall j :: 0 <= j < i ==> zs[j] == LoadZone(l.zones[j].resourceId, l.zones[j].nameservers)
    {
      zs[i] := LoadZone(l.zones[i].resourceId, l.zones[i].nameservers);
    }
    var pzs := new PrivateZone[|l.privateZones|];
    for i := 0 to |l.privateZones|
      invariant forall j :: 0 <= j < i ==> pzs[j] == LoadPrivateZone(l.privateZones[j])
      invariant zs[..] == Loaded(l).zones
    {
      pzs[i] := LoadPrivateZone(l.privateZones[i]);
    }
    assert pzs[..] == Loaded(l).privateZones;
    p := Provisioned(
      l.name,
      LoadAks(l.cluster, l.clusterDnsServiceIp, l.clusterLocation,
              l.clusterPrincipalId, l.clusterClientId, l.clusterOptions),
      LoadRg(l.resourceGroup), l.subscriptionId, l.tenantId, zs[..], pzs[..], l.ipv4ServiceName, l.ipv6ServiceName);
  }

  /******* Round trips *******/

  // The record repeats what its id says, and the id is spelled the canonical way.
  predicate Faithful(name: string, subscriptionId: string, resourceGroup: string, id: string) {
    && Parse(id).Ok? && Canonical(id)
    && var r := Parse(id).value;
    r.resourceName == name && r.subscriptionId == subscriptionId && r.resourceGroup == resourceGroup
  }

  predicate AllFaithful(p: Provisioned) {
    && Faithful(p.cluster.name, p.cluster.subscriptionId, p.cluster.resourceGroup, p.cluster.id)
    && ParseGroup(p.resourceGroup.id).Ok? && CanonicalGroup(p.resourceGroup.id)
    && ParseGroup(p.resourceGroup.id).value.name == p.resourceGroup.name
    && (forall i :: 0 <= i < |p.zones| ==>
          Faithful(p.zones[i].name, p.zones[i].subscriptionId, p.zones[i].resourceGroup, p.zones[i].id))
    && (forall i :: 0 <= i < |p.privateZones| ==>
          Faithful(p.privateZones[i].name, p.privateZones[i].subscriptionId,
                   p.privateZones[i].resourceGroup, p.privateZones[i].id))
  }

  /** Saving and loading gives everything back exactly when every record repeats what its canonical
    * id says. */
  lemma SaveLoadExact(p: Provisioned)
    requires Parses(CANONICAL, p)
    ensures Loaded(Saved(CANONICAL, p)) == p <==> AllFaithful(p)
  {
    var q := Loaded(Saved(CANONICAL, p));
    PrintParse(p.cluster.id);
    GroupRoundTrip(p.resourceGroup.id);
    assert q.cluster == p.cluster <==>
           Faithful(p.cluster.name, p.cluster.subscriptionId, p.cluster.resourceGroup, p.cluster.id);
    forall i | 0 <= i < |p.zones|
      ensures q.zones[i] == p.zones[i] <==>
              Faithful(p.zones[i].name, p.zones[i].subscriptionId, p.zones[i].resourceGroup, p.zones[i].id)
    {
      PrintParse(p.zones[i].id);
    }
    forall i | 0 <= i < |p.privateZones|
      ensures q.privateZones[i] == p.privateZones[i] <==>
              Faithful(p.privateZones[i].name, p.privateZones[i].subscriptionId,
                       p.privateZones[i].resourceGroup, p.privateZones[i].id)
    {
      PrintParse(p.privateZones[i].id);
    }
    assert q.zones == p.zones <==> forall i :: 0 <= i < |p.zones| ==> q.zones[i] == p.zones[i];
    assert q.privateZones == p.privateZones <==>
           forall i :: 0 <= i < |p.privateZones| ==> q.privateZones[i] == p.privateZones[i];
  }

  /** What is saved stands under its own name: the parsed ids, the cluster's answers and the
    * nameservers, each zone in its place. */
  lemma SavedExact(ps: Parsers, p: Provisioned)
    requires Parses(ps, p)
    ensures var l := Saved(ps, p);
            && ps.resource(p.cluster.id) == Ok(l.cluster) && ps.group(p.resourceGroup.id) == Ok(l.resourceGroup)
            && l.clusterLocation == p.cluster.location && l.clusterDnsServiceIp == p.cluster.dnsServiceIp
            && l.clusterPrincipalId == p.cluster.principalId && l.clusterClientId == p.cluster.clientId
            && l.clusterOptions == p.cluster.options && l.name == p.name
            && l.subscriptionId == p.subscriptionId && l.tenantId == p.tenantId
            && l.ipv4ServiceName == p.ipv4ServiceName && l.ipv6ServiceName == p.ipv6ServiceName
            && |l.zones| == |p.zones| && |l.privateZones| == |p.privateZones|
            && (forall i :: 0 <= i < |p.zones| ==>
                  ps.resource(p.zones[i].id) == Ok(l.zones[i].resourceId)
                  && l.zones[i].nameservers == p.zones[i].nameservers)
            && (forall i :: 0 <= i < |p.privateZones| ==> ps.resource(p.privateZones[i].id) == Ok(l.privateZones[i]))
  {
  }

  /** Whatever the spelling of the ids, what is not derived from an id comes back: the cluster's
    * answers, the nameservers, the lengths and the order. */
  lemma SaveLoadKeeps(ps: Parsers, p: Provisioned)
    requires Parses(ps, p)
    ensures var q := Loaded(Saved(ps, p));
            && q.name == p.name && q.subscriptionId == p.subscriptionId && q.tenantId == p.tenantId
            && q.ipv4ServiceName == p.ipv4ServiceName && q.ipv6ServiceName == p.ipv6ServiceName
            && q.cluster.dnsServiceIp == p.cluster.dnsServiceIp && q.cluster.location == p.cluster.location
            && q.cluster.principalId == p.cluster.principalId && q.cluster.clientId == p.cluster.clientId
            && q.cluster.options == p.cluster.options
            && |q.zones| == |p.zones| && |q.privateZones| == |p.privateZones|
            && (forall i :: 0 <= i < |p.zones| ==> q.zones[i].nameservers == p.zones[i].nameservers)
  {
  }

  /** A loaded value is a fixed point: it saves without error to what it was loaded from. */
  lemma LoadSaveStable(p: Provisioned)
    requires Parses(CANONICAL, p)
    ensures var q := Loaded(Saved(CANONICAL, p));
            Parses(CANONICAL, q) && AllFaithful(q)
            && Saved(CANONICAL, q) == Saved(CANONICAL, p) && Loaded(Saved(CANONICAL, q)) == q
  {
    var q := Loaded(Saved(CANONICAL, p));
    IdStable(p.cluster.id);
    GroupRoundTrip(p.resourceGroup.id);
    forall i | 0 <= i < |p.zones|
      ensures Parse(q.zones[i].id) == Parse(p.zones[i].id)
    {
      IdStable(p.zones[i].id);
    }
    forall i | 0 <= i < |p.privateZones|
      ensures Parse(q.privateZones[i].id) == Parse(p.privateZones[i].id)
    {
      IdStable(p.privateZones[i].id);
    }
    assert Parses(CANONICAL, q);
    assert Saved(CANONICAL, q).zones == Saved(CANONICAL, p).zones;
    assert Saved(CANONICAL, q).privateZones == Saved(CANONICAL, p).privateZones;
    assert Saved(CANONICAL, q) == Saved(CANONICAL, p);
    SaveLoadExact(q);
  }

  lemma IdStable(id: string)
    requires Parse(id).Ok?
    ensures Parse(Print(Parse(id).value)) == Parse(id)
  {
    ParseWellFormed(id);
    ParsePrint(Parse(id).value);
  }
}
