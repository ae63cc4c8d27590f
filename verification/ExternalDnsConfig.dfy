/** pkgResources/pkgManifests/external_dns_config.go: the configurations that `infra.Provision` deploys,
  * whose zone paths are parsed again by the deployment builder and by the zone classifier.
  */
module ExternalDnsConfig {
  import opened Wrappers
  import opened Text
  import opened ResourceId
  import M = Manifests
  import Z = ZoneConfig
  import Polling

  function ZonePath(subId: string, rg: string, zoneType: string, zone: string): string {
    "/subscriptions/" + (subId + ("/resourceGroups/" + (rg +
        ("/providers/Microsoft.Network/" + (zoneType + ("/" + zone))))))
  }

  function GetPublicDnsConfig(tenantId: string, subId: string, rg: string, publicZone: string): M.DnsConfig {
    M.DnsConfig(tenantId, subId, rg, M.PublicProvider, [ZonePath(subId, rg, "dnszones", publicZone)])
  }

  function GetPrivateDnsConfig(tenantId: string, subId: string, rg: string, privateZone: string): M.DnsConfig {
    M.DnsConfig(tenantId, subId, rg, M.PrivateProvider, [ZonePath(subId, rg, "privatednszones", privateZone)])
  }

  function ExampleConfig(clientId: string, clusterUid: string): M.Config {
    M.Config("kube-system", clientId, "", "", clusterUid, "3m0s")
  }

  lemma Slashes(subId: string, rest: string)
    ensures "/subscriptions/" + rest == "" + ['/'] + ("subscriptions" + ['/'] + rest)
    ensures subId + ("/resourceGroups/" + rest) == subId + ['/'] + ("resourceGroups" + ['/'] + rest)
  {
    Slashed("subscriptions", "", rest);
    assert "/subscriptions/" == ['/'] + "subscriptions" + ['/'];
    Slashed("resourceGroups", subId, rest);
    assert "/resourceGroups/" == ['/'] + "resourceGroups" + ['/'];
  }

  lemma Slashed(word: string, before: string, after: string)
    ensures before + ((['/'] + word + ['/']) + after) == before + ['/'] + (word + ['/'] + after)
  {
    assert (['/'] + word + ['/']) + after == ['/'] + (word + ['/'] + after);
  }

  lemma ProviderSlashes(rg: string, rest: string)
    ensures rg + ("/providers/Microsoft.Network/" + rest) ==
            rg + ['/'] + ("providers" + ['/'] + ("Microsoft.Network" + ['/'] + rest))
  {
    var end := "Microsoft.Network" + ['/'] + rest;
    Slashed("providers", rg, end);
    Regrouped(['/'] + "providers" + ['/'], "Microsoft.Network" + ['/'], rest);
    assert "/providers/Microsoft.Network/" == (['/'] + "providers" + ['/']) + ("Microsoft.Network" + ['/']);
  }

  lemma Regrouped(a: string, b: string, c: string)
    ensures (a + b) + c == a + (b + c)
  {
  }

  lemma JoinAt(parts: seq<string>, k: nat)
    requires k + 1 < |parts|
    ensures Join(parts[k..], '/') == parts[k] + ['/'] + Join(parts[k + 1..], '/')
  {
    assert parts[k..][1..] == parts[k + 1..];
  }

  lemma ZonePrinted(s: seq<string>, zoneType: string, zone: string)
    requires |s| == 9 && s[7] == zoneType && s[8] == zone
    ensures Join(s[7..], '/') == zoneType + ("/" + zone)
  {
    JoinAt(s, 7);
    assert s[8..] == [zone];
  }

  lemma ProviderPrinted(s: seq<string>, rg: string, zoneType: string, zone: string)
    requires |s| == 9 && s[4..] == [rg, "providers", "Microsoft.Network", zoneType, zone]
    ensures Join(s[4..], '/') == rg + ("/providers/Microsoft.Network/" + (zoneType + ("/" + zone)))
  {
    var end := s[4..];
    assert s[4] == end[0] && s[5] == end[1] && s[6] == end[2] && s[7] == end[3] && s[8] == end[4];
    ZonePrinted(s, zoneType, zone);
    hide Join;
    JoinAt(s, 4);
    JoinAt(s, 5);
    JoinAt(s, 6);
    ProviderSlashes(rg, zoneType + ("/" + zone));
  }

  lemma PathPrinted(subId: string, rg: string, zoneType: string, zone: string)
    ensures ZonePath(subId, rg, zoneType, zone) == Print(Resource(subId, rg, "Microsoft.Network", zoneType, zone))
  {
    var s := Segments(Resource(subId, rg, "Microsoft.Network", zoneType, zone));
    var middle := rg + ("/providers/Microsoft.Network/" + (zoneType + ("/" + zone)));
    hide Join;
    ProviderPrinted(s, rg, zoneType, zone);
    JoinAt(s, 3);
    JoinAt(s, 2);
    JoinAt(s, 1);
    JoinAt(s, 0);
    Slashes(subId, middle);
    Slashes(subId, subId + ("/resourceGroups/" + middle));
    assert s[0..] == s;
  }

  predicate ZoneType(t: string) { t == Z.PUBLIC_ZONE_TYPE || t == Z.PRIVATE_ZONE_TYPE }

  lemma PathParsed(subId: string, rg: string, zoneType: string, zone: string)
    requires Segment(subId) && Segment(rg) && Segment(zone) && ZoneType(zoneType)
    ensures Parse(ZonePath(subId, rg, zoneType, zone)) == Ok(Resource(subId, rg, "Microsoft.Network", zoneType, zone))
  {
    PathPrinted(subId, rg, zoneType, zone);
    ParsePrint(Resource(subId, rg, "Microsoft.Network", zoneType, zone));
  }

  /** The path of a configuration comes back from the deployment builder as one filter with the zone's
    * own name, for both kinds of zone. */
  lemma OneFilter(tenantId: string, subId: string, rg: string, zone: string)
    requires Segment(subId) && Segment(rg) && Segment(zone)
    ensures M.DomainFilters(Parse, GetPublicDnsConfig(tenantId, subId, rg, zone).zoneIds) == ["--domain-filter=" + zone]
    ensures M.DomainFilters(Parse, GetPrivateDnsConfig(tenantId, subId, rg, zone).zoneIds) ==
            ["--domain-filter=" + zone]
  {
    PathParsed(subId, rg, "dnszones", zone);
    PathParsed(subId, rg, "privatednszones", zone);
    SingleFilter(ZonePath(subId, rg, "dnszones", zone));
    SingleFilter(ZonePath(subId, rg, "privatednszones", zone));
  }

  /** The path of each configuration is that of a zone of its own kind, in its own subscription and
    * group, and both together make an accepted list with each path in its own class. */
  lemma OwnClass(tenantId: string, subId: string, rg: string, publicZone: string, privateZone: string)
    requires Listable(subId) && Listable(rg) && Listable(publicZone) && Listable(privateZone)
    ensures var public := GetPublicDnsConfig(tenantId, subId, rg, publicZone).zoneIds;
            var private := GetPrivateDnsConfig(tenantId, subId, rg, privateZone).zoneIds;
            Z.Classify(Parse, Split(Join(public + private, ','), ',')) ==
            (Z.Zones(Z.DnsZoneConfig(subId, rg, private), Z.DnsZoneConfig(subId, rg, public)), None)
    ensures GetPublicDnsConfig(tenantId, subId, rg, publicZone).zoneIds ==
            [Print(Resource(subId, rg, "Microsoft.Network", "dnszones", publicZone))]
    ensures GetPrivateDnsConfig(tenantId, subId, rg, privateZone).zoneIds ==
            [Print(Resource(subId, rg, "Microsoft.Network", "privatednszones", privateZone))]
  {
    PathPrinted(subId, rg, "dnszones", publicZone);
    PathPrinted(subId, rg, "privatednszones", privateZone);
    PathsAccepted(subId, rg, [Listed(false, publicZone), Listed(true, privateZone)]);
    hide Z.Classify, Parse, ZonePath, Split, Join, Print;
    TwoPaths(subId, rg, Listed(false, publicZone), Listed(true, privateZone));
  }

  lemma TwoPaths(subId: string, rg: string, a: Listed, b: Listed)
    requires !a.isPrivate && b.isPrivate
    ensures PathsOf(subId, rg, [a, b]) == [PathOf(subId, rg, a)] + [PathOf(subId, rg, b)]
    ensures KindOf(subId, rg, [a, b], false) == [PathOf(subId, rg, a)]
    ensures KindOf(subId, rg, [a, b], true) == [PathOf(subId, rg, b)]
  {
    hide PathOf;
    assert [a, b][..1] == [a] && [a][..0] == [];
    assert KindOf(subId, rg, [a], false) == [PathOf(subId, rg, a)] && KindOf(subId, rg, [a], true) == [];
  }

  lemma SingleFilter(id: string)
    requires Parse(id).Ok?
    ensures M.DomainFilters(Parse, [id]) == ["--domain-filter=" + Parse(id).value.resourceName]
  {
    assert [id][..0] == [];
    assert M.DomainFilters(Parse, []) == [];
  }

  // A zone to be listed: its kind and its name.
  datatype Listed = Listed(isPrivate: bool, name: string)

  function PathOf(subId: string, rg: string, z: Listed): string {
    ZonePath(subId, rg, if z.isPrivate then "privatednszones" else "dnszones", z.name)
  }

  function PathsOf(subId: string, rg: string, zs: seq<Listed>): seq<string> {
    seq(|zs|, i requires 0 <= i < |zs| => PathOf(subId, rg, zs[i]))
  }

  // The paths of one kind, in order.
  function KindOf(subId: string, rg: string, zs: seq<Listed>, isPrivate: bool): seq<string> {
    if zs == [] then []
    else
      var before := KindOf(subId, rg, zs[..|zs| - 1], isPrivate);
      if zs[|zs| - 1].isPrivate == isPrivate then before + [PathOf(subId, rg, zs[|zs| - 1])] else before
  }

  predicate Listable(s: string) { Segment(s) && Free(s, ',') }

  lemma PathClass(subId: string, rg: string, z: Listed)
    requires Listable(subId) && Listable(rg) && Listable(z.name)
    ensures Free(PathOf(subId, rg, z), ',')
    ensures Parse(PathOf(subId, rg, z)).Ok?
    ensures Parse(PathOf(subId, rg, z)).value.subscriptionId == subId
    ensures Parse(PathOf(subId, rg, z)).value.resourceGroup == rg
    ensures Z.IsPrivate(Parse, PathOf(subId, rg, z)) <==> z.isPrivate
    ensures Z.IsPublic(Parse, PathOf(subId, rg, z)) <==> !z.isPrivate
  {
    var zoneType := if z.isPrivate then Z.PRIVATE_ZONE_TYPE else Z.PUBLIC_ZONE_TYPE;
    Types(zoneType, zoneType);
    PathZone(subId, rg, zoneType, z.name, Z.PRIVATE_ZONE_TYPE);
    PathZone(subId, rg, zoneType, z.name, Z.PUBLIC_ZONE_TYPE);
    PathFree(subId, rg, zoneType, z.name);
  }

  lemma PathFree(subId: string, rg: string, zoneType: string, zone: string)
    requires Listable(subId) && Listable(rg) && Listable(zone) && ZoneType(zoneType)
    ensures Free(ZonePath(subId, rg, zoneType, zone), ',')
  {
    assert Free("/subscriptions/", ',') && Free("/resourceGroups/", ',');
    assert Free("/providers/Microsoft.Network/", ',') && Free("/", ',') && Free(zoneType, ',');
    FreeConcat("/", zone);
    FreeConcat(zoneType, "/" + zone);
    var end := zoneType + ("/" + zone);
    FreeConcat("/providers/Microsoft.Network/", end);
    FreeConcat(rg, "/providers/Microsoft.Network/" + end);
    var middle := rg + ("/providers/Microsoft.Network/" + end);
    FreeConcat("/resourceGroups/", middle);
    FreeConcat(subId, "/resourceGroups/" + middle);
    hide Free;
    FreeConcat("/subscriptions/", subId + ("/resourceGroups/" + middle));
  }

  lemma FreeConcat(a: string, b: string)
    requires Free(a, ',') && Free(b, ',')
    ensures Free(a + b, ',')
  {
  }

  lemma PathZone(subId: string, rg: string, zoneType: string, zone: string, t: string)
    requires Segment(subId) && Segment(rg) && Segment(zone) && ZoneType(zoneType) && ZoneType(t)
    ensures var path := ZonePath(subId, rg, zoneType, zone);
            && Parse(path).Ok? && Parse(path).value.subscriptionId == subId && Parse(path).value.resourceGroup == rg
            && (Z.IsZone(Parse, path, t) <==> zoneType == t)
  {
    hide ZonePath, Parse, Z.CapitalsOf, SameWord;
    PathParsed(subId, rg, zoneType, zone);
    Types(zoneType, t);
  }

  lemma Types(zoneType: string, t: string)
    requires ZoneType(zoneType) && ZoneType(t)
    ensures Z.CapitalsOf(zoneType, t) <==> zoneType == t
    ensures SameWord("Microsoft.Network", "Microsoft.Network")
    ensures Z.PUBLIC_ZONE_TYPE != Z.PRIVATE_ZONE_TYPE
  {
  }

  /** Any comma list of such paths for one subscription and group, in any order and of any length, is
    * accepted, and each path lands in its own class. */
  lemma PathsAccepted(subId: string, rg: string, zs: seq<Listed>)
    requires Listable(subId) && Listable(rg) && |zs| > 0
    requires forall i :: 0 <= i < |zs| ==> Listable(zs[i].name)
    ensures var r := Z.Classify(Parse, Split(Join(PathsOf(subId, rg, zs), ','), ','));
            && r.1.None?
            && r.0.privateZones.zoneIds == KindOf(subId, rg, zs, true)
            && r.0.publicZones.zoneIds == KindOf(subId, rg, zs, false)
            && (r.0.privateZones.zoneIds != [] ==>
                  r.0.privateZones.subscription == subId && r.0.privateZones.resourceGroup == rg)
            && (r.0.publicZones.zoneIds != [] ==>
                  r.0.publicZones.subscription == subId && r.0.publicZones.resourceGroup == rg)
  {
    var paths := PathsOf(subId, rg, zs);
    forall i | 0 <= i < |paths|
      ensures Free(paths[i], ',')
    {
      PathClass(subId, rg, zs[i]);
    }
    SplitJoin(paths, ',');
    ListAcceptable(subId, rg, zs);
    Z.ParseProper();
    Z.ClassifyExact(Parse, paths);
    KindSelected(subId, rg, zs, true);
    KindSelected(subId, rg, zs, false);
    Z.SelectIn(Parse, paths, Z.PRIVATE_ZONE_TYPE);
    Z.SelectIn(Parse, paths, Z.PUBLIC_ZONE_TYPE);
  }

  lemma ListAcceptable(subId: string, rg: string, zs: seq<Listed>)
    requires Listable(subId) && Listable(rg)
    requires forall i :: 0 <= i < |zs| ==> Listable(zs[i].name)
    ensures Z.Acceptable(Parse, PathsOf(subId, rg, zs))
    ensures forall id :: id in PathsOf(subId, rg, zs) ==>
              Parse(id).Ok? && Parse(id).value.subscriptionId == subId && Parse(id).value.resourceGroup == rg
  {
    var paths := PathsOf(subId, rg, zs);
    forall id | id in paths
      ensures Parse(id).Ok? && Parse(id).value.subscriptionId == subId && Parse(id).value.resourceGroup == rg
      ensures Z.IsPrivate(Parse, id) || Z.IsPublic(Parse, id)
    {
      var i :| 0 <= i < |paths| && paths[i] == id;
      PathClass(subId, rg, zs[i]);
    }
  }

  lemma {:induction false} KindSelected(subId: string, rg: string, zs: seq<Listed>, isPrivate: bool)
    requires Listable(subId) && Listable(rg)
    requires forall i :: 0 <= i < |zs| ==> Listable(zs[i].name)
    ensures Z.Select(Parse, PathsOf(subId, rg, zs), if isPrivate then Z.PRIVATE_ZONE_TYPE else Z.PUBLIC_ZONE_TYPE) ==
            KindOf(subId, rg, zs, isPrivate)
  {
    if zs != [] {
      var n := |zs| - 1;
      KindSelected(subId, rg, zs[..n], isPrivate);
      PathClass(subId, rg, zs[n]);
      assert PathsOf(subId, rg, zs)[..n] == PathsOf(subId, rg, zs[..n]);
    }
  }

  // The objects of a configuration carry the name of its provider.
  lemma NamedFor(hash: M.Hash, conf: M.Config, cs: seq<M.DnsConfig>, i: nat, j: nat)
    requires M.IsHash(hash) && conf.ns == "kube-system" && i < |cs| && j < 5 && !cs[i].provider.OtherProvider?
    ensures var objs := M.Resources(Parse, hash, conf, None, cs);
            |objs| == 5 * |cs| && 5 * i + j < |objs| &&
            objs[5 * i + j].name == if cs[i].provider.PublicProvider? then "external-dns" else "external-dns-private"
  {
    M.ObjectAt(Parse, hash, conf, cs, i, j);
    M.ObjectsExact(Parse, hash, conf, [], cs[i]);
    M.Shape(Parse, hash, conf, [], cs[i], 0);
    M.Shape(Parse, hash, conf, [], cs[i], j);
    hide *;
  }

  /** What `deployExternalDNS` deploys: ten objects, five for each provider, in kube-system, no two
    * with the same identity, all references resolved, each under the name of its provider. */
  lemma ExampleDeployed(
    hash: M.Hash, clientId: string, clusterUid: string, tenantId: string, subId: string, rg: string,
    publicZone: string, privateZone: string)
    requires M.IsHash(hash)
    ensures var objs := M.Resources(Parse, hash, ExampleConfig(clientId, clusterUid), None,
                                    [GetPublicDnsConfig(tenantId, subId, rg, publicZone),
                                     GetPrivateDnsConfig(tenantId, subId, rg, privateZone)]);
            && |objs| == 10 && M.DistinctKeys(objs)
            && !M.Has(objs, M.Namespace, "", "kube-system")
            && (forall k :: 0 <= k < 10 ==> objs[k].name == if k < 5 then "external-dns" else "external-dns-private")
            && forall k :: 0 <= k < |objs| ==> M.Resolved(objs, hash, objs[k]) && objs[k].owners == []
  {
    var cs := [GetPublicDnsConfig(tenantId, subId, rg, publicZone),
               GetPrivateDnsConfig(tenantId, subId, rg, privateZone)];
    M.ResourcesClosed(Parse, hash, ExampleConfig(clientId, clusterUid), None, cs);
    assert M.DistinctNames(cs);
    hide M.Resources, M.FromConfig, M.Resolved, M.DistinctKeys, M.Has, ZonePath, M.IsHash;
    forall k | 0 <= k < 10
      ensures M.Resources(Parse, hash, ExampleConfig(clientId, clusterUid), None, cs)[k].name ==
              if k < 5 then "external-dns" else "external-dns-private"
    {
      NamedFor(hash, ExampleConfig(clientId, clusterUid), cs, k / 5, k % 5);
    }
  }

  function Arguments(provider: string, clusterUid: string, zone: string): seq<string> {
    ["--provider=" + provider, "--source=ingress", "--source=service",
     "--interval=" + "3m0s", "--txt-owner-id=" + clusterUid, "--domain-filter=" + zone]
  }

  // The deployment and the config map of one configuration.
  lemma OneDeployment(
    hash: M.Hash, conf: M.Config, cs: seq<M.DnsConfig>, i: nat, zone: string)
    requires M.IsHash(hash) && conf.ns == "kube-system" && conf.interval == "3m0s" && i < |cs|
    requires M.DomainFilters(Parse, cs[i].zoneIds) == ["--domain-filter=" + zone]
    ensures var objs := M.Resources(Parse, hash, conf, None, cs);
            |objs| == 5 * |cs| && 5 * i + 4 < |objs| &&
            var map3, pods := objs[5 * i + 3], objs[5 * i + 4];
            && map3.spec == M.Data(M.AzureJson(cs[i].tenantId, cs[i].subscription, cs[i].resourceGroup,
                                               conf.msiClientId, conf.cloud, conf.location))
            && pods.kind == M.Deployment && pods.ns == "kube-system"
            && pods.name == M.ResourceName(cs[i].provider)
            && pods.spec.Pods? && pods.spec.args == Arguments(M.ProviderArg(cs[i].provider), conf.clusterUid, zone)
  {
    ServedBy(hash, conf, cs[i], zone);
    hide Parse, M.Resources, M.DomainFilters, M.FromConfig, M.IsHash, Arguments;
    M.ObjectAt(Parse, hash, conf, cs, i, 3);
    M.ObjectAt(Parse, hash, conf, cs, i, 4);
  }

  lemma ServedBy(hash: M.Hash, conf: M.Config, c: M.DnsConfig, zone: string)
    requires M.IsHash(hash) && conf.interval == "3m0s"
    requires M.DomainFilters(Parse, c.zoneIds) == ["--domain-filter=" + zone]
    ensures var objs := M.FromConfig(Parse, hash, conf, [], c);
            && objs[3].spec == M.Data(M.AzureJson(c.tenantId, c.subscription, c.resourceGroup,
                                                  conf.msiClientId, conf.cloud, conf.location))
            && objs[4].kind == M.Deployment && objs[4].ns == conf.ns && objs[4].name == M.ResourceName(c.provider)
            && objs[4].spec.Pods? && objs[4].spec.args == Arguments(M.ProviderArg(c.provider), conf.clusterUid, zone)
  {
    hide Parse, M.DomainFilters;
  }

  /** Each of the two deployments watches its own provider and, through the printed path, exactly its
    * own zone, and mounts a configuration for the run's tenant, subscription, group and identity. The
    * one for the public zone is the deployment that the public validator waits for, and the other that
    * of the private one. */
  lemma ExampleArguments(
    hash: M.Hash, clientId: string, clusterUid: string, tenantId: string, subId: string, rg: string,
    publicZone: string, privateZone: string)
    requires M.IsHash(hash) && Segment(subId) && Segment(rg) && Segment(publicZone) && Segment(privateZone)
    ensures var objs := M.Resources(Parse, hash, ExampleConfig(clientId, clusterUid), None,
                                    [GetPublicDnsConfig(tenantId, subId, rg, publicZone),
                                     GetPrivateDnsConfig(tenantId, subId, rg, privateZone)]);
            && |objs| == 10
            && objs[4].spec.Pods? && objs[4].spec.args == Arguments("azure", clusterUid, publicZone)
            && objs[9].spec.Pods? && objs[9].spec.args == Arguments("azure-private-dns", clusterUid, privateZone)
            && objs[3].spec == objs[8].spec == M.Data(M.AzureJson(tenantId, subId, rg, clientId, "", ""))
            && objs[4].kind == objs[9].kind == M.Deployment && objs[4].ns == objs[9].ns == "kube-system"
            && objs[4].name == "external-dns" == Polling.PUBLIC_DEPLOYMENT
            && objs[9].name == "external-dns-private" == Polling.PRIVATE_DEPLOYMENT
  {
    var conf := ExampleConfig(clientId, clusterUid);
    var cs := [GetPublicDnsConfig(tenantId, subId, rg, publicZone),
               GetPrivateDnsConfig(tenantId, subId, rg, privateZone)];
    OneFilter(tenantId, subId, rg, publicZone);
    OneFilter(tenantId, subId, rg, privateZone);
    OneDeployment(hash, conf, cs, 0, publicZone);
    OneDeployment(hash, conf, cs, 1, privateZone);
    hide ZonePath, Parse, M.DomainFilters, M.Resources, Arguments, M.IsHash;
  }
}
