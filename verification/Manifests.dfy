/** pkgResources/pkgManifests: the Kubernetes objects for ExternalDNS. Of each object its identity,
  * its labels and owners, and what it refers to are kept; the fixed parts of the specs are not.
  */
module Manifests {
  import opened Wrappers
  import ZoneConfig

  datatype Provider = PublicProvider | PrivateProvider | OtherProvider

  function ProviderArg(p: Provider): string {
    match p
    case PublicProvider => "azure"
    case PrivateProvider => "azure-private-dns"
    case OtherProvider => ""
  }

  function ResourceName(p: Provider): string {
    match p
    case PublicProvider => "external-dns"
    case PrivateProvider => "external-dns-private"
    case OtherProvider => ""
  }

  type Labels = map<string, string>

  const MANAGED_BY := "app.kubernetes.io/managed-by"
  const NAME_KEY := "app.kubernetes.io/name"
  const TOP_LEVEL_LABELS: Labels := map[MANAGED_BY := "externalDNS"]

  datatype Owner = Owner(name: string, uid: string)

  datatype Config = Config(
    ns: string, msiClientId: string, cloud: string, location: string, clusterUid: string, interval: string)

  datatype DnsConfig = DnsConfig(
    tenantId: string, subscription: string, resourceGroup: string, provider: Provider, zoneIds: seq<string>)

  // The content of azure.json.
  datatype AzureJson = AzureJson(
    tenantId: string, subscriptionId: string, resourceGroup: string, identity: string, cloud: string, location: string)

  // The hexadecimal SHA-256 of the content, any function with results of that length.
  type Hash = AzureJson -> string

  ghost predicate IsHash(hash: Hash) { forall js :: |hash(js)| == 64 }

  datatype Kind = Namespace | ServiceAccount | ClusterRole | ClusterRoleBinding | ConfigMap | Deployment

  datatype Spec =
    | Plain
    | Binding(role: string, account: string, accountNs: string)
    | Data(json: AzureJson)
    | Pods(selector: Labels, podLabels: Labels, account: string, configMap: string, args: seq<string>)

  datatype Object = Object(kind: Kind, ns: string, name: string, spec: Spec, labels: Labels, owners: seq<Owner>)

  /******* The objects, as the specification *******/

  function MergeMaps(a: Labels, b: Labels): Labels { a + b }

  function JsonOf(conf: Config, c: DnsConfig): AzureJson {
    AzureJson(c.tenantId, c.subscription, c.resourceGroup, conf.msiClientId, conf.cloud, conf.location)
  }

  // The filters for the zone ids that parse; the others are skipped.
  function DomainFilters(parse: ZoneConfig.Parser, ids: seq<string>): seq<string> {
    if ids == [] then []
    else
      var before := DomainFilters(parse, ids[..|ids| - 1]);
      var parsed := parse(ids[|ids| - 1]);
      if parsed.Ok? then before + ["--domain-filter=" + parsed.value.resourceName] else before
  }

  function PodSpec(parse: ZoneConfig.Parser, hash: Hash, conf: Config, c: DnsConfig): Spec
    requires |hash(JsonOf(conf, c))| == 64
  {
    var name := ResourceName(c.provider);
    Pods(
      map["app" := name],
      map["app" := name, "checksum/configmap" := hash(JsonOf(conf, c))[..16]],
      name, name,
      ["--provider=" + ProviderArg(c.provider), "--source=ingress", "--source=service",
       "--interval=" + conf.interval, "--txt-owner-id=" + conf.clusterUid] + DomainFilters(parse, c.zoneIds))
  }

  // The five objects as the builders return them, with the top-level labels only.
  function Built(parse: ZoneConfig.Parser, hash: Hash, conf: Config, c: DnsConfig): (objs: seq<Object>)
    requires |hash(JsonOf(conf, c))| == 64
    ensures |objs| == 5
  {
    var name := ResourceName(c.provider);
    [ Object(ServiceAccount, conf.ns, name, Plain, TOP_LEVEL_LABELS, []),
      Object(ClusterRole, "", name, Plain, TOP_LEVEL_LABELS, []),
      Object(ClusterRoleBinding, "", name, Binding(name, name, conf.ns), TOP_LEVEL_LABELS, []),
      Object(ConfigMap, conf.ns, name, Data(JsonOf(conf, c)), TOP_LEVEL_LABELS, []),
      Object(Deployment, conf.ns, name, PodSpec(parse, hash, conf, c), TOP_LEVEL_LABELS, []) ]
  }

  // The five objects of one configuration, with their final labels and owners.
  function FromConfig(parse: ZoneConfig.Parser, hash: Hash, conf: Config, owners: seq<Owner>, c: DnsConfig)
    : (objs: seq<Object>)
    requires |hash(JsonOf(conf, c))| == 64
    ensures |objs| == 5
  {
    var built := Built(parse, hash, conf, c);
    seq(5, i requires 0 <= i < 5 => Finished(built[i], ResourceName(c.provider), owners))
  }

  function Finished(o: Object, name: string, owners: seq<Owner>): Object {
    o.(labels := MergeMaps(o.labels, map[NAME_KEY := name]), owners := owners)
  }

  function FromConfigs(parse: ZoneConfig.Parser, hash: Hash, conf: Config, owners: seq<Owner>, cs: seq<DnsConfig>)
    : seq<Object>
    requires IsHash(hash)
  {
    if cs == [] then []
    else FromConfigs(parse, hash, conf, owners, cs[..|cs| - 1]) + FromConfig(parse, hash, conf, owners, cs[|cs| - 1])
  }

  function NamespaceOf(conf: Config, owners: seq<Owner>): seq<Object> {
    if conf.ns == "kube-system" then [] else [Object(Namespace, "", conf.ns, Plain, TOP_LEVEL_LABELS, owners)]
  }

  function OwnerRefs(self: Option<Owner>): seq<Owner> { if self.None? then [] else [self.value] }

  function Resources(parse: ZoneConfig.Parser, hash: Hash, conf: Config, self: Option<Owner>, cs: seq<DnsConfig>)
    : seq<Object>
    requires IsHash(hash)
  {
    NamespaceOf(conf, OwnerRefs(self)) + FromConfigs(parse, hash, conf, OwnerRefs(self), cs)
  }

  /******* Building them *******/

  class KubeObject {
    const kind: Kind
    const ns: string
    const name: string
    const spec: Spec
    var labels: Labels
    var owners: seq<Owner>

    constructor (kind: Kind, ns: string, name: string, spec: Spec, labels: Labels)
      ensures this.kind == kind && this.ns == ns && this.name == name && this.spec == spec
      ensures this.labels == labels && this.owners == []
    {
      this.kind, this.ns, this.name, this.spec := kind, ns, name, spec;
      this.labels, this.owners := labels, [];
    }

    function View(): Object
      reads this
    {
      Object(kind, ns, name, spec, labels, owners)
    }

    method SetLabels(labels: Labels)
      modifies this`labels
      ensures this.labels == labels
    {
      this.labels := labels;
    }

    method SetOwnerReferences(owners: seq<Owner>)
      modifies this`owners
      ensures this.owners == owners
    {
      this.owners := owners;
    }
  }

  ghost function Views(objs: seq<KubeObject>): seq<Object>
    reads objs
  {
    seq(|objs|, i requires 0 <= i < |objs| reads objs => objs[i].View())
  }

  ghost predicate Distinct(objs: seq<KubeObject>) {
    forall i, j :: 0 <= i < j < |objs| ==> objs[i] != objs[j]
  }

  /** The filters are those of the ids that parse, one for each, in the order of the list. */
  lemma {:induction false} FiltersExact(parse: ZoneConfig.Parser, a: seq<string>, b: seq<string>, id: string)
    ensures DomainFilters(parse, a + b) == DomainFilters(parse, a) + DomainFilters(parse, b)
    ensures DomainFilters(parse, [id]) ==
            if parse(id).Ok? then ["--domain-filter=" + parse(id).value.resourceName] else []
  {
    assert [id][..0] == [];
    if b == [] {
      assert a + b == a;
    } else {
      var n := |b| - 1;
      FiltersExact(parse, a, b[..n], id);
      assert (a + b)[..|a + b| - 1] == a + b[..n];
    }
  }

  method BuildFilters(parse: ZoneConfig.Parser, ids: seq<string>) returns (domainFilters: seq<string>)
    ensures domainFilters == DomainFilters(parse, ids)
  {
    domainFilters := [];
    for i := 0 to |ids|
      invariant domainFilters == DomainFilters(parse, ids[..i])
    {
      assert ids[..i + 1][..i] == ids[..i];
      var parsedZone := parse(ids[i]);
      if parsedZone.Err? {
        continue;
      }
      domainFilters := domainFilters + ["--domain-filter=" + parsedZone.value.resourceName];
    }
    assert ids[..|ids|] == ids;
  }

  // Labels the objects of one configuration, one after the other.
  method AddLabels(objs: seq<KubeObject>, extra: Labels)
    requires Distinct(objs)
    modifies set o | o in objs
    ensures forall i :: 0 <= i < |objs| ==>
              objs[i].View() == old(objs[i].View()).(labels := MergeMaps(old(objs[i].labels), extra))
  {
    for i := 0 to |objs|
      invariant forall j :: 0 <= j < i ==> objs[j].labels == MergeMaps(old(objs[j].labels), extra)
      invariant forall j :: i <= j < |objs| ==> objs[j].labels == old(objs[j].labels)
      invariant forall j :: 0 <= j < |objs| ==> objs[j].owners == old(objs[j].owners)
    {
      objs[i].SetLabels(MergeMaps(objs[i].labels, extra));
    }
  }

  method SetOwners(objs: seq<KubeObject>, owners: seq<Owner>)
    requires Distinct(objs)
    modifies set o | o in objs
    ensures forall i :: 0 <= i < |objs| ==> objs[i].View() == old(objs[i].View()).(owners := owners)
  {
    for i := 0 to |objs|
      invariant forall j :: 0 <= j < i ==> objs[j].owners == owners
      invariant forall j :: 0 <= j < |objs| ==> objs[j].labels == old(objs[j].labels)
    {
      objs[i].SetOwnerReferences(owners);
    }
  }

  method BuildDeployment(parse: ZoneConfig.Parser, hash: Hash, conf: Config, c: DnsConfig)
    returns (deployment: KubeObject)
    requires IsHash(hash)
    ensures fresh(deployment) && deployment.View() == Built(parse, hash, conf, c)[4]
  {
    var name := ResourceName(c.provider);
    var filters := BuildFilters(parse, c.zoneIds);
    var podLabels: Labels := map["app" := name, "checksum/configmap" := hash(JsonOf(conf, c))[..16]];
    var pods := Pods(
      map["app" := name], podLabels, name, name,
      ["--provider=" + ProviderArg(c.provider), "--source=ingress", "--source=service",
       "--interval=" + conf.interval, "--txt-owner-id=" + conf.clusterUid] + filters);
    deployment := new KubeObject(Deployment, conf.ns, name, pods, TOP_LEVEL_LABELS);
  }

  method BuildObjects(parse: ZoneConfig.Parser, hash: Hash, conf: Config, c: DnsConfig)
    returns (objs: seq<KubeObject>)
    requires IsHash(hash)
    ensures fresh(set o | o in objs) && Distinct(objs) && |objs| == 5
    ensures forall i :: 0 <= i < |objs| ==> objs[i].View() == Built(parse, hash, conf, c)[i]
  {
    var name := ResourceName(c.provider);
    var account := new KubeObject(ServiceAccount, conf.ns, name, Plain, TOP_LEVEL_LABELS);
    var role := new KubeObject(ClusterRole, "", name, Plain, TOP_LEVEL_LABELS);
    var binding := new KubeObject(ClusterRoleBinding, "", name, Binding(name, name, conf.ns), TOP_LEVEL_LABELS);
    var configMap := new KubeObject(ConfigMap, conf.ns, name, Data(JsonOf(conf, c)), TOP_LEVEL_LABELS);
    var deployment := BuildDeployment(parse, hash, conf, c);
    hide PodSpec;
    objs := [account, role, binding, configMap, deployment];
  }

  lemma BuiltLabelled(parse: ZoneConfig.Parser, hash: Hash, conf: Config, c: DnsConfig, i: nat)
    requires IsHash(hash) && i < 5
    ensures var o := Built(parse, hash, conf, c)[i];
            FromConfig(parse, hash, conf, [], c)[i] ==
            o.(labels := MergeMaps(o.labels, map[NAME_KEY := ResourceName(c.provider)]))
  {
    hide PodSpec, MergeMaps;
  }

  method ExternalDnsResourcesFromConfig(parse: ZoneConfig.Parser, hash: Hash, conf: Config, c: DnsConfig)
    returns (objs: seq<KubeObject>)
    requires IsHash(hash)
    ensures fresh(set o | o in objs) && Distinct(objs)
    ensures Views(objs) == FromConfig(parse, hash, conf, [], c)
  {
    objs := BuildObjects(parse, hash, conf, c);
    hide Built, FromConfig, MergeMaps, IsHash;
    AddLabels(objs, map[NAME_KEY := ResourceName(c.provider)]);
    forall i | 0 <= i < 5
      ensures objs[i].View() == FromConfig(parse, hash, conf, [], c)[i]
    {
      BuiltLabelled(parse, hash, conf, c, i);
    }
  }

  ghost function Collected(parse: ZoneConfig.Parser, hash: Hash, conf: Config, cs: seq<DnsConfig>): seq<Object>
    requires IsHash(hash)
  {
    Resources(parse, hash, conf, None, cs)
  }

  lemma OneMore(parse: ZoneConfig.Parser, hash: Hash, conf: Config, cs: seq<DnsConfig>, i: nat)
    requires IsHash(hash) && i < |cs|
    ensures Collected(parse, hash, conf, cs[..i + 1]) ==
            Collected(parse, hash, conf, cs[..i]) + FromConfig(parse, hash, conf, [], cs[i])
  {
    hide FromConfig;
    assert cs[..i + 1][..i] == cs[..i];
  }

  // Appends the objects of one configuration.
  method Append(
    parse: ZoneConfig.Parser, hash: Hash, conf: Config, configs: seq<DnsConfig>, i: nat, objs: seq<KubeObject>)
    returns (all: seq<KubeObject>)
    requires IsHash(hash) && Distinct(objs) && i < |configs|
    requires Views(objs) == Collected(parse, hash, conf, configs[..i])
    ensures objs <= all && fresh(set o | o in all[|objs|..]) && Distinct(all)
    ensures Views(all) == Collected(parse, hash, conf, configs[..i + 1])
  {
    hide FromConfig, IsHash, Collected;
    OneMore(parse, hash, conf, configs, i);
    var more := ExternalDnsResourcesFromConfig(parse, hash, conf, configs[i]);
    all := objs + more;
    assert all[|objs|..] == more;
    ViewsConcat(objs, more);
  }

  lemma ViewsConcat(a: seq<KubeObject>, b: seq<KubeObject>)
    ensures Views(a + b) == Views(a) + Views(b)
  {
  }

  // The namespace, if it may be missing, and the objects of each configuration in turn.
  method CollectObjects(parse: ZoneConfig.Parser, hash: Hash, conf: Config, configs: seq<DnsConfig>)
    returns (objs: seq<KubeObject>)
    requires IsHash(hash)
    ensures fresh(set o | o in objs) && Distinct(objs)
    ensures Views(objs) == Collected(parse, hash, conf, configs)
  {
    hide FromConfig, IsHash;
    objs := FirstObjects(conf);
    NoneYet(parse, hash, conf, configs);
    hide Collected, NamespaceOf, Distinct;
    for i := 0 to |configs|
      invariant fresh(set o | o in objs) && Distinct(objs)
      invariant Views(objs) == Collected(parse, hash, conf, configs[..i])
    {
      objs := Append(parse, hash, conf, configs, i, objs);
    }
    assert configs[..|configs|] == configs;
  }

  method FirstObjects(conf: Config) returns (objs: seq<KubeObject>)
    ensures fresh(set o | o in objs) && Distinct(objs) && Views(objs) == NamespaceOf(conf, [])
  {
    objs := [];
    if conf.ns != "kube-system" {
      var ns := new KubeObject(Namespace, "", conf.ns, Plain, TOP_LEVEL_LABELS);
      objs := [ns];
    }
  }

  lemma NoneYet(parse: ZoneConfig.Parser, hash: Hash, conf: Config, cs: seq<DnsConfig>)
    requires IsHash(hash)
    ensures Collected(parse, hash, conf, cs[..0]) == NamespaceOf(conf, [])
  {
    assert cs[..0] == [];
  }

  /** The method builds the list that the specification describes, in fresh objects. */
  method ExternalDnsResources(
    parse: ZoneConfig.Parser, hash: Hash, conf: Config, self: Option<Owner>, configs: seq<DnsConfig>)
    returns (objs: seq<KubeObject>)
    requires IsHash(hash)
    ensures fresh(set o | o in objs) && Distinct(objs)
    ensures Views(objs) == Resources(parse, hash, conf, self, configs)
  {
    objs := CollectObjects(parse, hash, conf, configs);
    ghost var before := Views(objs);
    var owners := OwnerRefs(self);
    SetOwners(objs, owners);
    assert Views(objs) == Owned(before, owners);
    OwnersLast(parse, hash, conf, owners, configs);
    OwnedConcat(NamespaceOf(conf, []), FromConfigs(parse, hash, conf, [], configs), owners);
  }

  function Owned(objs: seq<Object>, owners: seq<Owner>): seq<Object> {
    seq(|objs|, i requires 0 <= i < |objs| => objs[i].(owners := owners))
  }

  lemma OwnedConcat(a: seq<Object>, b: seq<Object>, owners: seq<Owner>)
    ensures Owned(a + b, owners) == Owned(a, owners) + Owned(b, owners)
  {
  }

  lemma OwnedConfig(parse: ZoneConfig.Parser, hash: Hash, conf: Config, owners: seq<Owner>, c: DnsConfig)
    requires IsHash(hash)
    ensures Owned(FromConfig(parse, hash, conf, [], c), owners) == FromConfig(parse, hash, conf, owners, c)
  {
  }

  // Owners may be set after all objects are there.
  lemma {:induction false} OwnersLast(
    parse: ZoneConfig.Parser, hash: Hash, conf: Config, owners: seq<Owner>, cs: seq<DnsConfig>)
    requires IsHash(hash)
    ensures Owned(FromConfigs(parse, hash, conf, [], cs), owners) == FromConfigs(parse, hash, conf, owners, cs)
    ensures Owned(NamespaceOf(conf, []), owners) == NamespaceOf(conf, owners)
  {
    if cs != [] {
      OwnersLast(parse, hash, conf, owners, cs[..|cs| - 1]);
      OwnedConfig(parse, hash, conf, owners, cs[|cs| - 1]);
      hide FromConfig;
      OwnedConcat(FromConfigs(parse, hash, conf, [], cs[..|cs| - 1]),
                  FromConfig(parse, hash, conf, [], cs[|cs| - 1]), owners);
    }
  }

  /******* Closure *******/

  lemma {:induction false} FromConfigsAt(
    parse: ZoneConfig.Parser, hash: Hash, conf: Config, owners: seq<Owner>, cs: seq<DnsConfig>)
    requires IsHash(hash)
    ensures var objs := FromConfigs(parse, hash, conf, owners, cs);
            && |objs| == 5 * |cs|
            && forall k :: 0 <= k < |objs| ==> objs[k] == FromConfig(parse, hash, conf, owners, cs[k / 5])[k % 5]
  {
    if cs != [] {
      var n := |cs| - 1;
      FromConfigsAt(parse, hash, conf, owners, cs[..n]);
      var init := FromConfigs(parse, hash, conf, owners, cs[..n]);
      var objs := FromConfigs(parse, hash, conf, owners, cs);
      forall k | 0 <= k < |objs|
        ensures objs[k] == FromConfig(parse, hash, conf, owners, cs[k / 5])[k % 5]
      {
        if k < |init| {
          assert objs[k] == init[k] && cs[..n][k / 5] == cs[k / 5];
        } else {
          assert k / 5 == n && k % 5 == k - 5 * n;
        }
      }
    }
  }

  // Without a namespace object, the j-th object of the i-th configuration.
  lemma ObjectAt(parse: ZoneConfig.Parser, hash: Hash, conf: Config, cs: seq<DnsConfig>, i: nat, j: nat)
    requires IsHash(hash) && conf.ns == "kube-system" && i < |cs| && j < 5
    ensures var objs := Resources(parse, hash, conf, None, cs);
            |objs| == 5 * |cs| && objs[5 * i + j] == FromConfig(parse, hash, conf, [], cs[i])[j]
  {
    FromConfigsAt(parse, hash, conf, [], cs);
    Place(i, j, |cs|);
    assert Resources(parse, hash, conf, None, cs) == FromConfigs(parse, hash, conf, [], cs);
    hide *;
  }

  lemma Place(i: nat, j: nat, n: nat)
    requires i < n && j < 5
    ensures 5 * i + j < 5 * n && (5 * i + j) / 5 == i && (5 * i + j) % 5 == j
  {
  }

  /** What the objects of one configuration are: all under the name of the provider, the service
    * account, the config map and the deployment in the namespace, the config map with the settings for
    * this configuration, and the deployment with its provider, interval, owner id and filters. */
  lemma ObjectsExact(parse: ZoneConfig.Parser, hash: Hash, conf: Config, owners: seq<Owner>, c: DnsConfig)
    requires IsHash(hash)
    ensures var objs := FromConfig(parse, hash, conf, owners, c);
            var name := match c.provider
                        case PublicProvider => "external-dns"
                        case PrivateProvider => "external-dns-private"
                        case OtherProvider => "";
            && objs[0].kind == ServiceAccount && objs[0].ns == conf.ns && objs[0].name == name
            && objs[1].kind == ClusterRole && objs[1].ns == "" && objs[1].name == name
            && objs[2].kind == ClusterRoleBinding && objs[2].ns == "" && objs[2].name == name
            && objs[2].spec == Binding(name, name, conf.ns)
            && objs[3].kind == ConfigMap && objs[3].ns == conf.ns && objs[3].name == name
            && objs[4].kind == Deployment && objs[4].ns == conf.ns && objs[4].name == name
    ensures FromConfig(parse, hash, conf, owners, c)[3].spec ==
            Data(AzureJson(c.tenantId, c.subscription, c.resourceGroup, conf.msiClientId, conf.cloud, conf.location))
    ensures var spec := FromConfig(parse, hash, conf, owners, c)[4].spec;
            && spec.Pods? && spec.selector.Keys == {"app"} && |spec.args| == 5 + |DomainFilters(parse, c.zoneIds)|
            && spec.args[1..3] == ["--source=ingress", "--source=service"]
            && spec.args[3] == "--interval=" + conf.interval && spec.args[4] == "--txt-owner-id=" + conf.clusterUid
            && spec.args[5..] == DomainFilters(parse, c.zoneIds)
            && spec.args[0] == "--provider=" + (match c.provider
                                                case PublicProvider => "azure"
                                                case PrivateProvider => "azure-private-dns"
                                                case OtherProvider => "")
  {
  }

  predicate DistinctNames(cs: seq<DnsConfig>) {
    forall i, j :: 0 <= i < j < |cs| ==> ResourceName(cs[i].provider) != ResourceName(cs[j].provider)
  }

  predicate SameKey(a: Object, b: Object) { a.kind == b.kind && a.ns == b.ns && a.name == b.name }

  predicate DistinctKeys(objs: seq<Object>) {
    forall i, j :: 0 <= i < j < |objs| ==> !SameKey(objs[i], objs[j])
  }

  // The object stands in the list.
  predicate Has(objs: seq<Object>, kind: Kind, ns: string, name: string) {
    exists i :: 0 <= i < |objs| && objs[i].kind == kind && objs[i].ns == ns && objs[i].name == name
  }

  // Everything the object refers to stands in the list, and its pods carry what it selects and the
  // checksum of the configuration they mount.
  predicate Resolved(objs: seq<Object>, hash: Hash, o: Object) {
    match o.spec
    case Plain | Data(_) => true
    case Binding(role, account, ns) => Has(objs, ClusterRole, "", role) && Has(objs, ServiceAccount, ns, account)
    case Pods(selector, podLabels, account, configMap, _) =>
      && Has(objs, ServiceAccount, o.ns, account)
      && Has(objs, ConfigMap, o.ns, configMap)
      && (forall k :: k in selector ==> k in podLabels && podLabels[k] == selector[k])
      && "checksum/configmap" in podLabels
      && (exists i :: 0 <= i < |objs| && objs[i].kind == ConfigMap && objs[i].ns == o.ns && objs[i].name == configMap
            && objs[i].spec.Data?
            && |hash(objs[i].spec.json)| >= 16 && podLabels["checksum/configmap"] == hash(objs[i].spec.json)[..16])
  }

  function LabelsFor(o: Object): Labels {
    if o.kind.Namespace? then map["app.kubernetes.io/managed-by" := "externalDNS"]
    else map["app.kubernetes.io/managed-by" := "externalDNS", "app.kubernetes.io/name" := o.name]
  }

  /** For any list of configurations: five objects for each and a namespace exactly when it is not
    * kube-system; every reference resolves inside the list, every object carries the managed-by label
    * and the owners. No two objects share kind, namespace and name exactly when no two
    * configurations have the same resource name. */
  lemma ResourcesClosed(parse: ZoneConfig.Parser, hash: Hash, conf: Config, self: Option<Owner>, cs: seq<DnsConfig>)
    requires IsHash(hash)
    ensures var objs := Resources(parse, hash, conf, self, cs);
            && |objs| == 5 * |cs| + (if conf.ns == "kube-system" then 0 else 1)
            && (Has(objs, Namespace, "", conf.ns) <==> conf.ns != "kube-system")
            && (forall k :: 0 <= k < |objs| ==>
                  && Resolved(objs, hash, objs[k])
                  && objs[k].labels ==
                       (if objs[k].kind.Namespace? then map["app.kubernetes.io/managed-by" := "externalDNS"]
                        else map["app.kubernetes.io/managed-by" := "externalDNS",
                                 "app.kubernetes.io/name" := objs[k].name])
                  && objs[k].owners == (if self.None? then [] else [self.value]))
            && (DistinctKeys(objs) <==> DistinctNames(cs))
  {
    var objs := Resources(parse, hash, conf, self, cs);
    var d := if conf.ns == "kube-system" then 0 else 1;
    ResourcesHold(parse, hash, conf, self, cs);
    hide Resources, FromConfig, Holds, Resolved, DistinctKeys, DistinctNames, Has;
    forall k | 0 <= k < |objs|
      ensures Resolved(objs, hash, objs[k])
      ensures objs[k].labels == LabelsFor(objs[k])
      ensures objs[k].owners == OwnerRefs(self)
    {
      if k >= d {
        ObjectResolved(parse, hash, conf, OwnerRefs(self), cs, objs, d, k - d);
      } else {
        NamespaceResolved(objs, hash, objs[k]);
      }
    }
    KeysDistinct(parse, hash, conf, OwnerRefs(self), cs, objs, d);
    NamespaceHeld(parse, hash, conf, OwnerRefs(self), cs, objs, d);
  }

  lemma NamespaceResolved(objs: seq<Object>, hash: Hash, o: Object)
    requires o.spec.Plain?
    ensures Resolved(objs, hash, o)
  {
  }

  lemma NamespaceHeld(
    parse: ZoneConfig.Parser, hash: Hash, conf: Config, owners: seq<Owner>, cs: seq<DnsConfig>,
    objs: seq<Object>, d: nat)
    requires IsHash(hash) && Holds(parse, hash, conf, owners, cs, objs, d) && d <= 1
    requires d == 1 ==> objs[0].kind == Namespace && objs[0].ns == "" && objs[0].name == conf.ns
    ensures Has(objs, Namespace, "", conf.ns) <==> d == 1
  {
    forall k | d <= k < |objs|
      ensures objs[k].kind != Namespace
    {
      assert objs[k] == objs[d + (k - d)];
      Shape(parse, hash, conf, owners, cs[(k - d) / 5], (k - d) % 5);
    }
  }

  lemma ResourcesHold(parse: ZoneConfig.Parser, hash: Hash, conf: Config, self: Option<Owner>, cs: seq<DnsConfig>)
    requires IsHash(hash)
    ensures var objs := Resources(parse, hash, conf, self, cs);
            var d := if conf.ns == "kube-system" then 0 else 1;
            && Holds(parse, hash, conf, OwnerRefs(self), cs, objs, d)
            && |objs| == d + 5 * |cs|
            && (d == 1 ==> objs[0] == Object(Namespace, "", conf.ns, Plain, TOP_LEVEL_LABELS, OwnerRefs(self)))
  {
    var owners := OwnerRefs(self);
    FromConfigsAt(parse, hash, conf, owners, cs);
    hide FromConfig, FromConfigs, IsHash;
    var rest := FromConfigs(parse, hash, conf, owners, cs);
    var first := NamespaceOf(conf, owners);
    assert Holds(parse, hash, conf, owners, cs, rest, 0);
    HoldsAfter(parse, hash, conf, owners, cs, first, rest);
    hide Holds;
  }

  lemma HoldsAfter(
    parse: ZoneConfig.Parser, hash: Hash, conf: Config, owners: seq<Owner>, cs: seq<DnsConfig>,
    first: seq<Object>, rest: seq<Object>)
    requires IsHash(hash) && Holds(parse, hash, conf, owners, cs, rest, 0)
    ensures Holds(parse, hash, conf, owners, cs, first + rest, |first|)
  {
    hide FromConfig;
    forall k | 0 <= k < 5 * |cs|
      ensures (first + rest)[|first| + k] == FromConfig(parse, hash, conf, owners, cs[k / 5])[k % 5]
    {
      assert (first + rest)[|first| + k] == rest[0 + k];
    }
  }

  const KINDS := [ServiceAccount, ClusterRole, ClusterRoleBinding, ConfigMap, Deployment]

  lemma KindsDistinct(i: nat, j: nat)
    requires i < 5 && j < 5 && KINDS[i] == KINDS[j]
    ensures i == j
  {
  }

  lemma Shape(parse: ZoneConfig.Parser, hash: Hash, conf: Config, owners: seq<Owner>, c: DnsConfig, j: nat)
    requires IsHash(hash) && j < 5
    ensures FromConfig(parse, hash, conf, owners, c)[j].kind == KINDS[j]
    ensures FromConfig(parse, hash, conf, owners, c)[j].name == ResourceName(c.provider)
    ensures j == 0 ==> FromConfig(parse, hash, conf, owners, c)[j].ns == conf.ns
  {
  }

  lemma ShapeAt(
    parse: ZoneConfig.Parser, hash: Hash, conf: Config, owners: seq<Owner>, cs: seq<DnsConfig>,
    objs: seq<Object>, d: nat, n: nat)
    requires IsHash(hash) && Holds(parse, hash, conf, owners, cs, objs, d) && d <= n < |objs|
    ensures n - d < 5 * |cs|
    ensures objs[n].kind == KINDS[(n - d) % 5] && objs[n].name == ResourceName(cs[(n - d) / 5].provider)
    ensures (n - d) % 5 == 0 ==> objs[n].ns == conf.ns
  {
    var k := n - d;
    assert objs[n] == objs[d + k];
    Shape(parse, hash, conf, owners, cs[k / 5], k % 5);
  }

  // The list with the objects of the configurations from index d on.
  ghost predicate Holds(
    parse: ZoneConfig.Parser, hash: Hash, conf: Config, owners: seq<Owner>, cs: seq<DnsConfig>,
    objs: seq<Object>, d: nat)
    requires IsHash(hash)
  {
    && |objs| == d + 5 * |cs|
    && forall k :: 0 <= k < 5 * |cs| ==> objs[d + k] == FromConfig(parse, hash, conf, owners, cs[k / 5])[k % 5]
  }

  lemma ObjectResolved(
    parse: ZoneConfig.Parser, hash: Hash, conf: Config, owners: seq<Owner>, cs: seq<DnsConfig>,
    objs: seq<Object>, d: nat, k: nat)
    requires IsHash(hash) && Holds(parse, hash, conf, owners, cs, objs, d) && k < 5 * |cs|
    ensures Resolved(objs, hash, objs[d + k])
    ensures objs[d + k].labels == LabelsFor(objs[d + k])
    ensures objs[d + k].owners == owners
  {
    assert k == 5 * (k / 5) + k % 5;
    Member(parse, hash, conf, owners, cs, objs, d, k / 5, k % 5);
    Group(parse, hash, conf, owners, cs, objs, d, k / 5);
    hide Holds, Resolved, LabelsFor, FromConfig, IsHash;
    GroupResolved(parse, hash, conf, owners, cs[k / 5], objs, d + 5 * (k / 5), k % 5);
    Labelled(parse, hash, conf, owners, cs[k / 5], k % 5);
  }

  lemma Labelled(parse: ZoneConfig.Parser, hash: Hash, conf: Config, owners: seq<Owner>, c: DnsConfig, j: nat)
    requires IsHash(hash) && j < 5
    ensures var o := FromConfig(parse, hash, conf, owners, c)[j]; o.labels == LabelsFor(o) && o.owners == owners
  {
    hide PodSpec;
  }

  // The references of one configuration's objects, which stand together.
  lemma GroupResolved(
    parse: ZoneConfig.Parser, hash: Hash, conf: Config, owners: seq<Owner>, c: DnsConfig,
    objs: seq<Object>, n: nat, j: nat)
    requires IsHash(hash) && n + 5 <= |objs| && j < 5
    requires var own := FromConfig(parse, hash, conf, owners, c);
             && objs[n] == own[0] && objs[n + 1] == own[1] && objs[n + 2] == own[2]
             && objs[n + 3] == own[3] && objs[n + 4] == own[4]
    ensures Resolved(objs, hash, FromConfig(parse, hash, conf, owners, c)[j])
  {
  }

  lemma Group(
    parse: ZoneConfig.Parser, hash: Hash, conf: Config, owners: seq<Owner>, cs: seq<DnsConfig>,
    objs: seq<Object>, d: nat, i: nat)
    requires IsHash(hash) && Holds(parse, hash, conf, owners, cs, objs, d) && i < |cs|
    ensures 5 * i + 4 < 5 * |cs|
    ensures var own := FromConfig(parse, hash, conf, owners, cs[i]);
            && objs[d + (5 * i + 0)] == own[0] && objs[d + (5 * i + 1)] == own[1] && objs[d + (5 * i + 2)] == own[2]
            && objs[d + (5 * i + 3)] == own[3] && objs[d + (5 * i + 4)] == own[4]
  {
    hide FromConfig, IsHash, Holds;
    Member(parse, hash, conf, owners, cs, objs, d, i, 0);
    Member(parse, hash, conf, owners, cs, objs, d, i, 1);
    Member(parse, hash, conf, owners, cs, objs, d, i, 2);
    Member(parse, hash, conf, owners, cs, objs, d, i, 3);
    Member(parse, hash, conf, owners, cs, objs, d, i, 4);
  }

  lemma Member(
    parse: ZoneConfig.Parser, hash: Hash, conf: Config, owners: seq<Owner>, cs: seq<DnsConfig>,
    objs: seq<Object>, d: nat, i: nat, j: nat)
    requires IsHash(hash) && Holds(parse, hash, conf, owners, cs, objs, d) && i < |cs| && j < 5
    ensures |objs| == d + 5 * |cs| && 5 * i + j < 5 * |cs|
    ensures objs[d + (5 * i + j)] == FromConfig(parse, hash, conf, owners, cs[i])[j]
  {
    hide FromConfig;
    Place(i, j, |cs|);
  }

  lemma KeysDistinct(
    parse: ZoneConfig.Parser, hash: Hash, conf: Config, owners: seq<Owner>, cs: seq<DnsConfig>,
    objs: seq<Object>, d: nat)
    requires IsHash(hash) && Holds(parse, hash, conf, owners, cs, objs, d) && d <= 1 && |objs| == d + 5 * |cs|
    requires d == 1 ==> objs[0].kind == Namespace
    ensures DistinctKeys(objs) <==> DistinctNames(cs)
  {
    hide FromConfig, IsHash, Holds;
    if DistinctNames(cs) {
      forall a, b | 0 <= a < b < |objs|
        ensures !SameKey(objs[a], objs[b])
      {
        hide DistinctNames;
        ShapeAt(parse, hash, conf, owners, cs, objs, d, b);
        if a >= d {
          ShapeAt(parse, hash, conf, owners, cs, objs, d, a);
          if objs[a].kind == objs[b].kind {
            KindsDistinct((a - d) % 5, (b - d) % 5);
            NamesDiffer(cs, a - d, b - d);
          }
        }
      }
    } else {
      var i, j :| 0 <= i < j < |cs| && ResourceName(cs[i].provider) == ResourceName(cs[j].provider);
      SameNames(parse, hash, conf, owners, cs, objs, d, i, j);
    }
  }

  lemma SameNames(
    parse: ZoneConfig.Parser, hash: Hash, conf: Config, owners: seq<Owner>, cs: seq<DnsConfig>,
    objs: seq<Object>, d: nat, i: nat, j: nat)
    requires IsHash(hash) && Holds(parse, hash, conf, owners, cs, objs, d)
    requires i < j < |cs| && ResourceName(cs[i].provider) == ResourceName(cs[j].provider)
    ensures !DistinctKeys(objs)
  {
    hide FromConfig, IsHash, Holds, ResourceName;
    AccountOf(parse, hash, conf, owners, cs, objs, d, i);
    AccountOf(parse, hash, conf, owners, cs, objs, d, j);
    assert SameKey(objs[d + 5 * i], objs[d + 5 * j]);
  }

  // The service account of a configuration.
  lemma AccountOf(
    parse: ZoneConfig.Parser, hash: Hash, conf: Config, owners: seq<Owner>, cs: seq<DnsConfig>,
    objs: seq<Object>, d: nat, i: nat)
    requires IsHash(hash) && Holds(parse, hash, conf, owners, cs, objs, d) && i < |cs|
    ensures d + 5 * i < |objs|
    ensures var o := objs[d + 5 * i];
            o.kind == ServiceAccount && o.ns == conf.ns && o.name == ResourceName(cs[i].provider)
  {
    hide FromConfig, IsHash;
    Place(i, 0, |cs|);
    ShapeAt(parse, hash, conf, owners, cs, objs, d, d + 5 * i);
  }

  // Objects of the same kind belong to different configurations.
  lemma NamesDiffer(cs: seq<DnsConfig>, a: nat, b: nat)
    requires DistinctNames(cs) && a < b < 5 * |cs| && a % 5 == b % 5
    ensures ResourceName(cs[a / 5].provider) != ResourceName(cs[b / 5].provider)
  {
    assert a / 5 < b / 5;
  }
}
