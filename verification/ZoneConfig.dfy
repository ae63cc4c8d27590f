/** pkgResources/config/config.go: the DNS zone configuration and its parser. */
module ZoneConfig {
  import opened Wrappers
  import opened Text
  import opened ResourceId

  const PRIVATE_ZONE_TYPE := "privatednszones"
  const PUBLIC_ZONE_TYPE := "dnszones"
  const NETWORK_PROVIDER := "Microsoft.Network"

  datatype DnsZoneConfig = DnsZoneConfig(subscription: string, resourceGroup: string, zoneIds: seq<string>)

  const NO_ZONE := DnsZoneConfig("", "", [])

  datatype Zones = Zones(privateZones: DnsZoneConfig, publicZones: DnsZoneConfig)

  datatype Error =
    | NotParsed(id: string)
    | WrongProvider(id: string)
    | WrongType(id: string)
    | MixedSubscriptions(id: string)
    | MixedGroups(id: string)

  // The id parser is a library function. The results below hold for every parser that never
  // returns an empty subscription or resource group.
  type Parser = string -> Result<Resource, string>

  ghost predicate Proper(parse: Parser) {
    forall id :: parse(id).Ok? ==> parse(id).value.subscriptionId != "" && parse(id).value.resourceGroup != ""
  }

  function ValidateSubAndRg(zone: Resource, subscription: string, resourceGroup: string, id: string): Option<Error> {
    if subscription != "" && zone.subscriptionId != subscription then Some(MixedSubscriptions(id))
    else if resourceGroup != "" && zone.resourceGroup != resourceGroup then Some(MixedGroups(id))
    else None
  }

  function Stored(c: DnsZoneConfig, zone: Resource, id: string): DnsZoneConfig {
    DnsZoneConfig(zone.subscriptionId, zone.resourceGroup, c.zoneIds + [id])
  }

  // One turn of the loop.
  function Add(parse: Parser, z: Zones, id: string): (Zones, Option<Error>) {
    var parsed := parse(id);
    if parsed.Err? then (z, Some(NotParsed(id)))
    else
      var zone := parsed.value;
      if !EqualFold(zone.provider, NETWORK_PROVIDER) then (z, Some(WrongProvider(id)))
      else if ToLower(zone.resourceType) == PRIVATE_ZONE_TYPE then
        var err := ValidateSubAndRg(zone, z.privateZones.subscription, z.privateZones.resourceGroup, id);
        if err.Some? then (z, err) else (z.(privateZones := Stored(z.privateZones, zone, id)), None)
      else if ToLower(zone.resourceType) == PUBLIC_ZONE_TYPE then
        var err := ValidateSubAndRg(zone, z.publicZones.subscription, z.publicZones.resourceGroup, id);
        if err.Some? then (z, err) else (z.(publicZones := Stored(z.publicZones, zone, id)), None)
      else (z, Some(WrongType(id)))
  }

  // The whole loop: it stops at the first error and leaves what it has stored.
  function Classify(parse: Parser, ids: seq<string>): (Zones, Option<Error>) {
    if ids == [] then (Zones(NO_ZONE, NO_ZONE), None)
    else
      var before := Classify(parse, ids[..|ids| - 1]);
      if before.1.Some? then before else Add(parse, before.0, ids[|ids| - 1])
  }

  /******* What is accepted, without the loop *******/

  predicate CapitalsOf(s: string, word: string) {
    |s| == |word| && forall i :: 0 <= i < |s| ==> LowersTo(s[i], word[i])
  }

  // The id is that of a zone of this type, read letter by letter.
  predicate IsZone(parse: Parser, id: string, zoneType: string) {
    && parse(id).Ok?
    && SameWord(parse(id).value.provider, "Microsoft.Network")
    && CapitalsOf(parse(id).value.resourceType, zoneType)
  }

  predicate IsPrivate(parse: Parser, id: string) { IsZone(parse, id, "privatednszones") }

  predicate IsPublic(parse: Parser, id: string) { IsZone(parse, id, "dnszones") }

  // What the loop tests is what the letters say, and no id is of both types.
  lemma ZoneTested(parse: Parser, id: string)
    requires parse(id).Ok?
    ensures var zone := parse(id).value;
            && (IsPrivate(parse, id) <==>
                  EqualFold(zone.provider, NETWORK_PROVIDER) && ToLower(zone.resourceType) == PRIVATE_ZONE_TYPE)
            && (IsPublic(parse, id) <==>
                  EqualFold(zone.provider, NETWORK_PROVIDER) && ToLower(zone.resourceType) == PUBLIC_ZONE_TYPE)
    ensures !(IsPrivate(parse, id) && IsPublic(parse, id))
  {
    FoldExact(parse(id).value.provider, NETWORK_PROVIDER);
    LowerExact(parse(id).value.resourceType, PRIVATE_ZONE_TYPE);
    LowerExact(parse(id).value.resourceType, PUBLIC_ZONE_TYPE);
    hide EqualFold, ToLower, SameLetter, LowersTo;
  }

  // One turn of the loop, in terms of what the id is.
  lemma AddTested(parse: Parser, z: Zones, id: string)
    ensures IsPrivate(parse, id) ==>
              var zone, c := parse(id).value, z.privateZones;
              var err := ValidateSubAndRg(zone, c.subscription, c.resourceGroup, id);
              Add(parse, z, id) == if err.Some? then (z, err) else (z.(privateZones := Stored(c, zone, id)), None)
    ensures IsPublic(parse, id) ==>
              var zone, c := parse(id).value, z.publicZones;
              var err := ValidateSubAndRg(zone, c.subscription, c.resourceGroup, id);
              Add(parse, z, id) == if err.Some? then (z, err) else (z.(publicZones := Stored(c, zone, id)), None)
    ensures !IsPrivate(parse, id) && !IsPublic(parse, id) ==> Add(parse, z, id).0 == z && Add(parse, z, id).1.Some?
    ensures !(IsPrivate(parse, id) && IsPublic(parse, id))
  {
    if parse(id).Ok? {
      ZoneTested(parse, id);
    }
    hide EqualFold, ToLower, SameWord, CapitalsOf, ValidateSubAndRg;
  }

  /** Which error an id gets: the first of the tests that it fails, with the id named. */
  lemma AddErrors(parse: Parser, z: Zones, id: string)
    ensures var err := Add(parse, z, id).1;
            && (err.Some? ==> err.value.id == id)
            && (err == Some(NotParsed(id)) <==> parse(id).Err?)
            && (err == Some(WrongProvider(id)) <==>
                  parse(id).Ok? && !SameWord(parse(id).value.provider, "Microsoft.Network"))
            && (err == Some(WrongType(id)) <==>
                  && parse(id).Ok? && SameWord(parse(id).value.provider, "Microsoft.Network")
                  && !IsPrivate(parse, id) && !IsPublic(parse, id))
            && (IsPrivate(parse, id) || IsPublic(parse, id) ==>
                  var c, zone := if IsPrivate(parse, id) then z.privateZones else z.publicZones, parse(id).value;
                  && (err == Some(MixedSubscriptions(id)) <==>
                        c.subscription != "" && c.subscription != zone.subscriptionId)
                  && (err == Some(MixedGroups(id)) <==>
                        && (c.subscription == "" || c.subscription == zone.subscriptionId)
                        && c.resourceGroup != "" && c.resourceGroup != zone.resourceGroup))
  {
    if parse(id).Ok? {
      ZoneTested(parse, id);
      FoldExact(parse(id).value.provider, "Microsoft.Network");
    }
    hide EqualFold, ToLower, SameWord, CapitalsOf;
  }

  // The string is the word with any of its ASCII letters in the other case.
  predicate InAsciiCase(s: string, word: string) {
    && |s| == |word|
    && forall i :: 0 <= i < |s| ==>
         || s[i] == word[i]
         || ('a' <= word[i] <= 'z' && s[i] as int + 32 == word[i] as int)
         || ('A' <= word[i] <= 'Z' && s[i] as int == word[i] as int + 32)
  }

  /** Letter case does not matter: an id with the provider and a zone type in any ASCII case is a zone
    * of that type, and an ASCII type that differs from both beyond its case is refused. */
  lemma AnyCase(parse: Parser, id: string)
    requires parse(id).Ok? && InAsciiCase(parse(id).value.provider, "Microsoft.Network")
    ensures InAsciiCase(parse(id).value.resourceType, "dnszones") ==>
              IsPublic(parse, id) && Classify(parse, [id]).1.None?
              && Classify(parse, [id]).0.publicZones.zoneIds == [id]
    ensures InAsciiCase(parse(id).value.resourceType, "privatednszones") ==>
              IsPrivate(parse, id) && Classify(parse, [id]).1.None?
              && Classify(parse, [id]).0.privateZones.zoneIds == [id]
    ensures (forall i :: 0 <= i < |parse(id).value.resourceType| ==> parse(id).value.resourceType[i] as int < 128)
            && !InAsciiCase(parse(id).value.resourceType, "dnszones")
            && !InAsciiCase(parse(id).value.resourceType, "privatednszones") ==>
              Classify(parse, [id]).1 == Some(WrongType(id))
  {
    ZoneTested(parse, id);
    assert [id][..0] == [];
    assert Classify(parse, [id]) == Add(parse, Zones(NO_ZONE, NO_ZONE), id);
    AddTested(parse, Zones(NO_ZONE, NO_ZONE), id);
    hide EqualFold, ToLower, Classify;
    assert [] + [id] == [id];
  }

  /** The spelling that the portal gives: capitals in the zone type do not keep an id out. */
  lemma UsualSpelling(subscription: string, group: string, zone: string)
    requires Segment(subscription) && Segment(group) && Segment(zone)
    ensures var id := Print(Resource(subscription, group, "Microsoft.Network", "dnsZones", zone));
            Classify(Parse, [id]) == (Zones(NO_ZONE, DnsZoneConfig(subscription, group, [id])), None)
    ensures var id := Print(Resource(subscription, group, "microsoft.network", "privateDnsZones", zone));
            Classify(Parse, [id]) == (Zones(DnsZoneConfig(subscription, group, [id]), NO_ZONE), None)
  {
    Spellings();
    hide InAsciiCase, Segment, Classify, Print;
    SpelledOnce(Resource(subscription, group, "Microsoft.Network", "dnsZones", zone));
    SpelledOnce(Resource(subscription, group, "microsoft.network", "privateDnsZones", zone));
  }

  lemma Spellings()
    ensures InAsciiCase("Microsoft.Network", "Microsoft.Network")
    ensures InAsciiCase("microsoft.network", "Microsoft.Network")
    ensures InAsciiCase("dnsZones", "dnszones") && InAsciiCase("privateDnsZones", "privatednszones")
    ensures Segment("Microsoft.Network") && Segment("microsoft.network")
    ensures Segment("dnsZones") && Segment("privateDnsZones")
  {
  }

  lemma SpelledOnce(r: Resource)
    requires WellFormed(r) && InAsciiCase(r.provider, "Microsoft.Network")
    ensures InAsciiCase(r.resourceType, "dnszones") ==>
              Classify(Parse, [Print(r)]) ==
              (Zones(NO_ZONE, DnsZoneConfig(r.subscriptionId, r.resourceGroup, [Print(r)])), None)
    ensures InAsciiCase(r.resourceType, "privatednszones") ==>
              Classify(Parse, [Print(r)]) ==
              (Zones(DnsZoneConfig(r.subscriptionId, r.resourceGroup, [Print(r)]), NO_ZONE), None)
  {
    ParsePrint(r);
    AnyCase(Parse, Print(r));
    ZoneTested(Parse, Print(r));
    assert [Print(r)][..0] == [];
    assert Classify(Parse, [Print(r)]) == Add(Parse, Zones(NO_ZONE, NO_ZONE), Print(r));
    hide Classify, Parse, Print;
    assert [] + [Print(r)] == [Print(r)];
  }

  predicate SameOwner(parse: Parser, a: string, b: string)
    requires parse(a).Ok? && parse(b).Ok?
  {
    && parse(a).value.subscriptionId == parse(b).value.subscriptionId
    && parse(a).value.resourceGroup == parse(b).value.resourceGroup
  }

  // The two ids may stand in one configuration.
  predicate Agree(parse: Parser, a: string, b: string) {
    && (IsPrivate(parse, a) && IsPrivate(parse, b) ==> SameOwner(parse, a, b))
    && (IsPublic(parse, a) && IsPublic(parse, b) ==> SameOwner(parse, a, b))
  }

  ghost predicate Acceptable(parse: Parser, ids: seq<string>) {
    && (forall id :: id in ids ==> IsPrivate(parse, id) || IsPublic(parse, id))
    && (forall a, b :: a in ids && b in ids ==> Agree(parse, a, b))
  }

  // The ids of one class in the order of the list.
  function Select(parse: Parser, ids: seq<string>, zoneType: string): (zoneIds: seq<string>) {
    if ids == [] then []
    else
      var id := ids[|ids| - 1];
      var before := Select(parse, ids[..|ids| - 1], zoneType);
      if IsZone(parse, id, zoneType) then before + [id] else before
  }

  // The configuration of a class: its ids, with the subscription and group that they share.
  function Grouped(parse: Parser, zoneIds: seq<string>): DnsZoneConfig
    requires forall id :: id in zoneIds ==> parse(id).Ok?
  {
    if zoneIds == [] then NO_ZONE
    else DnsZoneConfig(parse(zoneIds[0]).value.subscriptionId, parse(zoneIds[0]).value.resourceGroup, zoneIds)
  }

  lemma {:induction false} SelectIn(parse: Parser, ids: seq<string>, zoneType: string)
    ensures forall id :: id in Select(parse, ids, zoneType) <==> id in ids && IsZone(parse, id, zoneType)
  {
    if ids != [] {
      SelectIn(parse, ids[..|ids| - 1], zoneType);
      assert ids == ids[..|ids| - 1] + [ids[|ids| - 1]];
    }
  }

  ghost function Expected(parse: Parser, ids: seq<string>): Zones {
    SelectIn(parse, ids, PRIVATE_ZONE_TYPE);
    SelectIn(parse, ids, PUBLIC_ZONE_TYPE);
    Zones(Grouped(parse, Select(parse, ids, PRIVATE_ZONE_TYPE)), Grouped(parse, Select(parse, ids, PUBLIC_ZONE_TYPE)))
  }

  // One turn of the loop from the configuration of an acceptable list.
  lemma AddExact(parse: Parser, ids: seq<string>, id: string)
    requires Proper(parse) && Acceptable(parse, ids)
    ensures var r := Add(parse, Expected(parse, ids), id);
            && (r.1.None? <==> Acceptable(parse, ids + [id]))
            && r.0 == Expected(parse, if r.1.None? then ids + [id] else ids)
  {
    var next := ids + [id];
    assert next[..|next| - 1] == ids;
    SelectIn(parse, ids, PRIVATE_ZONE_TYPE);
    SelectIn(parse, ids, PUBLIC_ZONE_TYPE);
    AddTested(parse, Expected(parse, ids), id);
    hide Add, SameWord, CapitalsOf;
    if IsPrivate(parse, id) {
      OneClass(parse, ids, id, PRIVATE_ZONE_TYPE);
      if Add(parse, Expected(parse, ids), id).1.None? {
        StoredGrouped(parse, Select(parse, ids, PRIVATE_ZONE_TYPE), id);
      }
    } else if IsPublic(parse, id) {
      OneClass(parse, ids, id, PUBLIC_ZONE_TYPE);
      if Add(parse, Expected(parse, ids), id).1.None? {
        StoredGrouped(parse, Select(parse, ids, PUBLIC_ZONE_TYPE), id);
      }
    } else {
      assert id in next;
    }
  }

  lemma StoredGrouped(parse: Parser, zoneIds: seq<string>, id: string)
    requires Proper(parse) && parse(id).Ok? && forall x :: x in zoneIds ==> parse(x).Ok?
    requires var c := Grouped(parse, zoneIds);
             ValidateSubAndRg(parse(id).value, c.subscription, c.resourceGroup, id).None?
    ensures forall x :: x in zoneIds + [id] ==> parse(x).Ok?
    ensures Grouped(parse, zoneIds + [id]) == Stored(Grouped(parse, zoneIds), parse(id).value, id)
  {
  }

  // The sentinel test against the last stored value compares with every stored id.
  lemma OneClass(parse: Parser, ids: seq<string>, id: string, zoneType: string)
    requires Proper(parse) && Acceptable(parse, ids) && IsZone(parse, id, zoneType)
    requires zoneType == PRIVATE_ZONE_TYPE || zoneType == PUBLIC_ZONE_TYPE
    requires forall x :: x in Select(parse, ids, zoneType) <==> x in ids && IsZone(parse, x, zoneType)
    ensures var c := Grouped(parse, Select(parse, ids, zoneType));
            ValidateSubAndRg(parse(id).value, c.subscription, c.resourceGroup, id).None? <==>
            Acceptable(parse, ids + [id])
  {
    var selected := Select(parse, ids, zoneType);
    if selected != [] {
      var first := selected[0];
      assert first in ids && IsZone(parse, first, zoneType);
      if SameOwner(parse, first, id) {
        forall a, b | a in ids + [id] && b in ids + [id]
          ensures Agree(parse, a, b)
        {
          assert Agree(parse, first, first);
          if a in ids { assert Agree(parse, a, first); }
          if b in ids { assert Agree(parse, first, b); }
          if a in ids && b in ids { assert Agree(parse, a, b); }
        }
      } else {
        assert !Agree(parse, first, id) && first in ids + [id] && id in ids + [id];
      }
    } else {
      forall a, b | a in ids + [id] && b in ids + [id]
        ensures Agree(parse, a, b)
      {
        if a in ids && b in ids { assert Agree(parse, a, b); }
        if a in ids { assert a !in selected; }
        if b in ids { assert b !in selected; }
      }
    }
  }

  /** The loop accepts exactly the lists in which every id is a public or private zone and the ids of
    * a class agree with each other; it then returns the order-preserving partition of the list. */
  lemma {:induction false} ClassifyExact(parse: Parser, ids: seq<string>)
    requires Proper(parse)
    ensures Classify(parse, ids).1.None? <==> Acceptable(parse, ids)
    ensures Acceptable(parse, ids) ==> Classify(parse, ids).0 == Expected(parse, ids)
  {
    if ids != [] {
      var init := ids[..|ids| - 1];
      var last := ids[|ids| - 1];
      assert ids == init + [last];
      ClassifyExact(parse, init);
      if Acceptable(parse, init) {
        AddExact(parse, init, last);
      } else {
        PrefixAcceptable(parse, init, last);
      }
    }
  }

  lemma PrefixAcceptable(parse: Parser, ids: seq<string>, id: string)
    ensures Acceptable(parse, ids + [id]) ==> Acceptable(parse, ids)
  {
    assert forall a :: a in ids ==> a in ids + [id];
  }

  // The loop stopped at this id, which is the first that makes the list unacceptable, and left the
  // configuration of the ids before it.
  ghost predicate StoppedAt(parse: Parser, ids: seq<string>, result: (Zones, Option<Error>), k: nat) {
    && k < |ids|
    && Acceptable(parse, ids[..k]) && !Acceptable(parse, ids[..k + 1])
    && result.0 == Expected(parse, ids[..k])
    && result.1.Some? && result.1.value.id == ids[k]
  }

  /** An error names the first id that makes the list unacceptable, and the configuration is then
    * that of the ids before it. */
  lemma {:induction false} ErrorPrefix(parse: Parser, ids: seq<string>)
    requires Proper(parse) && Classify(parse, ids).1.Some?
    ensures exists k: nat :: StoppedAt(parse, ids, Classify(parse, ids), k)
  {
    var init := ids[..|ids| - 1];
    if Classify(parse, init).1.Some? {
      ErrorPrefix(parse, init);
      var k: nat :| StoppedAt(parse, init, Classify(parse, init), k);
      assert Classify(parse, ids) == Classify(parse, init);
      StoppedBefore(parse, ids, |ids| - 1, Classify(parse, ids), k);
    } else {
      StoppedLast(parse, ids, init, ids[|ids| - 1]);
    }
  }

  lemma StoppedBefore(parse: Parser, ids: seq<string>, n: nat, result: (Zones, Option<Error>), k: nat)
    requires n <= |ids| && StoppedAt(parse, ids[..n], result, k)
    ensures StoppedAt(parse, ids, result, k)
  {
    assert ids[..n][..k] == ids[..k] && ids[..n][..k + 1] == ids[..k + 1];
    hide Acceptable, Expected;
  }

  lemma StoppedLast(parse: Parser, ids: seq<string>, init: seq<string>, id: string)
    requires Proper(parse) && ids == init + [id]
    requires Classify(parse, init).1.None? && Add(parse, Classify(parse, init).0, id).1.Some?
    ensures StoppedAt(parse, ids, Add(parse, Classify(parse, init).0, id), |init|)
  {
    StopsHere(parse, init, id);
    assert ids[..|init|] == init && ids[..|init| + 1] == ids;
    hide Acceptable, Expected, Add, Classify, Proper;
  }

  lemma ErrorNames(parse: Parser, z: Zones, id: string)
    ensures Add(parse, z, id).1.Some? ==> Add(parse, z, id).1.value.id == id
  {
  }

  lemma StopsHere(parse: Parser, ids: seq<string>, id: string)
    requires Proper(parse) && Classify(parse, ids).1.None? && Add(parse, Classify(parse, ids).0, id).1.Some?
    ensures Acceptable(parse, ids) && !Acceptable(parse, ids + [id])
    ensures Add(parse, Classify(parse, ids).0, id).0 == Expected(parse, ids)
    ensures Add(parse, Classify(parse, ids).0, id).1.value.id == id
  {
    ErrorNames(parse, Classify(parse, ids).0, id);
    hide Classify, Add, Proper, Expected, Acceptable;
    ClassifyExact(parse, ids);
    AddExact(parse, ids, id);
  }

  lemma {:induction false} SelectMultiset(parse: Parser, ids: seq<string>, zoneType: string, id: string)
    ensures multiset(Select(parse, ids, zoneType))[id] ==
            if IsZone(parse, id, zoneType) then multiset(ids)[id] else 0
  {
    if ids != [] {
      SelectMultiset(parse, ids[..|ids| - 1], zoneType, id);
      assert ids == ids[..|ids| - 1] + [ids[|ids| - 1]];
    }
  }

  lemma SelectPermuted(parse: Parser, a: seq<string>, b: seq<string>, zoneType: string)
    requires multiset(a) == multiset(b)
    ensures multiset(Select(parse, a, zoneType)) == multiset(Select(parse, b, zoneType))
  {
    forall id: string
      ensures multiset(Select(parse, a, zoneType))[id] == multiset(Select(parse, b, zoneType))[id]
    {
      SelectMultiset(parse, a, zoneType, id);
      SelectMultiset(parse, b, zoneType, id);
    }
  }

  predicate SameUpToOrder(a: DnsZoneConfig, b: DnsZoneConfig) {
    a.subscription == b.subscription && a.resourceGroup == b.resourceGroup && multiset(a.zoneIds) == multiset(b.zoneIds)
  }

  /** Permuting the list changes neither whether it is accepted nor, up to the order of the ids, the
    * configuration. */
  lemma PermutationInvariant(parse: Parser, a: seq<string>, b: seq<string>)
    requires Proper(parse) && multiset(a) == multiset(b)
    ensures Classify(parse, a).1.None? <==> Classify(parse, b).1.None?
    ensures Classify(parse, a).1.None? ==>
              && SameUpToOrder(Classify(parse, a).0.privateZones, Classify(parse, b).0.privateZones)
              && SameUpToOrder(Classify(parse, a).0.publicZones, Classify(parse, b).0.publicZones)
  {
    assert forall id :: id in a <==> id in multiset(a);
    assert forall id :: id in b <==> id in multiset(b);
    assert Acceptable(parse, a) <==> Acceptable(parse, b);
    ClassifyExact(parse, a);
    ClassifyExact(parse, b);
    if Acceptable(parse, a) {
      GroupedPermuted(parse, a, b, PRIVATE_ZONE_TYPE);
      GroupedPermuted(parse, a, b, PUBLIC_ZONE_TYPE);
    }
  }

  lemma GroupedPermuted(parse: Parser, a: seq<string>, b: seq<string>, zoneType: string)
    requires multiset(a) == multiset(b) && Acceptable(parse, a)
    requires zoneType == PRIVATE_ZONE_TYPE || zoneType == PUBLIC_ZONE_TYPE
    ensures var x, y := Select(parse, a, zoneType), Select(parse, b, zoneType);
            && (forall id :: id in x || id in y ==> parse(id).Ok?)
            && SameUpToOrder(Grouped(parse, x), Grouped(parse, y))
  {
    SelectIn(parse, a, zoneType);
    SelectIn(parse, b, zoneType);
    SelectPermuted(parse, a, b, zoneType);
    var x, y := Select(parse, a, zoneType), Select(parse, b, zoneType);
    assert forall id :: id in b ==> id in multiset(b) && id in multiset(a) && id in a;
    assert |x| == |multiset(x)| == |multiset(y)| == |y|;
    if x != [] {
      assert x[0] in multiset(x) && x[0] in multiset(y);
      assert Agree(parse, x[0], y[0]);
    }
  }

  /** Joining the accepted private and public ids with commas and parsing them again gives the same
    * configuration. */
  lemma RoundTrip(parse: Parser, zones: string)
    requires Proper(parse) && Classify(parse, Split(zones, ',')).1.None?
    ensures var z := Classify(parse, Split(zones, ',')).0;
            Classify(parse, Split(Join(z.privateZones.zoneIds + z.publicZones.zoneIds, ','), ',')) == (z, None)
  {
    var ids := Split(zones, ',');
    ClassifyExact(parse, ids);
    SplitFree(zones, ',');
    var x, y := Select(parse, ids, PRIVATE_ZONE_TYPE), Select(parse, ids, PUBLIC_ZONE_TYPE);
    Resorted(parse, ids, x, y);
    hide Select, Acceptable, Grouped, Split, Join;
    SplitJoin(x + y, ',');
    ClassifyExact(parse, x + y);
  }

  // The private ids followed by the public ones are acceptable if the list is, and are sorted into
  // the same classes.
  lemma Resorted(parse: Parser, ids: seq<string>, x: seq<string>, y: seq<string>)
    requires Acceptable(parse, ids) && |ids| > 0
    requires x == Select(parse, ids, PRIVATE_ZONE_TYPE) && y == Select(parse, ids, PUBLIC_ZONE_TYPE)
    ensures |x + y| > 0 && (forall i :: 0 <= i < |x + y| ==> (x + y)[i] in ids)
    ensures Acceptable(parse, x + y)
    ensures Select(parse, x + y, PRIVATE_ZONE_TYPE) == x && Select(parse, x + y, PUBLIC_ZONE_TYPE) == y
  {
    SelectIn(parse, ids, PRIVATE_ZONE_TYPE);
    SelectIn(parse, ids, PUBLIC_ZONE_TYPE);
    hide Select;
    Regathered(parse, ids, x, y);
    hide Acceptable;
    SelectConcat(parse, x, y, PRIVATE_ZONE_TYPE);
    SelectConcat(parse, x, y, PUBLIC_ZONE_TYPE);
    SelectAll(parse, x, PRIVATE_ZONE_TYPE);
    SelectNone(parse, y, PRIVATE_ZONE_TYPE);
    SelectNone(parse, x, PUBLIC_ZONE_TYPE);
    SelectAll(parse, y, PUBLIC_ZONE_TYPE);
  }

  lemma Regathered(parse: Parser, ids: seq<string>, x: seq<string>, y: seq<string>)
    requires Acceptable(parse, ids) && |ids| > 0
    requires forall id :: id in x <==> id in ids && IsZone(parse, id, PRIVATE_ZONE_TYPE)
    requires forall id :: id in y <==> id in ids && IsZone(parse, id, PUBLIC_ZONE_TYPE)
    ensures Acceptable(parse, x + y) && |x + y| > 0 && forall i :: 0 <= i < |x + y| ==> (x + y)[i] in ids
    ensures forall id :: id in x ==> !IsZone(parse, id, PUBLIC_ZONE_TYPE)
    ensures forall id :: id in y ==> !IsZone(parse, id, PRIVATE_ZONE_TYPE)
  {
    assert ids[0] in ids && (ids[0] in x || ids[0] in y);
    assert forall id :: id in x + y ==> id in ids;
    assert PRIVATE_ZONE_TYPE != PUBLIC_ZONE_TYPE;
  }

  lemma {:induction false} SelectConcat(parse: Parser, a: seq<string>, b: seq<string>, zoneType: string)
    ensures Select(parse, a + b, zoneType) == Select(parse, a, zoneType) + Select(parse, b, zoneType)
  {
    if b == [] {
      assert a + b == a;
    } else {
      var n := |b| - 1;
      SelectConcat(parse, a, b[..n], zoneType);
      assert (a + b)[..|a + b| - 1] == a + b[..n];
    }
  }

  lemma {:induction false} SelectAll(parse: Parser, ids: seq<string>, zoneType: string)
    requires forall id :: id in ids ==> IsZone(parse, id, zoneType)
    ensures Select(parse, ids, zoneType) == ids
  {
    if ids != [] {
      SelectAll(parse, ids[..|ids| - 1], zoneType);
    }
  }

  lemma {:induction false} SelectNone(parse: Parser, ids: seq<string>, zoneType: string)
    requires forall id :: id in ids ==> !IsZone(parse, id, zoneType)
    ensures Select(parse, ids, zoneType) == []
  {
    if ids != [] {
      SelectNone(parse, ids[..|ids| - 1], zoneType);
    }
  }

  // A parser that returns an empty subscription breaks the sentinel: the test sees no stored value.
  lemma EmptySubscriptionSlipsThrough(parse: Parser, a: string, b: string)
    requires IsPublic(parse, a) && IsPublic(parse, b)
    requires parse(a).value.subscriptionId == "" && parse(b).value.subscriptionId != ""
    requires parse(a).value.resourceGroup == parse(b).value.resourceGroup
    ensures Classify(parse, [a, b]).1.None? && Classify(parse, [b, a]).1.Some?
    ensures !Acceptable(parse, [a, b])
  {
    AddTested(parse, Zones(NO_ZONE, NO_ZONE), a);
    AddTested(parse, Zones(NO_ZONE, NO_ZONE), b);
    AddTested(parse, Add(parse, Zones(NO_ZONE, NO_ZONE), a).0, b);
    AddTested(parse, Add(parse, Zones(NO_ZONE, NO_ZONE), b).0, a);
    hide Add, SameWord, CapitalsOf;
    assert [a, b][..1] == [a] && [a][..0] == [];
    assert [b, a][..1] == [b] && [b][..0] == [];
    assert Classify(parse, [a]) == Add(parse, Zones(NO_ZONE, NO_ZONE), a);
    assert Classify(parse, [b]) == Add(parse, Zones(NO_ZONE, NO_ZONE), b);
    assert a in [a, b] && b in [a, b] && !Agree(parse, a, b);
  }

  // The parser for canonical ids is one of the parsers covered.
  lemma ParseProper()
    ensures Proper(Parse)
  {
  }

  /******* The configuration object *******/

  datatype FlagError =
    | NoNamespace | NoRegistry | NoMsi | NoTenantId | NoCloud | NoLocation
    | LowThreshold | FewVotes | NoClusterUid
    | BadZones(error: Error)

  const DEFAULT_DNS_SYNC_INTERVAL := 180_000_000_000

  class Config {
    var ns: string
    var registry: string
    var msiClientID: string
    var tenantID: string
    var cloud: string
    var location: string
    var clusterUid: string
    var concurrencyWatchdogThres: real
    var concurrencyWatchdogVotes: int
    var dnsSyncInterval: int
    var privateZoneConfig: DnsZoneConfig
    var publicZoneConfig: DnsZoneConfig

    constructor ()
    {
      ns, registry, msiClientID, tenantID, cloud, location, clusterUid := "", "", "", "", "", "", "";
      concurrencyWatchdogThres, concurrencyWatchdogVotes, dnsSyncInterval := 0.0, 0, 0;
      privateZoneConfig, publicZoneConfig := NO_ZONE, NO_ZONE;
    }

    function View(): Zones
      reads this
    {
      Zones(privateZoneConfig, publicZoneConfig)
    }

    // The body of the loop over the ids.
    method AddZone(parse: Parser, zoneId: string) returns (err: Option<Error>)
      modifies this`privateZoneConfig, this`publicZoneConfig
      ensures (View(), err) == Add(parse, old(View()), zoneId)
    {
      var parsed := parse(zoneId);
      err := None;
      if parsed.Err? {
        err := Some(NotParsed(zoneId));
      } else if !EqualFold(parsed.value.provider, NETWORK_PROVIDER) {
        err := Some(WrongProvider(zoneId));
      } else if ToLower(parsed.value.resourceType) == PRIVATE_ZONE_TYPE {
        err := ValidateSubAndRg(parsed.value, privateZoneConfig.subscription, privateZoneConfig.resourceGroup, zoneId);
        if err.None? {
          privateZoneConfig := Stored(privateZoneConfig, parsed.value, zoneId);
        }
      } else if ToLower(parsed.value.resourceType) == PUBLIC_ZONE_TYPE {
        err := ValidateSubAndRg(parsed.value, publicZoneConfig.subscription, publicZoneConfig.resourceGroup, zoneId);
        if err.None? {
          publicZoneConfig := Stored(publicZoneConfig, parsed.value, zoneId);
        }
      } else {
        err := Some(WrongType(zoneId));
      }
    }

    /** Whatever the configuration was before, it becomes the classification of the list. */
    method ParseAndValidateZoneIDs(parse: Parser, zonesString: string) returns (err: Option<Error>)
      modifies this`privateZoneConfig, this`publicZoneConfig
      ensures (View(), err) == Classify(parse, Split(zonesString, ','))
      ensures Proper(parse) ==> (err.None? <==> Acceptable(parse, Split(zonesString, ',')))
    {
      privateZoneConfig := NO_ZONE;
      publicZoneConfig := NO_ZONE;
      var ids := Split(zonesString, ',');
      if Proper(parse) {
        ClassifyExact(parse, ids);
      }
      assert ids[..0] == [];
      hide Proper, Acceptable, Add;
      for i := 0 to |ids|
        invariant (View(), None) == Classify(parse, ids[..i])
      {
        OneMore(parse, ids, i);
        err := AddZone(parse, ids[i]);
        if err.Some? {
          StopsAt(parse, ids, i + 1);
          return;
        }
      }
      assert ids[..|ids|] == ids;
      err := None;
    }

    // The flags that `Validate` looks at before it parses the zones, in its order, with the error
    // for each.
    function Flags(): seq<(bool, FlagError)>
      reads this
    {
      [(ns != "", NoNamespace), (registry != "", NoRegistry), (msiClientID != "", NoMsi),
       (tenantID != "", NoTenantId), (cloud != "", NoCloud), (location != "", NoLocation),
       (concurrencyWatchdogThres > 100.0, LowThreshold), (concurrencyWatchdogVotes >= 1, FewVotes),
       (clusterUid != "", NoClusterUid)]
    }

    /** Validate succeeds exactly when the flags are set and the zone list, if there is one, is
      * accepted. Otherwise the error is that of the first flag that is not, or the error of the list.
      * The zones are touched only if the flags are set and there is a list. */
    method Validate(parse: Parser, dnsZonesString: string) returns (err: Option<FlagError>)
      modifies this`privateZoneConfig, this`publicZoneConfig, this`dnsSyncInterval
      ensures FirstFault(old(Flags())).Some? ==> err == FirstFault(old(Flags()))
      ensures FirstFault(old(Flags())).None? && dnsZonesString == "" ==> err.None?
      ensures FirstFault(old(Flags())).None? && dnsZonesString != "" ==>
                var zoneErr := Classify(parse, Split(dnsZonesString, ',')).1;
                err == if zoneErr.Some? then Some(BadZones(zoneErr.value)) else None
      ensures err == Some(NoNamespace) <==> old(ns) == ""
      ensures err == Some(NoRegistry) ==> old(ns) != "" && old(registry) == ""
      ensures err == Some(NoMsi) ==> old(ns) != "" && old(registry) != "" && old(msiClientID) == ""
      ensures err == Some(NoTenantId) ==> old(registry) != "" && old(msiClientID) != "" && old(tenantID) == ""
      ensures err == Some(NoCloud) ==> old(msiClientID) != "" && old(tenantID) != "" && old(cloud) == ""
      ensures err == Some(NoLocation) ==> old(tenantID) != "" && old(cloud) != "" && old(location) == ""
      ensures err == Some(LowThreshold) ==>
                old(cloud) != "" && old(location) != "" && old(concurrencyWatchdogThres) <= 100.0
      ensures err == Some(FewVotes) ==>
                old(location) != "" && old(concurrencyWatchdogThres) > 100.0 && old(concurrencyWatchdogVotes) < 1
      ensures err == Some(NoClusterUid) ==>
                old(concurrencyWatchdogThres) > 100.0 && old(concurrencyWatchdogVotes) >= 1 && old(clusterUid) == ""
      ensures err.None? || err.value.BadZones? <==>
                && old(ns) != "" && old(registry) != "" && old(msiClientID) != "" && old(tenantID) != ""
                && old(cloud) != "" && old(location) != "" && old(concurrencyWatchdogThres) > 100.0
                && old(concurrencyWatchdogVotes) >= 1 && old(clusterUid) != ""
      ensures View() ==
              if FirstFault(old(Flags())).None? && dnsZonesString != "" then
                Classify(parse, Split(dnsZonesString, ',')).0
              else old(View())
      ensures dnsSyncInterval ==
              if err.None? && old(dnsSyncInterval) <= 0 then 3 * 60 * 1_000_000_000 else old(dnsSyncInterval)
    {
      ghost var flags := Flags();
      hide FirstFault;
      if ns == "" { FirstAt(flags, 0); return Some(NoNamespace); }
      if registry == "" { FirstAt(flags, 1); return Some(NoRegistry); }
      if msiClientID == "" { FirstAt(flags, 2); return Some(NoMsi); }
      if tenantID == "" { FirstAt(flags, 3); return Some(NoTenantId); }
      if cloud == "" { FirstAt(flags, 4); return Some(NoCloud); }
      if location == "" { FirstAt(flags, 5); return Some(NoLocation); }
      if concurrencyWatchdogThres <= 100.0 { FirstAt(flags, 6); return Some(LowThreshold); }
      if concurrencyWatchdogVotes < 1 { FirstAt(flags, 7); return Some(FewVotes); }
      if clusterUid == "" { FirstAt(flags, 8); return Some(NoClusterUid); }
      FaultFound(flags);
      if dnsZonesString != "" {
        var zoneErr := ParseAndValidateZoneIDs(parse, dnsZonesString);
        if zoneErr.Some? {
          return Some(BadZones(zoneErr.value));
        }
      }
      if dnsSyncInterval <= 0 {
        dnsSyncInterval := DEFAULT_DNS_SYNC_INTERVAL;
      }
      err := None;
    }
  }

  lemma OneMore(parse: Parser, ids: seq<string>, i: nat)
    requires i < |ids| && Classify(parse, ids[..i]).1.None?
    ensures Classify(parse, ids[..i + 1]) == Add(parse, Classify(parse, ids[..i]).0, ids[i])
  {
    assert ids[..i + 1][..i] == ids[..i];
  }

  // The error of the first flag that is not as it should be.
  function FirstFault(flags: seq<(bool, FlagError)>): Option<FlagError> {
    if flags == [] then None
    else if !flags[0].0 then Some(flags[0].1)
    else FirstFault(flags[1..])
  }

  /** No fault means that every flag is set; otherwise the fault is that of the first which is not. */
  lemma {:induction false} FaultFound(flags: seq<(bool, FlagError)>)
    ensures FirstFault(flags).None? <==> forall i :: 0 <= i < |flags| ==> flags[i].0
    ensures FirstFault(flags).Some? ==>
              exists i :: 0 <= i < |flags| && !flags[i].0 && FirstFault(flags) == Some(flags[i].1)
                && forall j :: 0 <= j < i ==> flags[j].0
  {
    if flags != [] {
      FaultFound(flags[1..]);
      if flags[0].0 && FirstFault(flags).Some? {
        var i :| 0 <= i < |flags| - 1 && !flags[1..][i].0 && FirstFault(flags[1..]) == Some(flags[1..][i].1)
                 && forall j :: 0 <= j < i ==> flags[1..][j].0;
        assert !flags[i + 1].0;
        assert forall j :: 0 < j <= i ==> flags[j] == flags[1..][j - 1];
      }
    }
  }

  lemma {:induction false} FirstAt(flags: seq<(bool, FlagError)>, i: nat)
    requires i < |flags| && !flags[i].0 && forall j :: 0 <= j < i ==> flags[j].0
    ensures FirstFault(flags) == Some(flags[i].1)
  {
    if i > 0 {
      FirstAt(flags[1..], i - 1);
    }
  }

  // Nothing after the first error counts.
  lemma {:induction false} StopsAt(parse: Parser, ids: seq<string>, k: nat)
    requires k <= |ids| && Classify(parse, ids[..k]).1.Some?
    ensures Classify(parse, ids) == Classify(parse, ids[..k])
    decreases |ids|
  {
    if k == |ids| {
      assert ids[..k] == ids;
    } else {
      assert ids[..|ids| - 1][..k] == ids[..k];
      StopsAt(parse, ids[..|ids| - 1], k);
    }
  }
}
