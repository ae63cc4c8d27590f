/** The waiting loops: `WaitForExternalDns` of tests/testingResources.go and the record pollers of
  * suites/basic.go and suites/privatedns_tests.go.
  *
  * A clock gives the time of each reading, in nanoseconds. Nothing is known of it but that it does
  * not go back and that a sleep of two seconds takes at least that long.
  */
module Polling {
  import opened Wrappers
  import opened Text

  const SECOND := 1_000_000_000

  type Clock = nat -> int

  // Reading 0 sets the deadline; the loop takes the others, with a sleep between two of them.
  ghost predicate Ticks(now: Clock) {
    && now(0) <= now(1)
    && forall k: nat :: k > 0 ==> now(k) + 2 * SECOND <= now(k + 1)
  }

  lemma {:induction false} TimePassed(now: Clock, k: nat)
    requires Ticks(now)
    ensures now(0) + 2 * SECOND * k <= now(k + 1)
  {
    if k > 0 {
      TimePassed(now, k - 1);
    }
  }

  /******* Readiness *******/

  // The answer to `kubectl get deploy`.
  datatype Fetch = NotFetched | NotJson | Deployed(availableReplicas: int)

  datatype ReadyError = NoDeployment | BadJson | NotReady | NotRunning

  /** Returns nil exactly when the one deployment fetched has an available replica. Otherwise it
    * gives up as soon as it sees the deadline passed, after a bounded number of sleeps, and never with
    * the error for a pod that is not running: nothing in the loop fetches the deployment again. */
  method WaitForExternalDns(numSeconds: nat, fetch: Fetch, now: Clock) returns (err: Option<ReadyError>, sleeps: nat)
    requires Ticks(now)
    ensures err.None? <==> fetch.Deployed? && fetch.availableReplicas >= 1
    ensures err == Some(NoDeployment) <==> fetch.NotFetched?
    ensures err == Some(BadJson) <==> fetch.NotJson?
    ensures err != Some(NotRunning)
    ensures err == Some(NotReady) ==> now(sleeps + 1) > now(0) + numSeconds * 1_000_000_000
    ensures sleeps > 0 ==> now(sleeps) <= now(0) + numSeconds * 1_000_000_000
    ensures sleeps <= numSeconds / 2 + 1
  {
    sleeps := 0;
    if fetch.NotFetched? {
      return Some(NoDeployment), 0;
    }
    if fetch.NotJson? {
      return Some(BadJson), 0;
    }
    var extDnsReady := true;
    var timeout := now(0) + numSeconds * SECOND;
    var i := 0;
    while fetch.availableReplicas < 1
      invariant sleeps == i <= numSeconds / 2 + 1
      invariant i > 0 ==> fetch.availableReplicas < 1
      invariant extDnsReady || i > 0
      invariant i > 0 ==> now(i) <= timeout
      decreases numSeconds / 2 + 1 - i
    {
      TimePassed(now, i);
      if now(i + 1) > timeout {
        return Some(NotReady), sleeps;
      }
      sleeps := sleeps + 1;
      i := i + 1;
      if i >= 5 {
        extDnsReady := false;
      }
    }
    if extDnsReady {
      err := None;
    } else {
      err := Some(NotRunning);
    }
  }

  /******* Records *******/

  datatype RecordType = A | AAAA | OtherType

  datatype Record = Record(fqdn: string, aRecords: seq<string>, aaaaRecords: seq<string>)

  // The answer to one listing. Broken is an error of the pager, which ends the process.
  datatype Page = NoPage | Broken | Records(records: seq<Record>)

  datatype Verdict =
    | Found
    | Unready | NoCredentials | TimedOut | UnknownType | NotCreated
    | Panicked   // index out of range in an empty address list
    | Halted     // log.Fatal

  function Addresses(recordType: RecordType, r: Record): seq<string> {
    match recordType
    case A => r.aRecords
    case AAAA => r.aaaaRecords
    case OtherType => []
  }

  // The name without the dots at its ends is the zone, and the first address is the service's.
  predicate Matches(recordType: RecordType, r: Record, zone: string, ip: string) {
    && Addresses(recordType, r) != []
    && Trimmed(r.fqdn, '.', zone)
    && Addresses(recordType, r)[0] == ip
  }

  // A record that matches, with only records that have an address before it.
  predicate FoundIn(recordType: RecordType, rs: seq<Record>, zone: string, ip: string) {
    exists k :: 0 <= k < |rs| && Matches(recordType, rs[k], zone, ip)
      && forall j :: 0 <= j < k ==> Addresses(recordType, rs[j]) != []
  }

  // A record without an address, with no record that matches before it.
  predicate BareIn(recordType: RecordType, rs: seq<Record>, zone: string, ip: string) {
    exists k :: 0 <= k < |rs| && Addresses(recordType, rs[k]) == []
      && forall j :: 0 <= j < k ==> !Matches(recordType, rs[j], zone, ip)
  }

  // The full name of a zone ends with a dot.
  lemma DottedName(zone: string)
    requires zone == "" || (zone[0] != '.' && zone[|zone| - 1] != '.')
    ensures Trimmed(zone + ".", '.', zone)
  {
    var s := zone + ".";
    assert s[0..|zone|] == zone;
    assert Middle(s, '.', 0, |zone|);
  }

  // What a page with these records comes to.
  predicate Judged(recordType: RecordType, rs: seq<Record>, zone: string, ip: string, v: Verdict) {
    match v
    case UnknownType => recordType.OtherType?
    case Found => FoundIn(recordType, rs, zone, ip)
    case Panicked => !recordType.OtherType? && BareIn(recordType, rs, zone, ip)
    case NotCreated =>
      && !recordType.OtherType?
      && forall k :: 0 <= k < |rs| ==>
           Addresses(recordType, rs[k]) != [] && !Matches(recordType, rs[k], zone, ip)
    case _ => false
  }

  /** A page with records has one verdict: the first record that matches or has no address decides. */
  lemma JudgedOnce(recordType: RecordType, rs: seq<Record>, zone: string, ip: string, v: Verdict, v': Verdict)
    requires rs != [] && Judged(recordType, rs, zone, ip, v) && Judged(recordType, rs, zone, ip, v')
    ensures v == v'
  {
  }

  // The loop over the records of a page.
  method Examine(recordType: RecordType, rs: seq<Record>, zone: string, ip: string) returns (v: Verdict)
    requires rs != []
    ensures Judged(recordType, rs, zone, ip, v)
  {
    for i := 0 to |rs|
      invariant recordType.OtherType? ==> i == 0
      invariant forall j :: 0 <= j < i ==>
                  Addresses(recordType, rs[j]) != [] && !Matches(recordType, rs[j], zone, ip)
    {
      var currZoneName := Trim(rs[i].fqdn, '.');
      TrimExact(rs[i].fqdn, '.', zone);
      if recordType.OtherType? {
        return UnknownType;
      }
      var addresses := if recordType.A? then rs[i].aRecords else rs[i].aaaaRecords;
      if addresses == [] {
        return Panicked;
      }
      if currZoneName == zone && addresses[0] == ip {
        assert Matches(recordType, rs[i], zone, ip);
        return Found;
      }
    }
    v := NotCreated;
  }

  predicate EmptyPage(p: Page) { p.NoPage? || (p.Records? && p.records == []) }

  // The loop gets to this poll before the deadline.
  predicate InTime(now: Clock, numSeconds: nat, j: nat) { now(j + 1) <= now(0) + numSeconds * SECOND }

  // The poll with this number is made, and no poll before it got records.
  ghost predicate Reached(now: Clock, pages: nat -> Page, numSeconds: nat, k: nat) {
    && (forall j: nat :: j <= k ==> InTime(now, numSeconds, j))
    && (forall j: nat :: j < k ==> EmptyPage(pages(j)))
  }

  // The first page with records comes in time and holds the record.
  ghost predicate Appears(
    now: Clock, pages: nat -> Page, numSeconds: nat, recordType: RecordType, zone: string, ip: string)
  {
    exists k: nat :: Reached(now, pages, numSeconds, k) && pages(k).Records? && pages(k).records != []
      && FoundIn(recordType, pages(k).records, zone, ip)
  }

  // The poll that ends the loop: the first whose page is not empty, if it comes in time.
  ghost predicate Decides(now: Clock, pages: nat -> Page, numSeconds: nat, k: nat) {
    Reached(now, pages, numSeconds, k) && !EmptyPage(pages(k))
  }

  lemma DecidesOnce(now: Clock, pages: nat -> Page, numSeconds: nat, k: nat, k': nat)
    requires Decides(now, pages, numSeconds, k) && Decides(now, pages, numSeconds, k')
    ensures k == k'
  {
  }

  // How the poller ends, for each of its outcomes.
  ghost predicate EndsWith(
    fetch: Fetch, credentials: bool, now: Clock, pages: nat -> Page,
    recordType: RecordType, zone: string, numSeconds: nat, ip: string, v: Verdict)
  {
    if !fetch.Deployed? || fetch.availableReplicas < 1 then v == Unready
    else if !credentials then v == NoCredentials
    else if v.TimedOut? then forall k: nat :: !Decides(now, pages, numSeconds, k)
    else exists k: nat :: Decides(now, pages, numSeconds, k) && PageEnds(pages(k), recordType, zone, ip, v)
  }

  // An error of the pager ends the process; records are examined.
  predicate PageEnds(page: Page, recordType: RecordType, zone: string, ip: string, v: Verdict) {
    match page
    case NoPage => false
    case Broken => v == Halted
    case Records(records) => records != [] && Judged(recordType, records, zone, ip, v)
  }

  /** Each case has one outcome, so a method that promises `EndsWith` says exactly when it ends in each
    * of them; and success is what `Appears` says. */
  lemma EndsOnce(
    fetch: Fetch, credentials: bool, now: Clock, pages: nat -> Page,
    recordType: RecordType, zone: string, numSeconds: nat, ip: string, v: Verdict)
    requires EndsWith(fetch, credentials, now, pages, recordType, zone, numSeconds, ip, v)
    ensures forall v' :: EndsWith(fetch, credentials, now, pages, recordType, zone, numSeconds, ip, v') <==> v' == v
    ensures v.Found? <==>
              && fetch.Deployed? && fetch.availableReplicas >= 1 && credentials
              && Appears(now, pages, numSeconds, recordType, zone, ip)
  {
    forall v' | EndsWith(fetch, credentials, now, pages, recordType, zone, numSeconds, ip, v')
      ensures v' == v
    {
      if fetch.Deployed? && fetch.availableReplicas >= 1 && credentials {
        if !v.TimedOut? && !v'.TimedOut? {
          var k: nat :| Decides(now, pages, numSeconds, k) && PageEnds(pages(k), recordType, zone, ip, v);
          var k': nat :| Decides(now, pages, numSeconds, k') && PageEnds(pages(k'), recordType, zone, ip, v');
          DecidesOnce(now, pages, numSeconds, k, k');
          if pages(k).Records? {
            JudgedOnce(recordType, pages(k).records, zone, ip, v, v');
          }
        }
      }
    }
    if fetch.Deployed? && fetch.availableReplicas >= 1 && credentials {
      if Appears(now, pages, numSeconds, recordType, zone, ip) {
        var k: nat :| Reached(now, pages, numSeconds, k) && pages(k).Records? && pages(k).records != []
                      && FoundIn(recordType, pages(k).records, zone, ip);
        assert Decides(now, pages, numSeconds, k) && PageEnds(pages(k), recordType, zone, ip, Found);
        assert EndsWith(fetch, credentials, now, pages, recordType, zone, numSeconds, ip, Found);
      }
    }
  }

  /** The outcomes other than success: not ready and no credentials come first; the process ends
    * exactly on a broken first page, and the poller times out exactly if no page in time is broken or
    * has records. */
  lemma OutcomesExact(
    fetch: Fetch, credentials: bool, now: Clock, pages: nat -> Page,
    recordType: RecordType, zone: string, numSeconds: nat, ip: string, v: Verdict)
    requires EndsWith(fetch, credentials, now, pages, recordType, zone, numSeconds, ip, v) && Ticks(now)
    ensures v == Unready <==> !fetch.Deployed? || fetch.availableReplicas < 1
    ensures v == NoCredentials <==> fetch.Deployed? && fetch.availableReplicas >= 1 && !credentials
    ensures v == Halted <==>
              && fetch.Deployed? && fetch.availableReplicas >= 1 && credentials
              && exists k: nat :: FirstBroken(now, pages, numSeconds, k)
    ensures v == TimedOut <==>
              && fetch.Deployed? && fetch.availableReplicas >= 1 && credentials
              && forall k: nat :: now(k + 1) <= now(0) + numSeconds * 1_000_000_000 ==>
                   pages(k) == NoPage || pages(k) == Records([])
  {
    if fetch.Deployed? && fetch.availableReplicas >= 1 && credentials {
      if v.TimedOut? {
        TimesOut(now, pages, numSeconds);
      } else {
        var k: nat :| Decides(now, pages, numSeconds, k) && PageEnds(pages(k), recordType, zone, ip, v);
        BreaksAt(now, pages, numSeconds, k);
        assert InTime(now, numSeconds, k);
      }
    }
  }

  // This poll is in time and its page is broken, after pages without records.
  ghost predicate FirstBroken(now: Clock, pages: nat -> Page, numSeconds: nat, k: nat) {
    && now(k + 1) <= now(0) + numSeconds * 1_000_000_000
    && (forall j: nat :: j < k ==> pages(j) == NoPage || pages(j) == Records([]))
    && pages(k) == Broken
  }

  // A poll that is in time is one of which all before it are.
  lemma {:induction false} AllInTime(now: Clock, numSeconds: nat, k: nat)
    requires Ticks(now) && now(k + 1) <= now(0) + numSeconds * 1_000_000_000
    ensures forall j: nat :: j <= k ==> InTime(now, numSeconds, j)
  {
    if k > 0 {
      assert now(k) + 2 * SECOND <= now(k + 1);
      AllInTime(now, numSeconds, k - 1);
    }
  }

  // The poll that decides is broken exactly when some poll is the first to be broken.
  lemma BreaksAt(now: Clock, pages: nat -> Page, numSeconds: nat, k: nat)
    requires Ticks(now) && Decides(now, pages, numSeconds, k)
    ensures (exists k': nat :: FirstBroken(now, pages, numSeconds, k')) <==> pages(k).Broken?
  {
    assert InTime(now, numSeconds, k);
    if pages(k).Broken? {
      assert FirstBroken(now, pages, numSeconds, k);
    }
    forall k': nat | FirstBroken(now, pages, numSeconds, k')
      ensures k' == k
    {
      AllInTime(now, numSeconds, k');
      DecidesOnce(now, pages, numSeconds, k, k');
    }
  }

  lemma TimesOut(now: Clock, pages: nat -> Page, numSeconds: nat)
    requires Ticks(now) && forall k: nat :: !Decides(now, pages, numSeconds, k)
    ensures forall k: nat :: !FirstBroken(now, pages, numSeconds, k)
    ensures forall k: nat :: now(k + 1) <= now(0) + numSeconds * 1_000_000_000 ==>
              pages(k) == NoPage || pages(k) == Records([])
  {
    forall k: nat | now(k + 1) <= now(0) + numSeconds * 1_000_000_000
      ensures EmptyPage(pages(k))
    {
      AllInTime(now, numSeconds, k);
      NothingInTime(now, pages, numSeconds, k);
    }
  }

  lemma {:induction false} NothingInTime(now: Clock, pages: nat -> Page, numSeconds: nat, k: nat)
    requires forall i: nat :: !Decides(now, pages, numSeconds, i)
    requires forall j: nat :: j <= k ==> InTime(now, numSeconds, j)
    ensures forall j: nat :: j <= k ==> EmptyPage(pages(j))
  {
    if k > 0 {
      NothingInTime(now, pages, numSeconds, k - 1);
    }
    assert Reached(now, pages, numSeconds, k);
    assert !Decides(now, pages, numSeconds, k);
  }

  // No poll is reached after the deadline.
  lemma NoneAfter(now: Clock, pages: nat -> Page, numSeconds: nat, i: nat, k: nat)
    requires Reached(now, pages, numSeconds, k)
    requires !InTime(now, numSeconds, i)
    ensures k < i
  {
  }

  /** The poller, for any kind of zone. It makes at most one poll for every two seconds and one more,
    * whatever the clock does, and each of its outcomes comes in exactly one case (`EndsOnce`): it
    * succeeds exactly when ExternalDNS is ready, there are credentials, and the first page with
    * records comes before the deadline and holds a matching record. */
  method AwaitRecord(
    fetch: Fetch, readyNow: Clock, credentials: bool, now: Clock, pages: nat -> Page,
    recordType: RecordType, zone: string, numSeconds: nat, ip: string) returns (v: Verdict, polls: nat)
    requires Ticks(readyNow) && Ticks(now)
    ensures polls <= numSeconds / 2 + 1
    ensures EndsWith(fetch, credentials, now, pages, recordType, zone, numSeconds, ip, v)
  {
    polls := 0;
    var err, _ := WaitForExternalDns(10, fetch, readyNow);
    if err.Some? {
      return Unready, 0;
    }
    if !credentials {
      return NoCredentials, 0;
    }
    var timeout := now(0) + numSeconds * SECOND;
    while true
      invariant polls <= numSeconds / 2 + 1 && timeout == now(0) + numSeconds * SECOND
      invariant forall j: nat :: j < polls ==> EmptyPage(pages(j)) && InTime(now, numSeconds, j)
      decreases numSeconds / 2 + 1 - polls
    {
      TimePassed(now, polls);
      if now(polls + 1) > timeout {
        forall k: nat | Reached(now, pages, numSeconds, k)
          ensures EmptyPage(pages(k))
        {
          NoneAfter(now, pages, numSeconds, polls, k);
        }
        return TimedOut, polls;
      }
      assert Reached(now, pages, numSeconds, polls);
      var page := pages(polls);
      ghost var k := polls;
      polls := polls + 1;
      if page.Broken? {
        assert Decides(now, pages, numSeconds, k) && PageEnds(pages(k), recordType, zone, ip, Halted);
        return Halted, polls;
      }
      if page.Records? && page.records != [] {
        v := Examine(recordType, page.records, zone, ip);
        assert Decides(now, pages, numSeconds, k) && PageEnds(pages(k), recordType, zone, ip, v);
        return;
      }
    }
  }

  // The deployment that serves each kind of zone.
  const PUBLIC_DEPLOYMENT := "external-dns"
  const PRIVATE_DEPLOYMENT := "external-dns-private"

  // The world as a test sees it.
  datatype World = World(
    deployments: string -> Fetch, readyNow: Clock, credentials: bool, now: Clock, pages: nat -> Page)

  // What both validators promise.
  ghost predicate Validated(
    w: World, deployment: string, recordType: RecordType, zone: string, numSeconds: nat, ip: string)
  {
    && w.deployments(deployment).Deployed? && w.deployments(deployment).availableReplicas >= 1
    && w.credentials
    && Appears(w.now, w.pages, numSeconds, recordType, zone, ip)
  }

  method ValidateRecord(w: World, recordType: RecordType, zone: string, numSeconds: nat, ip: string)
    returns (v: Verdict, polls: nat)
    requires Ticks(w.readyNow) && Ticks(w.now)
    ensures v.Found? <==> Validated(w, PUBLIC_DEPLOYMENT, recordType, zone, numSeconds, ip)
    ensures EndsWith(w.deployments(PUBLIC_DEPLOYMENT), w.credentials, w.now, w.pages,
                     recordType, zone, numSeconds, ip, v)
    ensures polls <= numSeconds / 2 + 1
  {
    v, polls := AwaitRecord(w.deployments(PUBLIC_DEPLOYMENT), w.readyNow, w.credentials, w.now, w.pages,
                            recordType, zone, numSeconds, ip);
    EndsOnce(w.deployments(PUBLIC_DEPLOYMENT), w.credentials, w.now, w.pages, recordType, zone, numSeconds, ip, v);
  }

  method ValidatePrivateRecords(w: World, recordType: RecordType, zone: string, numSeconds: nat, ip: string)
    returns (v: Verdict, polls: nat)
    requires Ticks(w.readyNow) && Ticks(w.now)
    ensures v.Found? <==> Validated(w, PRIVATE_DEPLOYMENT, recordType, zone, numSeconds, ip)
    ensures EndsWith(w.deployments(PRIVATE_DEPLOYMENT), w.credentials, w.now, w.pages,
                     recordType, zone, numSeconds, ip, v)
    ensures polls <= numSeconds / 2 + 1
  {
    v, polls := AwaitRecord(w.deployments(PRIVATE_DEPLOYMENT), w.readyNow, w.credentials, w.now, w.pages,
                            recordType, zone, numSeconds, ip);
    EndsOnce(w.deployments(PRIVATE_DEPLOYMENT), w.credentials, w.now, w.pages, recordType, zone, numSeconds, ip, v);
  }

  /** A record that comes only after a page with other records is never found: the poller looks at
    * the first page that has any. */
  lemma LateRecordMissed(
    w: World, deployment: string, recordType: RecordType, zone: string, numSeconds: nat, ip: string, k: nat)
    requires Reached(w.now, w.pages, numSeconds, k) && w.pages(k).Records? && w.pages(k).records != []
    requires !FoundIn(recordType, w.pages(k).records, zone, ip)
    ensures !Validated(w, deployment, recordType, zone, numSeconds, ip)
  {
    forall k': nat | Reached(w.now, w.pages, numSeconds, k') && w.pages(k').Records? && w.pages(k').records != []
      ensures k' == k
    {
      DecidesOnce(w.now, w.pages, numSeconds, k, k');
    }
  }

  /** What the service creates is found, by both validators: a record whose name is the zone with its
    * final dot and whose first address is the service's, if it stands in the first page with records,
    * that page comes in time, and the records before it have addresses of the type that is looked for. */
  lemma RecordFound(
    w: World, deployment: string, recordType: RecordType, zone: string, numSeconds: nat, ip: string,
    k: nat, records: seq<Record>, m: nat, others: seq<string>)
    requires w.deployments(deployment).Deployed? && w.deployments(deployment).availableReplicas >= 1 && w.credentials
    requires Ticks(w.now) && w.now(k + 1) <= w.now(0) + numSeconds * 1_000_000_000
    requires forall j: nat :: j < k ==> w.pages(j) == NoPage || w.pages(j) == Records([])
    requires w.pages(k) == Records(records) && m < |records|
    requires zone == "" || (zone[0] != '.' && zone[|zone| - 1] != '.')
    requires records[m].fqdn == zone + "."
    requires match recordType
             case A =>
               records[m].aRecords == [ip] + others && forall j :: 0 <= j < m ==> records[j].aRecords != []
             case AAAA =>
               records[m].aaaaRecords == [ip] + others && forall j :: 0 <= j < m ==> records[j].aaaaRecords != []
             case OtherType => false
    ensures Validated(w, deployment, recordType, zone, numSeconds, ip)
  {
    DottedName(zone);
    AllInTime(w.now, numSeconds, k);
    assert Reached(w.now, w.pages, numSeconds, k);
    assert Matches(recordType, records[m], zone, ip);
    hide Trimmed;
    assert FoundIn(recordType, records, zone, ip);
  }

  // A record for the zone, with dots at its ends at most, with the address as its first of this type.
  ghost predicate RecordFor(r: Record, recordType: RecordType, zone: string, ip: string) {
    && (exists i, j :: 0 <= i <= j <= |r.fqdn| && Middle(r.fqdn, '.', i, j) && zone == r.fqdn[i..j])
    && (if recordType.A? then |r.aRecords| > 0 && r.aRecords[0] == ip
        else recordType.AAAA? && |r.aaaaRecords| > 0 && r.aaaaRecords[0] == ip)
  }

  /** And nothing else is found: there is a record for the zone with the service's address, on a page
    * that was asked for no later than the deadline and after pages without records only. */
  lemma FoundIsThere(w: World, deployment: string, recordType: RecordType, zone: string, numSeconds: nat, ip: string)
    requires Validated(w, deployment, recordType, zone, numSeconds, ip)
    ensures exists k: nat ::
              && w.pages(k).Records? && w.now(k + 1) <= w.now(0) + numSeconds * 1_000_000_000
              && (forall j: nat :: j < k ==> w.pages(j) == NoPage || w.pages(j) == Records([]))
              && exists r :: r in w.pages(k).records && RecordFor(r, recordType, zone, ip)
  {
    var k: nat :| Reached(w.now, w.pages, numSeconds, k) && w.pages(k).Records? && w.pages(k).records != []
                  && FoundIn(recordType, w.pages(k).records, zone, ip);
    assert InTime(w.now, numSeconds, k);
    FoundFor(w.pages(k).records, recordType, zone, ip);
    forall j: nat | j < k
      ensures w.pages(j) == NoPage || w.pages(j) == Records([])
    {
      assert EmptyPage(w.pages(j));
    }
  }

  lemma FoundFor(records: seq<Record>, recordType: RecordType, zone: string, ip: string)
    requires FoundIn(recordType, records, zone, ip)
    ensures exists r :: r in records && RecordFor(r, recordType, zone, ip)
  {
    var m :| 0 <= m < |records| && Matches(recordType, records[m], zone, ip);
    assert RecordFor(records[m], recordType, zone, ip);
  }
}
