/** infra/provision.go: what holds of every run of `infra.Provision`, whatever the interleaving of
  * its tasks and the answers of the outside world.
  */
module ProvisioningSafety {
  import opened Wrappers
  import opened Provisioning

  // The task made all its calls and all were granted.
  ghost predicate Completed(log: seq<Entry>, phase: nat, slot: nat, task: Slot) {
    && |task.oks| == Steps(task.job)
    && Of(log, phase, slot) == Granteds(task.oks)
  }

  // The tasks of a phase that has been reached.
  function SlotsOf(s: State, phase: nat): seq<Slot> {
    if phase < |s.past| then s.past[phase] else s.slots
  }

  // What a successful run leaves behind.
  lemma Succeeds(s: State, phase: nat)
    requires Inv(s) && s.out.Succeeded? && phase <= LAST_PHASE
    ensures |s.past| == s.phase == LAST_PHASE
    ensures PhaseOk(s.sh, phase, SlotsOf(s, phase)) && AllDone(SlotsOf(s, phase))
    ensures StoriesOk(s.log, phase, SlotsOf(s, phase))
    ensures s.sh.cluster.Some? && |s.sh.zones| > 0 && |s.sh.privateZones| > 0
    ensures SharedOk(s.seed, s.sh, s.past + [s.slots])
  {
    hide PhaseOk, AllDone, StoriesOk, LogOk, SharedOk, ErrsOk;
  }

  // No indexing of an empty zone list and no use of a cluster that is not there.
  lemma NeverCrashes(seed: Seed, schedule: seq<Event>)
    ensures !After(seed, schedule).out.Crashed?
  {
    ExecInv(seed, schedule);
  }

  /** The barrier: when an entry of a phase is logged, every task of every earlier phase has made
    * all its calls and got them granted, although the three resource phases share one error group. */
  lemma PhaseBarrier(seed: Seed, schedule: seq<Event>, n: nat, q: nat, i: nat)
    requires var s := After(seed, schedule); n < |s.log| && q < s.log[n].phase && i < |Jobs(q, s.sh)|
    ensures var s := After(seed, schedule);
            && q < |s.past| && |s.past[q]| == |Jobs(q, s.sh)| && s.past[q][i].job == Jobs(q, s.sh)[i]
            && Completed(s.log[..n], q, i, s.past[q][i])
  {
    ExecInv(seed, schedule);
    hide After, Inv, Of, Jobs;
    PastPhase(After(seed, schedule), n, q);
    PastTask(After(seed, schedule), n, q, i);
  }

  // The phases before that of an entry are complete, and nothing is logged for them after it.
  lemma PastPhase(s: State, n: nat, q: nat)
    requires Inv(s) && n < |s.log| && q < s.log[n].phase
    ensures q < |s.past| && PhaseOk(s.sh, q, s.past[q]) && AllDone(s.past[q]) && StoriesOk(s.log, q, s.past[q])
    ensures forall k :: n <= k < |s.log| ==> s.log[k].phase > q
  {
    assert LogOk(s.log, s.past, s.slots) && PastOk(s.sh, s.past) && PastStoriesOk(s.log, s.past) by {
      hide PhaseOk, StoriesOk, SharedOk, AllDone, ErrsOk, LogOk, PastOk, PastStoriesOk;
    }
    hide Inv, PhaseOk, StoriesOk, AllDone;
    LaterPhases(s.log, s.past, s.slots, n, q);
    hide LogOk;
  }

  lemma LaterPhases(log: seq<Entry>, past: seq<seq<Slot>>, slots: seq<Slot>, n: nat, q: nat)
    requires LogOk(log, past, slots) && n < |log| && q < log[n].phase
    ensures q < |past|
    ensures forall k :: n <= k < |log| ==> log[k].phase > q
  {
  }

  lemma PastTask(s: State, n: nat, q: nat, i: nat)
    requires n < |s.log| && q < |s.past| && i < |Jobs(q, s.sh)|
    requires PhaseOk(s.sh, q, s.past[q]) && AllDone(s.past[q]) && StoriesOk(s.log, q, s.past[q])
    requires forall k :: n <= k < |s.log| ==> s.log[k].phase > q
    ensures |s.past[q]| == |Jobs(q, s.sh)| && s.past[q][i].job == Jobs(q, s.sh)[i]
    ensures Completed(s.log[..n], q, i, s.past[q][i])
  {
    assert SlotOk(s.sh, s.past[q][i]);
    assert s.log[..|s.log|] == s.log;
    LaterEntries(s.log, n, |s.log|, q, i);
  }

  // Entries of later phases do not change the log of a task.
  lemma {:induction false} LaterEntries(log: seq<Entry>, n: nat, m: nat, q: nat, i: nat)
    requires n <= m <= |log|
    requires forall k :: n <= k < m ==> log[k].phase > q
    ensures Of(log[..n], q, i) == Of(log[..m], q, i)
    decreases m
  {
    if n < m {
      LaterEntries(log, n, m - 1, q, i);
      assert log[..m] == log[..m - 1] + [log[m - 1]];
      OfAppend(log[..m - 1], log[m - 1], q, i);
    }
  }

  // A task that looks a zone up and then assigns a role on what the lookup returned.
  ghost predicate GrantsRole(events: seq<CallEvent>, lookup: Call, principal: string, role: Role) {
    && |events| == 4
    && events[0] == Issued(lookup)
    && events[1].Answered? && events[1].call == lookup && events[1].reply.Granted?
    && events[2] == Issued(AssignRole(events[1].reply.id, principal, role))
    && events[3].Answered? && events[3].call == events[2].call && events[3].reply.Granted?
  }

  // A task that assigns the network role on the vnet and then on the subnet.
  ghost predicate GrantsNetwork(events: seq<CallEvent>, vnetId: string, subnetId: string, principal: string) {
    && |events| == 4
    && events[0] == Issued(AssignRole(vnetId, principal, NetworkContributor))
    && events[1].Answered? && events[1].call == events[0].call && events[1].reply.Granted?
    && events[2] == Issued(AssignRole(subnetId, principal, NetworkContributor))
    && events[3].Answered? && events[3].call == events[2].call && events[3].reply.Granted?
  }

  lemma RoleStory(sh: Shared, slot: Slot)
    requires SlotOk(sh, slot) && slot.status.Done? && slot.pending.None? && sh.cluster.Some?
    ensures slot.job.PrivatePerm? ==>
              GrantsRole(Story(slot), GetPrivateZone(slot.job.zone),
                         sh.cluster.value.principalId, PrivateDnsContributor)
    ensures slot.job.PublicPerm? ==>
              GrantsRole(Story(slot), GetZone(slot.job.zone), sh.cluster.value.principalId, DnsContributor)
    ensures slot.job.NetworkPerm? ==>
              GrantsNetwork(Story(slot), sh.vnetId, sh.subnetId, sh.cluster.value.principalId)
  {
    if Steps(slot.job) == 2 {
      PairStory(sh, slot);
    }
  }

  // Every entry appears in the log of its task.
  lemma {:induction false} EntryInOf(log: seq<Entry>, n: nat)
    requires n < |log|
    ensures log[n].event in Of(log, log[n].phase, log[n].slot)
    decreases |log|
  {
    if n < |log| - 1 {
      EntryInOf(log[..|log| - 1], n);
    }
  }

  lemma {:induction false} GrantedsEvents(oks: seq<Grant>, e: CallEvent)
    requires e in Granteds(oks)
    ensures exists k :: 0 <= k < |oks| && e.call == oks[k].call
    ensures e.Answered? ==> e.reply.Granted?
  {
    if e in Granteds(oks[..|oks| - 1]) {
      GrantedsEvents(oks[..|oks| - 1], e);
      var k :| 0 <= k < |oks| - 1 && e.call == oks[..|oks| - 1][k].call;
      assert e.call == oks[k].call;
    } else {
      assert e.call == oks[|oks| - 1].call;
    }
  }

  // Who makes an entry: a task whose closure makes that call; a granted task has no refusal.
  lemma EntryOfTask(s: State, n: nat)
    requires Inv(s) && s.out.Succeeded? && n < |s.log|
    ensures s.log[n].event.Answered? ==> s.log[n].event.reply.Granted?
    ensures s.log[n].event.call.AssignRole? ==>
              s.log[n].phase == 4 && s.log[n].slot <= |s.sh.privateZones| + |s.sh.zones|
  {
    var e := s.log[n];
    var slots := SlotsOf(s, e.phase);
    assert e.phase <= |s.past| && e.slot < |slots| by { hide PhaseOk, StoriesOk, SharedOk; }
    Succeeds(s, e.phase);
    hide Inv;
    EntryInOf(s.log, n);
    DoneStory(s.sh, e.phase, slots, e.slot, e.event);
  }

  lemma DoneStory(sh: Shared, phase: nat, slots: seq<Slot>, i: nat, e: CallEvent)
    requires PhaseOk(sh, phase, slots) && AllDone(slots) && i < |slots| && e in Story(slots[i])
    ensures e.Answered? ==> e.reply.Granted?
    ensures e.call.AssignRole? ==> phase == 4
  {
    var slot := slots[i];
    assert SlotOk(sh, slot) && slot.job == Jobs(phase, sh)[i];
    GrantedsEvents(slot.oks, e);
  }

  // The one call of a task with a single call.
  lemma SingleStory(sh: Shared, slot: Slot)
    requires SlotOk(sh, slot) && slot.status.Done? && Steps(slot.job) == 1
    ensures |slot.oks| == 1 && Plan(sh, slot.job, []) == Ask(slot.oks[0].call)
    ensures Story(slot) == CallStory(slot.oks[0])
  {
    assert slot.oks == [slot.oks[0]];
    OneGranted(slot.oks[0]);
    NothingPending(sh, slot);
  }

  ghost predicate Granting(events: seq<CallEvent>, call: Call) {
    |events| == 2 && events[0] == Issued(call)
    && events[1].Answered? && events[1].call == call && events[1].reply.Granted?
  }

  // Exactly these role assignments are in the log, each granted.
  ghost predicate RolesAssigned(
    log: seq<Entry>, privateZones: seq<string>, zones: seq<string>,
    vnetId: string, subnetId: string, principal: string)
  {
    && (forall j :: 0 <= j < |privateZones| ==>
          GrantsRole(Of(log, 4, j), GetPrivateZone(privateZones[j]), principal, PrivateDnsContributor))
    && (forall j :: 0 <= j < |zones| ==>
          GrantsRole(Of(log, 4, |privateZones| + j), GetZone(zones[j]), principal, DnsContributor))
    && GrantsNetwork(Of(log, 4, |privateZones| + |zones|), vnetId, subnetId, principal)
    && (forall n :: 0 <= n < |log| && log[n].event.call.AssignRole? ==>
          log[n].phase == 4 && log[n].slot <= |privateZones| + |zones|)
  }

  /** A successful run issues exactly these role assignments: the private DNS role on every private
    * zone, the DNS role on every public zone, and the network role on the vnet and on the subnet,
    * all for the principal of the cluster that the run created. */
  lemma RolesExact(seed: Seed, schedule: seq<Event>)
    requires After(seed, schedule).out.Succeeded?
    ensures var ret := After(seed, schedule).out.ret;
            && ret.cluster.Some?
            && |ret.zones| == |seed.zones| + 1 && |ret.privateZones| == |seed.privateZones| + 1
            && RolesAssigned(After(seed, schedule).log, ret.privateZones, ret.zones,
                             ret.vnetId, ret.subnetId, ret.cluster.value.principalId)
  {
    var s := After(seed, schedule);
    ExecInv(seed, schedule);
    SuccessShape(s);
    ZonesMade(s);
    hide Inv, After, RolesAssigned;
    AssignmentsExact(s);
  }

  lemma AssignmentsExact(s: State)
    requires Inv(s) && s.out.Succeeded?
    ensures s.sh.cluster.Some?
    ensures RolesAssigned(s.log, s.sh.privateZones, s.sh.zones, s.sh.vnetId, s.sh.subnetId,
                          s.sh.cluster.value.principalId)
  {
    hide Inv, GrantsRole, GrantsNetwork, Of, Jobs;
    PermStories(s);
    NoOtherRoles(s);
  }

  lemma NoOtherRoles(s: State)
    requires Inv(s) && s.out.Succeeded?
    ensures forall n :: 0 <= n < |s.log| && s.log[n].event.call.AssignRole? ==>
              s.log[n].phase == 4 && s.log[n].slot <= |s.sh.privateZones| + |s.sh.zones|
  {
    hide Inv;
    forall n | 0 <= n < |s.log| && s.log[n].event.call.AssignRole?
      ensures s.log[n].phase == 4 && s.log[n].slot <= |s.sh.privateZones| + |s.sh.zones|
    {
      EntryOfTask(s, n);
    }
  }

  lemma SuccessShape(s: State)
    requires Inv(s) && s.out.Succeeded?
    ensures s.phase == LAST_PHASE
    ensures s.out.ret == s.sh.(ipv4ServiceName := IPV4_SERVICE, ipv6ServiceName := IPV6_SERVICE)
  {
  }

  lemma PermStories(s: State)
    requires Inv(s) && s.out.Succeeded?
    ensures s.sh.cluster.Some?
    ensures var p := s.sh.cluster.value.principalId;
            && (forall j :: 0 <= j < |s.sh.privateZones| ==>
                  GrantsRole(Of(s.log, 4, j), GetPrivateZone(s.sh.privateZones[j]), p, PrivateDnsContributor))
            && (forall j :: 0 <= j < |s.sh.zones| ==>
                  GrantsRole(Of(s.log, 4, |s.sh.privateZones| + j), GetZone(s.sh.zones[j]), p, DnsContributor))
            && GrantsNetwork(Of(s.log, 4, |s.sh.privateZones| + |s.sh.zones|), s.sh.vnetId, s.sh.subnetId, p)
  {
    hide Inv, GrantsRole, GrantsNetwork, Jobs, PhaseOk, AllDone, StoriesOk, SharedOk;
    Succeeds(s, 4);
    PermsDone(s.sh, s.past[4], s.log);
    PermJobs(s.sh, s.past[4], s.log);
  }

  lemma PermsDone(sh: Shared, slots: seq<Slot>, log: seq<Entry>)
    requires PhaseOk(sh, 4, slots) && AllDone(slots) && StoriesOk(log, 4, slots) && sh.cluster.Some?
    ensures forall i :: 0 <= i < |slots| ==> PermDone(sh, slots[i].job, Of(log, 4, i))
  {
    forall i | 0 <= i < |slots|
      ensures PermDone(sh, slots[i].job, Of(log, 4, i))
    {
      assert SlotOk(sh, slots[i]);
      hide GrantsRole, GrantsNetwork, Jobs;
      RoleStory(sh, slots[i]);
    }
  }

  ghost predicate PermDone(sh: Shared, job: Job, events: seq<CallEvent>) {
    && sh.cluster.Some?
    && var p := sh.cluster.value.principalId;
    && (job.PrivatePerm? ==> GrantsRole(events, GetPrivateZone(job.zone), p, PrivateDnsContributor))
    && (job.PublicPerm? ==> GrantsRole(events, GetZone(job.zone), p, DnsContributor))
    && (job.NetworkPerm? ==> GrantsNetwork(events, sh.vnetId, sh.subnetId, p))
  }

  lemma PermOrder(sh: Shared)
    ensures var jobs := Jobs(4, sh);
            && |jobs| == |sh.privateZones| + |sh.zones| + 1
            && (forall j :: 0 <= j < |sh.privateZones| ==> jobs[j] == PrivatePerm(sh.privateZones[j]))
            && (forall j :: 0 <= j < |sh.zones| ==> jobs[|sh.privateZones| + j] == PublicPerm(sh.zones[j]))
            && jobs[|sh.privateZones| + |sh.zones|] == NetworkPerm
  {
  }

  // Which task of the permission phase serves which zone.
  lemma PermJobs(sh: Shared, slots: seq<Slot>, log: seq<Entry>)
    requires PhaseOk(sh, 4, slots) && sh.cluster.Some?
    requires forall i :: 0 <= i < |slots| ==> PermDone(sh, slots[i].job, Of(log, 4, i))
    ensures var p := sh.cluster.value.principalId;
            && (forall j :: 0 <= j < |sh.privateZones| ==>
                  GrantsRole(Of(log, 4, j), GetPrivateZone(sh.privateZones[j]), p, PrivateDnsContributor))
            && (forall j :: 0 <= j < |sh.zones| ==>
                  GrantsRole(Of(log, 4, |sh.privateZones| + j), GetZone(sh.zones[j]), p, DnsContributor))
            && GrantsNetwork(Of(log, 4, |sh.privateZones| + |sh.zones|), sh.vnetId, sh.subnetId, p)
  {
    var jobs := Jobs(4, sh);
    PermOrder(sh);
    assert |slots| == |jobs| && forall i :: 0 <= i < |slots| ==> slots[i].job == jobs[i];
    hide GrantsRole, GrantsNetwork, PhaseOk, Jobs, Of;
    forall j | 0 <= j < |sh.privateZones|
      ensures GrantsRole(Of(log, 4, j), GetPrivateZone(sh.privateZones[j]),
                         sh.cluster.value.principalId, PrivateDnsContributor)
    {
      assert slots[j].job == jobs[j] == PrivatePerm(sh.privateZones[j]);
    }
    forall j | 0 <= j < |sh.zones|
      ensures GrantsRole(Of(log, 4, |sh.privateZones| + j), GetZone(sh.zones[j]),
                         sh.cluster.value.principalId, DnsContributor)
    {
      var i := |sh.privateZones| + j;
      assert slots[i].job == jobs[i] == PublicPerm(sh.zones[j]);
    }
    var i := |sh.privateZones| + |sh.zones|;
    assert slots[i].job == jobs[i] == NetworkPerm;
  }

  // The run created one zone of each kind.
  lemma ZonesMade(s: State)
    requires Inv(s) && s.phase >= 2
    ensures |s.sh.zones| == |s.seed.zones| + 1 && |s.sh.privateZones| == |s.seed.privateZones| + 1
  {
    var phases := s.past + [s.slots];
    assert phases[1] == s.past[1];
    assert PhaseOk(s.sh, 1, s.past[1]) && AllDone(s.past[1]);
    assert SlotOk(s.sh, s.past[1][0]) && SlotOk(s.sh, s.past[1][1]);
  }

  // The call was granted, and what it returned stands at the end of the list.
  ghost predicate Appended(events: seq<CallEvent>, call: Call, before: seq<string>, after: seq<string>) {
    && Granting(events, call)
    && after == before + [events[1].reply.id]
  }

  // The group, and one zone of each kind after those that were there.
  ghost predicate Created(log: seq<Entry>, seed: Seed, ret: Shared) {
    && Granting(Of(log, 0, 0), CreateGroup)
    && Appended(Of(log, 1, 0), CreateZone, seed.zones, ret.zones)
    && Appended(Of(log, 1, 1), CreatePrivateZone, seed.privateZones, ret.privateZones)
  }

  lemma AllCreated(s: State)
    requires Inv(s) && s.out.Succeeded?
    ensures Created(s.log, s.seed, s.sh)
  {
    var zones := SlotsOf(s, 1);
    Succeeds(s, 1);
    assert zones == (s.past + [s.slots])[1];
    SingleMade(s, 0, CreateGroup);
    hide Inv;
    ZoneCalls(s.sh, zones, s.seed, s.past + [s.slots]);
    hide SharedOk, PhaseOk, Appended;
  }

  lemma ZoneCalls(sh: Shared, slots: seq<Slot>, seed: Seed, phases: seq<seq<Slot>>)
    requires PhaseOk(sh, 1, slots) && AllDone(slots)
    requires |phases| > 1 && phases[1] == slots && SharedOk(seed, sh, phases)
    ensures |slots| == 2
    ensures Appended(Story(slots[0]), CreateZone, seed.zones, sh.zones)
    ensures Appended(Story(slots[1]), CreatePrivateZone, seed.privateZones, sh.privateZones)
  {
    assert slots[0].job == MakeZone && slots[1].job == MakePrivateZone;
    assert SlotOk(sh, slots[0]) && SlotOk(sh, slots[1]);
    SingleStory(sh, slots[0]);
    SingleStory(sh, slots[1]);
  }

  // The vnet and its link, the cluster in its subnet, and the two deployments.
  ghost predicate Connected(log: seq<Entry>, ret: Shared) {
    && |ret.zones| > 0 && |ret.privateZones| > 0
    && VnetLinked(Of(log, 2, 0), ret.privateZones[0], ret.vnetId, ret.subnetId)
    && ClusterIn(Of(log, 3, 0), ret.subnetId, ret.cluster)
    && Granting(Of(log, 5, 0), DeployExternalDns(ret.zones[0], ret.privateZones[0]))
    && Granting(Of(log, 6, 0), DeployNginx(ret.zones[0]))
  }

  ghost predicate VnetLinked(events: seq<CallEvent>, privateZone: string, vnetId: string, subnetId: string) {
    && |events| == 4
    && events[0] == Issued(CreateVnet(privateZone))
    && events[1] == Answered(CreateVnet(privateZone), Granted(vnetId, subnetId))
    && events[2] == Issued(LinkVnet(privateZone, vnetId))
    && events[3].Answered? && events[3].call == events[2].call && events[3].reply.Granted?
  }

  ghost predicate ClusterIn(events: seq<CallEvent>, subnetId: string, cluster: Option<Cluster>) {
    && cluster.Some?
    && events == [Issued(CreateCluster(subnetId)),
                  Answered(CreateCluster(subnetId), Granted(cluster.value.principalId, cluster.value.clientId))]
  }

  /** The run created its group and the two zones that `ret` lists. The private zone is linked to
    * the vnet that this run's NewVnet returned, the cluster is created in that vnet's subnet, and
    * ExternalDNS and nginx are deployed for the zones that `ret` names. */
  lemma ResourcesConnected(seed: Seed, schedule: seq<Event>)
    requires After(seed, schedule).out.Succeeded?
    ensures Created(After(seed, schedule).log, seed, After(seed, schedule).out.ret)
    ensures Connected(After(seed, schedule).log, After(seed, schedule).out.ret)
    ensures After(seed, schedule).out.ret.ipv4ServiceName == "nginx-svc-ipv4"
    ensures After(seed, schedule).out.ret.ipv6ServiceName == "nginx-svc-ipv6"
  {
    var s := After(seed, schedule);
    ExecInv(seed, schedule);
    SuccessShape(s);
    ZonesMade(s);
    hide Inv, After, Of, Granting, VnetLinked, ClusterIn, Appended;
    AllCreated(s);
    VnetMade(s);
    ClusterMade(s);
    RolledOut(s);
  }

  lemma RolledOut(s: State)
    requires Inv(s) && s.out.Succeeded? && |s.sh.zones| > 0 && |s.sh.privateZones| > 0
    ensures Granting(Of(s.log, 5, 0), DeployExternalDns(s.sh.zones[0], s.sh.privateZones[0]))
    ensures Granting(Of(s.log, 6, 0), DeployNginx(s.sh.zones[0]))
  {
    hide Inv, Of, Granting, PhaseOk, AllDone, StoriesOk, SharedOk;
    Succeeds(s, 5);
    SingleMade(s, 5, DeployExternalDns(s.sh.zones[0], s.sh.privateZones[0]));
    SingleMade(s, 6, DeployNginx(s.sh.zones[0]));
  }

  lemma SingleMade(s: State, phase: nat, call: Call)
    requires Inv(s) && s.out.Succeeded? && (phase == 0 || phase == 5 || phase == 6)
    requires Plan(s.sh, Jobs(phase, s.sh)[0], []) == Ask(call)
    ensures Granting(Of(s.log, phase, 0), call)
  {
    Succeeds(s, phase);
    hide Inv, SharedOk;
    SingleCalls(s.sh, phase, SlotsOf(s, phase), call);
    hide PhaseOk, AllDone, Granting, Plan;
  }

  lemma SingleCalls(sh: Shared, phase: nat, slots: seq<Slot>, call: Call)
    requires PhaseOk(sh, phase, slots) && AllDone(slots) && (phase == 0 || phase == 5 || phase == 6)
    requires Plan(sh, Jobs(phase, sh)[0], []) == Ask(call)
    ensures |slots| == 1 && Granting(Story(slots[0]), call)
  {
    assert SlotOk(sh, slots[0]) && slots[0].job == Jobs(phase, sh)[0];
    SingleStory(sh, slots[0]);
  }

  lemma ClusterMade(s: State)
    requires Inv(s) && s.out.Succeeded?
    ensures ClusterIn(Of(s.log, 3, 0), s.sh.subnetId, s.sh.cluster)
  {
    var slots := SlotsOf(s, 3);
    Succeeds(s, 3);
    assert slots == (s.past + [s.slots])[3];
    hide Inv;
    ClusterCalls(s.sh, slots, s.seed, s.past + [s.slots]);
    hide SharedOk, PhaseOk;
  }

  lemma ClusterCalls(sh: Shared, slots: seq<Slot>, seed: Seed, phases: seq<seq<Slot>>)
    requires PhaseOk(sh, 3, slots) && AllDone(slots)
    requires |phases| > 3 && phases[3] == slots && SharedOk(seed, sh, phases)
    ensures |slots| == 1 && ClusterIn(Story(slots[0]), sh.subnetId, sh.cluster)
  {
    assert SlotOk(sh, slots[0]) && slots[0].job == MakeCluster;
    SingleStory(sh, slots[0]);
  }

  lemma VnetMade(s: State)
    requires Inv(s) && s.out.Succeeded?
    ensures |s.sh.privateZones| > 0
    ensures VnetLinked(Of(s.log, 2, 0), s.sh.privateZones[0], s.sh.vnetId, s.sh.subnetId)
  {
    var slots := SlotsOf(s, 2);
    Succeeds(s, 2);
    hide Inv;
    assert slots == (s.past + [s.slots])[2];
    VnetCalls(s.sh, slots, s.seed, s.past + [s.slots]);
    hide SharedOk, PhaseOk;
  }

  lemma VnetCalls(sh: Shared, slots: seq<Slot>, seed: Seed, phases: seq<seq<Slot>>)
    requires PhaseOk(sh, 2, slots) && AllDone(slots) && |sh.privateZones| > 0
    requires |phases| > 2 && phases[2] == slots && SharedOk(seed, sh, phases)
    ensures |slots| == 1 && VnetLinked(Story(slots[0]), sh.privateZones[0], sh.vnetId, sh.subnetId)
  {
    assert SlotOk(sh, slots[0]) && slots[0].job == MakeVnet;
    PairStory(sh, slots[0]);
  }

  // The two calls of a task with two calls.
  lemma PairStory(sh: Shared, slot: Slot)
    requires SlotOk(sh, slot) && slot.status.Done? && Steps(slot.job) == 2
    ensures |slot.oks| == 2
    ensures Story(slot) == CallStory(slot.oks[0]) + CallStory(slot.oks[1])
  {
    assert slot.oks == [slot.oks[0]] + [slot.oks[1]];
    OneGranted(slot.oks[0]);
    GrantedsAppend([slot.oks[0]], slot.oks[1]);
    NothingPending(sh, slot);
  }

  function CallStory(g: Grant): seq<CallEvent> {
    [Issued(g.call), Answered(g.call, Granted(g.id, g.aux))]
  }

  lemma OneGranted(g: Grant)
    ensures Granteds([g]) == CallStory(g)
  {
    GrantedsAppend([], g);
    assert [] + [g] == [g];
  }

  lemma NothingPending(sh: Shared, slot: Slot)
    requires SlotOk(sh, slot) && slot.status.Done?
    ensures Story(slot) == Granteds(slot.oks)
  {
  }

  // The run has returned to its caller.
  predicate Ended(s: State) {
    s.out.Succeeded? || s.out.FailedEmpty? || s.out.FailedWith?
  }

  function ErrorOf(s: State): Failure
    requires s.out.FailedEmpty? || s.out.FailedWith?
  {
    s.out.error
  }

  ghost predicate AllGranted(log: seq<Entry>) {
    forall n :: 0 <= n < |log| && log[n].event.Answered? ==> log[n].event.reply.Granted?
  }

  // The network task gives up without a call when NewVnet returned an empty id.
  predicate EmptyIds(s: State) {
    s.phase == 4 && (s.sh.vnetId == "" || s.sh.subnetId == "")
  }

  /** A run that returns has waited for all its tasks. It returns nil exactly when every answer was
    * a grant and NewVnet gave two non-empty ids. Otherwise the error is that of a task which was
    * refused or met an empty id, and `ret` is returned only for an error in the deployments. */
  lemma EndExact(seed: Seed, schedule: seq<Event>)
    requires Ended(After(seed, schedule))
    ensures var s := After(seed, schedule);
            && Joined(s.slots)
            && (s.out.Succeeded? <==> AllGranted(s.log) && s.sh.vnetId != "" && s.sh.subnetId != "")
            && (s.out.Succeeded? ==> s.out.ret.vnetId == s.sh.vnetId && s.out.ret.subnetId == s.sh.subnetId)
            && (s.out.FailedEmpty? ==> s.phase <= 4)
            && (s.out.FailedWith? ==> s.phase > 4 && s.out.ret == s.sh)
            && (!s.out.Succeeded? ==>
                  var e := ErrorOf(s);
                  && e.phase == s.phase
                  && (Refusal(s.log, e) || (EmptyIds(s) && Of(s.log, e.phase, e.slot) == [])))
  {
    var s := After(seed, schedule);
    ExecInv(seed, schedule);
    hide After;
    if s.out.Succeeded? {
      SuccessEnd(s);
      IdsFilled(s);
    } else {
      FailureEnd(s);
    }
  }

  // The network task has not given up, so it found both ids.
  lemma IdsFilled(s: State)
    requires Inv(s) && s.out.Succeeded?
    ensures s.sh.vnetId != "" && s.sh.subnetId != ""
  {
    hide Inv, PhaseOk, AllDone, StoriesOk, SharedOk;
    Succeeds(s, 4);
    NetworkDone(s.sh, SlotsOf(s, 4));
  }

  lemma NetworkDone(sh: Shared, slots: seq<Slot>)
    requires PhaseOk(sh, 4, slots) && AllDone(slots)
    ensures sh.vnetId != "" && sh.subnetId != ""
  {
    PermOrder(sh);
    hide Jobs;
    var slot := slots[|sh.privateZones| + |sh.zones|];
    assert slot.job == NetworkPerm && SlotOk(sh, slot);
  }

  // The last answer that the task with this error got was a refusal.
  ghost predicate Refusal(log: seq<Entry>, e: Failure) {
    var events := Of(log, e.phase, e.slot);
    |events| > 0 && events[|events| - 1].Answered? && events[|events| - 1].reply.Refused?
  }

  lemma SuccessEnd(s: State)
    requires Inv(s) && s.out.Succeeded?
    ensures Joined(s.slots) && AllGranted(s.log)
  {
    forall n | 0 <= n < |s.log| && s.log[n].event.Answered?
      ensures s.log[n].event.reply.Granted?
    {
      EntryOfTask(s, n);
    }
  }

  lemma FailureEnd(s: State)
    requires Inv(s) && (s.out.FailedEmpty? || s.out.FailedWith?)
    ensures Joined(s.slots) && ErrorOf(s).phase == s.phase
    ensures Refusal(s.log, ErrorOf(s)) || (EmptyIds(s) && Of(s.log, s.phase, ErrorOf(s).slot) == [])
    ensures AllGranted(s.log) ==> s.sh.vnetId == "" || s.sh.subnetId == ""
  {
    var e := ErrorOf(s);
    assert ErrsOk(s.errs, s.phase, s.slots);
    assert e.phase == s.phase && e.slot < |s.slots| && s.slots[e.slot].status.Broken?;
    assert StoriesOk(s.log, s.phase, s.slots);
    hide Inv;
    BrokenStory(s.sh, s.phase, s.slots, e.slot);
    if Refusal(s.log, e) {
      var events := Of(s.log, e.phase, e.slot);
      InOfEntry(s.log, e.phase, e.slot, events[|events| - 1]);
    }
  }

  // A broken task was refused its last call, or it is the network task and an id is empty.
  lemma BrokenStory(sh: Shared, phase: nat, slots: seq<Slot>, i: nat)
    requires PhaseOk(sh, phase, slots) && i < |slots| && slots[i].status.Broken?
    ensures var story := Story(slots[i]);
            || (|story| > 0 && story[|story| - 1].Answered? && story[|story| - 1].reply.Refused?)
            || (phase == 4 && (sh.vnetId == "" || sh.subnetId == "") && story == [])
  {
    var slot := slots[i];
    assert SlotOk(sh, slot) && slot.job == Jobs(phase, sh)[i];
  }

  lemma {:induction false} InOfEntry(log: seq<Entry>, phase: nat, slot: nat, e: CallEvent)
    requires e in Of(log, phase, slot)
    ensures exists n :: 0 <= n < |log| && log[n].event == e
  {
    var last := log[|log| - 1];
    if last.phase == phase && last.slot == slot && last.event == e {
      assert log[|log| - 1].event == e;
    } else {
      InOfEntry(log[..|log| - 1], phase, slot, e);
      var n :| 0 <= n < |log| - 1 && log[..|log| - 1][n].event == e;
      assert log[n].event == e;
    }
  }

  /******* Termination *******/

  // Events a task can still take part in.
  function Left(slot: Slot): nat {
    if slot.status.Live? && |slot.oks| < Steps(slot.job) then
      2 * (Steps(slot.job) - |slot.oks|) - (if slot.pending.Some? then 1 else 0)
    else 0
  }

  function SumLeft(slots: seq<Slot>): nat {
    if slots == [] then 0 else SumLeft(slots[..|slots| - 1]) + Left(slots[|slots| - 1])
  }

  // What the tasks of a phase can need at most.
  function Budget(seed: Seed, phase: nat): nat {
    if phase == 1 || phase == 2 then 4
    else if phase == 4 then 4 * (|seed.zones| + |seed.privateZones| + 3)
    else 2
  }

  function Future(seed: Seed, phase: nat): nat
    decreases LAST_PHASE - phase
  {
    if phase >= LAST_PHASE then 0 else Budget(seed, phase + 1) + 1 + Future(seed, phase + 1)
  }

  // The events that a run can still take part in, its last join included.
  function Work(s: State): nat {
    if s.out.InProgress? then SumLeft(s.slots) + 1 + Future(s.seed, s.phase) else 0
  }

  lemma {:induction false} SumLeftUpdate(slots: seq<Slot>, i: nat, slot: Slot)
    requires i < |slots|
    ensures SumLeft(slots[i := slot]) == SumLeft(slots) - Left(slots[i]) + Left(slot)
  {
    var n := |slots| - 1;
    if i < n {
      SumLeftUpdate(slots[..n], i, slot);
      assert slots[i := slot][..n] == slots[..n][i := slot];
    } else {
      assert slots[i := slot][..n] == slots[..n];
    }
  }

  lemma {:induction false} SumLeftAtMost(slots: seq<Slot>, c: nat)
    requires forall i :: 0 <= i < |slots| ==> Left(slots[i]) <= c
    ensures SumLeft(slots) <= c * |slots|
  {
    if slots != [] {
      SumLeftAtMost(slots[..|slots| - 1], c);
      assert c * |slots| == c * (|slots| - 1) + c;
    }
  }

  lemma SpawnBudget(s: State, phase: nat)
    requires Inv(s) && phase == s.phase + 1 <= LAST_PHASE
    ensures SumLeft(Spawn(phase, s.sh)) <= Budget(s.seed, phase)
  {
    ZonesAtMost(s);
    hide Inv;
    JobBudget(s.sh, phase);
    var next := Spawn(phase, s.sh);
    var c := if phase == 2 || phase == 4 then 4 else 2;
    SpawnLeft(s.sh, phase, c);
    SumLeftAtMost(next, c);
  }

  lemma JobBudget(sh: Shared, phase: nat)
    ensures |Jobs(phase, sh)| ==
            if phase == 1 then 2 else if phase == 4 then |sh.zones| + |sh.privateZones| + 1 else 1
    ensures phase != 2 && phase != 4 ==> forall j :: j in Jobs(phase, sh) ==> Steps(j) == 1
  {
  }

  lemma SpawnLeft(sh: Shared, phase: nat, c: nat)
    requires c == 4 || (c == 2 && forall j :: j in Jobs(phase, sh) ==> Steps(j) == 1)
    ensures |Spawn(phase, sh)| == |Jobs(phase, sh)|
    ensures var next := Spawn(phase, sh); forall i :: 0 <= i < |next| ==> Left(next[i]) <= c
  {
  }

  lemma ZonesAtMost(s: State)
    requires Inv(s)
    ensures |s.sh.zones| <= |s.seed.zones| + 1 && |s.sh.privateZones| <= |s.seed.privateZones| + 1
  {
  }

  /** Every event that is possible uses up some of the work that is left. */
  lemma StepWork(s: State, e: Event)
    requires Inv(s) && Enabled(s, e)
    ensures Work(Step(s, e)) < Work(s)
  {
    match e
    case Join =>
      if GroupOf(s.phase) !in s.errs && s.phase < LAST_PHASE {
        hide Inv;
        SpawnBudget(s, s.phase + 1);
      }
    case Move(i, answer) =>
      assert SlotOk(s.sh, s.slots[i]) by { hide PastOk, SharedOk, LogOk, StoriesOk; }
      hide Inv, Work;
      SlotWork(s, i, answer);
  }

  lemma SlotWork(s: State, i: nat, answer: Reply)
    requires Enabled(s, Move(i, answer)) && SlotOk(s.sh, s.slots[i])
    ensures Work(Step(s, Move(i, answer))) < Work(s)
  {
    var s' := Step(s, Move(i, answer));
    if s'.out.InProgress? {
      SumLeftUpdate(s.slots, i, s'.slots[i]);
      assert s'.slots == s.slots[i := s'.slots[i]];
    }
  }

  // The number of events of a schedule that were possible when their turn came.
  function Effective(seed: Seed, schedule: seq<Event>): nat {
    if schedule == [] then 0
    else
      var n := |schedule| - 1;
      Effective(seed, schedule[..n]) + (if Enabled(After(seed, schedule[..n]), schedule[n]) then 1 else 0)
  }

  /** No schedule keeps a run going: the number of events it can take part in is bounded before it
    * starts. As long as it has not ended some event is possible: any task that is still running can
    * move next, with any answer, and Wait returns exactly when there is none. */
  lemma {:induction false} RunsEnd(seed: Seed, schedule: seq<Event>)
    ensures Effective(seed, schedule) + Work(After(seed, schedule)) <= Work(Init(seed))
    ensures var s := After(seed, schedule);
            s.out.InProgress? ==>
              && (exists e :: Enabled(s, e))
              && (Enabled(s, Join) <==> forall i :: 0 <= i < |s.slots| ==> !s.slots[i].status.Live?)
              && (forall i, answer :: 0 <= i < |s.slots| && s.slots[i].status.Live? ==> Enabled(s, Move(i, answer)))
  {
    var s := After(seed, schedule);
    if s.out.InProgress? {
      if Joined(s.slots) {
        assert Enabled(s, Join);
      } else {
        var i :| 0 <= i < |s.slots| && s.slots[i].status.Live?;
        assert Enabled(s, Move(i, Refused));
      }
    }
    if schedule != [] {
      var n := |schedule| - 1;
      RunsEnd(seed, schedule[..n]);
      ExecInv(seed, schedule[..n]);
      hide Inv, Step, Work, Enabled;
      if Enabled(After(seed, schedule[..n]), schedule[n]) {
        StepWork(After(seed, schedule[..n]), schedule[n]);
      } else {
        NoStep(After(seed, schedule[..n]), schedule[n]);
      }
    }
  }

  lemma NoStep(s: State, e: Event)
    requires !Enabled(s, e)
    ensures Step(s, e) == s
  {
  }

  /******* Which error *******/

  predicate SomeBroken(slots: seq<Slot>) {
    exists i :: 0 <= i < |slots| && slots[i].status.Broken?
  }

  /** A run that fails returns the error of the first task to break: if no task was broken before an
    * event and this task is after it, the run can only end with this task's error, whatever else the
    * tasks that are still running do. */
  lemma FirstToBreak(seed: Seed, before: seq<Event>, e: Event, after: seq<Event>, i: nat)
    requires var s := After(seed, before); s.out.InProgress? && !SomeBroken(s.slots)
    requires var s := After(seed, before + [e]); i < |s.slots| && s.slots[i].status.Broken?
    ensures var s := After(seed, before + [e] + after);
            Ended(s) ==> !s.out.Succeeded? && ErrorOf(s) == Failure(After(seed, before).phase, i)
  {
    var s := After(seed, before);
    var s1 := After(seed, before + [e]);
    assert (before + [e])[..|before|] == before;
    assert s1 == Step(s, e);
    ExecInv(seed, before);
    ExecInv(seed, before + [e]);
    ExecInv(seed, before + [e] + after);
    hide After;
    BrokenNow(s, e, i);
    StaysBroken(seed, before + [e], after, s.phase, i);
    EndsWithError(After(seed, before + [e] + after), s.phase, i);
  }

  lemma BrokenNow(s: State, e: Event, i: nat)
    requires Inv(s) && Inv(Step(s, e)) && !SomeBroken(s.slots) && s.out.InProgress?
    requires i < |Step(s, e).slots| && Step(s, e).slots[i].status.Broken?
    ensures var s' := Step(s, e);
            s'.out.InProgress? && s'.phase == s.phase
            && GroupOf(s.phase) in s'.errs && s'.errs[GroupOf(s.phase)] == Failure(s.phase, i)
  {
    assert ErrsOk(s.errs, s.phase, s.slots);
    assert ErrsOk(Step(s, e).errs, Step(s, e).phase, Step(s, e).slots);
    hide Inv, ErrsOk, PhaseOk;
    if Enabled(s, e) && e.Join? {
      JoinUnbroken(s);
    } else {
      OneBreaks(s, e);
    }
    ErrsBreak(Step(s, e).errs, Step(s, e).phase, Step(s, e).slots, i);
  }

  lemma JoinUnbroken(s: State)
    ensures forall i :: 0 <= i < |StepJoin(s).slots| && StepJoin(s).slots[i].status.Broken? ==> SomeBroken(s.slots)
  {
  }

  // At most one task breaks in one step.
  lemma OneBreaks(s: State, e: Event)
    requires s.out.InProgress? && !SomeBroken(s.slots) && !(Enabled(s, e) && e.Join?)
    ensures var s' := Step(s, e);
            && s'.phase == s.phase && |s'.slots| == |s.slots|
            && forall i, j :: 0 <= i < |s'.slots| && 0 <= j < |s'.slots| ==>
                 s'.slots[i].status.Broken? && s'.slots[j].status.Broken? ==> i == j
    ensures SomeBroken(Step(s, e).slots) ==> Step(s, e).out.InProgress?
  {
  }

  lemma ErrsBreak(errs: map<Group, Failure>, phase: nat, slots: seq<Slot>, i: nat)
    requires ErrsOk(errs, phase, slots) && i < |slots| && slots[i].status.Broken?
    requires forall j :: 0 <= j < |slots| && slots[j].status.Broken? ==> j == i
    ensures GroupOf(phase) in errs && errs[GroupOf(phase)] == Failure(phase, i)
  {
  }

  // An error that is recorded stays, and the run does not go on to another phase.
  ghost predicate Recorded(s: State, phase: nat, i: nat) {
    s.phase == phase && GroupOf(phase) in s.errs && s.errs[GroupOf(phase)] == Failure(phase, i)
  }

  lemma {:induction false} StaysBroken(seed: Seed, before: seq<Event>, after: seq<Event>, phase: nat, i: nat)
    requires Recorded(After(seed, before), phase, i)
    ensures Recorded(After(seed, before + after), phase, i)
  {
    if after == [] {
      assert before + after == before;
    } else {
      var m := |after| - 1;
      assert (before + after)[..|before + after| - 1] == before + after[..m];
      StaysBroken(seed, before, after[..m], phase, i);
      RecordedStep(After(seed, before + after[..m]), after[m], phase, i);
      hide Recorded, Step;
    }
  }

  lemma RecordedStep(s: State, e: Event, phase: nat, i: nat)
    requires Recorded(s, phase, i)
    ensures Recorded(Step(s, e), phase, i)
  {
  }

  lemma EndsWithError(s: State, phase: nat, i: nat)
    requires Inv(s) && Recorded(s, phase, i)
    ensures Ended(s) ==> !s.out.Succeeded? && ErrorOf(s) == Failure(phase, i)
  {
    hide PastOk, PhaseOk, SharedOk, LogOk, ErrsOk, StoriesOk, PastStoriesOk, AllDone;
  }

  /** The process ends exactly when NewVnet calls log.Fatal; every other call that fails is an error of
    * its task. */
  lemma HaltsExactly(seed: Seed, schedule: seq<Event>, e: Event)
    requires After(seed, schedule).out.InProgress?
    ensures var s := After(seed, schedule);
            Step(s, e).out.Halted? <==>
              && e.Move? && e.slot < |s.slots| && s.slots[e.slot].status.Live?
              && s.slots[e.slot].pending.Some? && s.slots[e.slot].pending.value.CreateVnet? && e.reply.Fatal?
  {
  }
}
