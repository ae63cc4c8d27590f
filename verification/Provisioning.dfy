/** infra/provision.go: one `infra.Provision` run as a step system.
  *
  * The main goroutine goes through seven phases. A phase forks its tasks (slots), each of which
  * issues external calls and gets answers; the main goroutine joins them all and looks at the
  * error of the phase's group before it forks the next phase. The calls that the main goroutine
  * makes itself (resource group, the two deployments) are phases with a single task.
  *
  *   0 resource group   1 public and private zone   2 vnet and its link   3 cluster
  *   4 role assignments 5 ExternalDNS               6 nginx
  *
  * A schedule is any sequence of events: which task moves next and what the outside world
  * answers. Events that are not possible are skipped, so a statement about all schedules is a
  * statement about all interleavings and all answers.
  */
module Provisioning {
  import opened Wrappers

  datatype Role = PrivateDnsContributor | DnsContributor | NetworkContributor

  datatype Call =
    | CreateGroup
    | CreateZone
    | CreatePrivateZone
    | CreateVnet(privateZone: string)
    | LinkVnet(privateZone: string, vnetId: string)
    | CreateCluster(subnetId: string)
    | GetPrivateZone(zone: string)
    | GetZone(zone: string)
    | AssignRole(scope: string, principal: string, role: Role)
    | DeployExternalDns(publicZone: string, privateZone: string)
    | DeployNginx(publicZone: string)

  // An answer. Fatal is log.Fatal inside NewVnet; every other call reports a failure as an error.
  datatype Reply = Granted(id: string, aux: string) | Refused | Fatal

  datatype Job =
    | MakeGroup | MakeZone | MakePrivateZone | MakeVnet | MakeCluster
    | PrivatePerm(zone: string) | PublicPerm(zone: string) | NetworkPerm
    | RolloutDns | RolloutNginx

  // A call of a task that was granted, and what it returned.
  datatype Grant = Grant(call: Call, id: string, aux: string)

  datatype Status = Live | Done | Broken

  datatype Slot = Slot(job: Job, oks: seq<Grant>, pending: Option<Call>, status: Status)

  datatype Cluster = Cluster(principalId: string, clientId: string)

  // The variables that the closures of one run share: `ret`, `vnetId` and `subnetId`.
  datatype Shared = Shared(
    zones: seq<string>, privateZones: seq<string>,
    vnetId: string, subnetId: string,
    cluster: Option<Cluster>,
    ipv4ServiceName: string, ipv6ServiceName: string)

  // The error variables: `resEg` serves three phases, `permEg` one, `err` the main goroutine.
  datatype Group = Main | ResEg | PermEg

  // Which task an error comes from.
  datatype Failure = Failure(phase: nat, slot: nat)

  datatype CallEvent = Issued(call: Call) | Answered(call: Call, reply: Reply)

  datatype Entry = Entry(phase: nat, slot: nat, event: CallEvent)

  datatype Outcome =
    | InProgress
    | Succeeded(ret: Shared)
    | FailedEmpty(error: Failure)              // returns Provisioned{} and an error
    | FailedWith(ret: Shared, error: Failure)  // returns ret and an error
    | Crashed                                  // index out of range or nil dereference
    | Halted                                   // log.Fatal ended the process

  // The zone lists that `ret` starts with. The code starts with none; other lists are allowed so
  // that the loops over `ret.Zones` and `ret.PrivateZones` are covered for any number of zones.
  datatype Seed = Seed(zones: seq<string>, privateZones: seq<string>)

  const NO_ZONES := Seed([], [])

  // `slots` are the tasks of the phase being run; `past` keeps those of the phases before it.
  datatype State = State(
    seed: Seed, phase: nat, slots: seq<Slot>, past: seq<seq<Slot>>,
    sh: Shared, errs: map<Group, Failure>, log: seq<Entry>, out: Outcome)

  datatype Event = Move(slot: nat, reply: Reply) | Join

  const LAST_PHASE := 6
  const IPV4_SERVICE := "nginx-svc-ipv4"
  const IPV6_SERVICE := "nginx-svc-ipv6"

  /******* The closures *******/

  // What a task does next: issue a call, return an error of its own, or panic.
  datatype NextMove = Ask(call: Call) | Quit | Panic

  function Steps(job: Job): nat {
    match job
    case MakeVnet | PrivatePerm(_) | PublicPerm(_) | NetworkPerm => 2
    case _ => 1
  }

  function Plan(sh: Shared, job: Job, oks: seq<Grant>): NextMove {
    match job
    case MakeGroup => Ask(CreateGroup)
    case MakeZone => Ask(CreateZone)
    case MakePrivateZone => Ask(CreatePrivateZone)
    case MakeVnet =>
      if |sh.privateZones| == 0 then Panic
      else if |oks| == 0 then Ask(CreateVnet(sh.privateZones[0]))
      else Ask(LinkVnet(sh.privateZones[0], sh.vnetId))
    case MakeCluster => Ask(CreateCluster(sh.subnetId))
    case PrivatePerm(zone) =>
      if |oks| == 0 then Ask(GetPrivateZone(zone))
      else if sh.cluster.None? then Panic
      else Ask(AssignRole(oks[0].id, sh.cluster.value.principalId, PrivateDnsContributor))
    case PublicPerm(zone) =>
      if |oks| == 0 then Ask(GetZone(zone))
      else if sh.cluster.None? then Panic
      else Ask(AssignRole(oks[0].id, sh.cluster.value.principalId, DnsContributor))
    case NetworkPerm =>
      if sh.cluster.None? then Panic
      else if sh.vnetId == "" || sh.subnetId == "" then Quit
      else Ask(AssignRole(if |oks| == 0 then sh.vnetId else sh.subnetId,
                          sh.cluster.value.principalId, NetworkContributor))
    case RolloutDns =>
      if |sh.zones| == 0 || |sh.privateZones| == 0 || sh.cluster.None? then Panic
      else Ask(DeployExternalDns(sh.zones[0], sh.privateZones[0]))
    case RolloutNginx =>
      if |sh.zones| == 0 || sh.cluster.None? then Panic
      else Ask(DeployNginx(sh.zones[0]))
  }

  // The shared variables after a call was answered, success or not.
  function Assigned(sh: Shared, call: Call, reply: Reply): Shared {
    match call
    case CreateZone => if reply.Granted? then sh.(zones := sh.zones + [reply.id]) else sh
    case CreatePrivateZone => if reply.Granted? then sh.(privateZones := sh.privateZones + [reply.id]) else sh
    case CreateVnet(_) =>
      if reply.Granted? then sh.(vnetId := reply.id, subnetId := reply.aux)
      else sh.(vnetId := "", subnetId := "")
    case CreateCluster(_) =>
      if reply.Granted? then sh.(cluster := Some(Cluster(reply.id, reply.aux))) else sh.(cluster := None)
    case _ => sh
  }

  function Fork(job: Job): Slot { Slot(job, [], None, Live) }

  function PrivatePerms(zones: seq<string>): seq<Job> {
    seq(|zones|, i requires 0 <= i < |zones| => PrivatePerm(zones[i]))
  }

  function PublicPerms(zones: seq<string>): seq<Job> {
    seq(|zones|, i requires 0 <= i < |zones| => PublicPerm(zones[i]))
  }

  function Jobs(phase: nat, sh: Shared): seq<Job> {
    if phase == 0 then [MakeGroup]
    else if phase == 1 then [MakeZone, MakePrivateZone]
    else if phase == 2 then [MakeVnet]
    else if phase == 3 then [MakeCluster]
    else if phase == 4 then PrivatePerms(sh.privateZones) + PublicPerms(sh.zones) + [NetworkPerm]
    else if phase == 5 then [RolloutDns]
    else [RolloutNginx]
  }

  function Spawn(phase: nat, sh: Shared): seq<Slot> {
    var jobs := Jobs(phase, sh);
    seq(|jobs|, i requires 0 <= i < |jobs| => Fork(jobs[i]))
  }

  function GroupOf(phase: nat): Group {
    if 1 <= phase <= 3 then ResEg else if phase == 4 then PermEg else Main
  }

  // errgroup keeps the first error it is given.
  function Record(errs: map<Group, Failure>, group: Group, error: Failure): map<Group, Failure> {
    if group in errs then errs else errs[group := error]
  }

  /******* Steps *******/

  function StartShared(seed: Seed): Shared {
    Shared(seed.zones, seed.privateZones, "", "", None, "", "")
  }

  function Init(seed: Seed): State {
    State(seed, 0, Spawn(0, StartShared(seed)), [], StartShared(seed), map[], [], InProgress)
  }

  predicate Joined(slots: seq<Slot>) {
    forall i :: 0 <= i < |slots| ==> !slots[i].status.Live?
  }

  function Normal(call: Call, reply: Reply): Reply {
    if reply.Fatal? && !call.CreateVnet? then Refused else reply
  }

  function StepIssue(s: State, i: nat): State
    requires i < |s.slots|
  {
    var slot := s.slots[i];
    match Plan(s.sh, slot.job, slot.oks)
    case Panic => s.(out := Crashed)
    case Quit =>
      s.(slots := s.slots[i := slot.(status := Broken)],
         errs := Record(s.errs, GroupOf(s.phase), Failure(s.phase, i)))
    case Ask(call) =>
      s.(slots := s.slots[i := slot.(pending := Some(call))],
         log := s.log + [Entry(s.phase, i, Issued(call))])
  }

  // The task after its pending call was granted.
  function Credited(slot: Slot, id: string, aux: string): Slot
    requires slot.pending.Some?
  {
    var oks := slot.oks + [Grant(slot.pending.value, id, aux)];
    Slot(slot.job, oks, None, if |oks| == Steps(slot.job) then Done else Live)
  }

  function StepAnswer(s: State, i: nat, answer: Reply): State
    requires i < |s.slots| && s.slots[i].pending.Some?
  {
    var slot := s.slots[i];
    var call := slot.pending.value;
    var reply := Normal(call, answer);
    var log := s.log + [Entry(s.phase, i, Answered(call, reply))];
    match reply
    case Fatal => s.(log := log, out := Halted)
    case Refused =>
      s.(slots := s.slots[i := slot.(status := Broken)],
         sh := Assigned(s.sh, call, reply),
         errs := Record(s.errs, GroupOf(s.phase), Failure(s.phase, i)),
         log := log)
    case Granted(id, aux) =>
      s.(slots := s.slots[i := Credited(slot, id, aux)],
         sh := Assigned(s.sh, call, reply),
         log := log)
  }

  // Wait returned: give up on an error, otherwise go on to the next phase.
  function StepJoin(s: State): State {
    var group := GroupOf(s.phase);
    if group in s.errs then
      s.(out := if s.phase <= 4 then FailedEmpty(s.errs[group]) else FailedWith(s.sh, s.errs[group]))
    else if s.phase >= LAST_PHASE then
      s.(out := Succeeded(s.sh.(ipv4ServiceName := IPV4_SERVICE, ipv6ServiceName := IPV6_SERVICE)))
    else
      s.(phase := s.phase + 1, slots := Spawn(s.phase + 1, s.sh), past := s.past + [s.slots])
  }

  // Whether the event is possible.
  predicate Enabled(s: State, e: Event) {
    && s.out.InProgress?
    && match e
       case Move(i, _) => i < |s.slots| && s.slots[i].status.Live?
       case Join => Joined(s.slots)
  }

  function Step(s: State, e: Event): State {
    if !Enabled(s, e) then s
    else match e
      case Join => StepJoin(s)
      case Move(i, reply) => if s.slots[i].pending.None? then StepIssue(s, i) else StepAnswer(s, i, reply)
  }

  function Exec(s: State, schedule: seq<Event>): State {
    if schedule == [] then s
    else Step(Exec(s, schedule[..|schedule| - 1]), schedule[|schedule| - 1])
  }

  // The state a schedule leads to.
  function After(seed: Seed, schedule: seq<Event>): State { Exec(Init(seed), schedule) }

  /******* What the log says of one task *******/

  function Of(log: seq<Entry>, phase: nat, slot: nat): seq<CallEvent> {
    if log == [] then []
    else
      var e := log[|log| - 1];
      var rest := Of(log[..|log| - 1], phase, slot);
      if e.phase == phase && e.slot == slot then rest + [e.event] else rest
  }

  function Granteds(oks: seq<Grant>): seq<CallEvent> {
    if oks == [] then []
    else
      var g := oks[|oks| - 1];
      Granteds(oks[..|oks| - 1]) + [Issued(g.call), Answered(g.call, Granted(g.id, g.aux))]
  }

  // The calls and answers of a task in its own order.
  function Story(slot: Slot): seq<CallEvent> {
    Granteds(slot.oks)
    + (match slot.pending
       case None => []
       case Some(call) => if slot.status.Broken? then [Issued(call), Answered(call, Refused)] else [Issued(call)])
  }

  /******* The invariant *******/

  ghost predicate SlotOk(sh: Shared, slot: Slot) {
    && |slot.oks| <= Steps(slot.job)
    && (slot.status.Done? <==> |slot.oks| == Steps(slot.job))
    && (|slot.oks| >= 1 ==> Plan(sh, slot.job, []) == Ask(slot.oks[0].call))
    && (|slot.oks| >= 2 ==> Plan(sh, slot.job, [slot.oks[0]]) == Ask(slot.oks[1].call))
    && (slot.pending.Some? ==>
          !slot.status.Done? && Plan(sh, slot.job, slot.oks) == Ask(slot.pending.value))
    && (slot.status.Broken? && slot.pending.None? ==> Plan(sh, slot.job, slot.oks) == Quit)
  }

  // The tasks of a phase are those the code forks, each following its closure.
  ghost predicate PhaseOk(sh: Shared, phase: nat, slots: seq<Slot>) {
    var jobs := Jobs(phase, sh);
    && |slots| == |jobs|
    && (forall i :: 0 <= i < |slots| ==> slots[i].job == jobs[i])
    && (forall i :: 0 <= i < |slots| ==> SlotOk(sh, slots[i]))
  }

  ghost predicate AllDone(slots: seq<Slot>) {
    forall i :: 0 <= i < |slots| ==> slots[i].status.Done?
  }

  ghost predicate PastOk(sh: Shared, past: seq<seq<Slot>>) {
    forall p :: 0 <= p < |past| ==> PhaseOk(sh, p, past[p]) && AllDone(past[p])
  }

  // The id that the first call of a task returned, if it was granted.
  function FirstId(slots: seq<Slot>, i: nat): seq<string> {
    if i < |slots| && |slots[i].oks| > 0 then [slots[i].oks[0].id] else []
  }

  // What the shared variables hold, in terms of the answers the tasks of the phases got.
  ghost predicate SharedOk(seed: Seed, sh: Shared, phases: seq<seq<Slot>>) {
    && sh.zones == seed.zones + (if |phases| <= 1 then [] else FirstId(phases[1], 0))
    && sh.privateZones == seed.privateZones + (if |phases| <= 1 then [] else FirstId(phases[1], 1))
    && (|phases| > 2 ==>
          && |phases[2]| == 1
          && (|phases[2][0].oks| > 0 ==>
                sh.vnetId == phases[2][0].oks[0].id && sh.subnetId == phases[2][0].oks[0].aux))
    && (|phases| > 3 ==>
          && |phases[3]| == 1
          && (|phases[3][0].oks| > 0 ==>
                sh.cluster == Some(Cluster(phases[3][0].oks[0].id, phases[3][0].oks[0].aux))))
  }

  // What the variables hold once a phase has been reached.
  ghost predicate Ready(sh: Shared, phase: nat) {
    && (phase >= 2 ==> |sh.zones| > 0 && |sh.privateZones| > 0)
    && (phase >= 4 ==> sh.cluster.Some?)
  }

  // An error is recorded only for a broken task of the phase being run, and for every one of them.
  ghost predicate ErrsOk(errs: map<Group, Failure>, phase: nat, slots: seq<Slot>) {
    && (forall g :: g in errs ==>
          && g == GroupOf(phase) && errs[g].phase == phase
          && errs[g].slot < |slots| && slots[errs[g].slot].status.Broken?)
    && (GroupOf(phase) !in errs ==> forall i :: 0 <= i < |slots| ==> !slots[i].status.Broken?)
  }

  // The log of each task of a phase is its story.
  ghost predicate StoriesOk(log: seq<Entry>, phase: nat, slots: seq<Slot>) {
    forall i :: 0 <= i < |slots| ==> Of(log, phase, i) == Story(slots[i])
  }

  ghost predicate PastStoriesOk(log: seq<Entry>, past: seq<seq<Slot>>) {
    forall p :: 0 <= p < |past| ==> StoriesOk(log, p, past[p])
  }

  // Entries belong to tasks that exist and come in the order of the phases.
  ghost predicate LogOk(log: seq<Entry>, past: seq<seq<Slot>>, slots: seq<Slot>) {
    && (forall n :: 0 <= n < |log| ==>
          && log[n].phase <= |past|
          && log[n].slot < (if log[n].phase < |past| then |past[log[n].phase]| else |slots|))
    && (forall m, n :: 0 <= m < n < |log| ==> log[m].phase <= log[n].phase)
  }

  ghost predicate Inv(s: State) {
    && s.phase == |s.past| <= LAST_PHASE
    && PastOk(s.sh, s.past)
    && PhaseOk(s.sh, s.phase, s.slots)
    && SharedOk(s.seed, s.sh, s.past + [s.slots])
    && Ready(s.sh, s.phase)
    && ErrsOk(s.errs, s.phase, s.slots)
    && LogOk(s.log, s.past, s.slots)
    && PastStoriesOk(s.log, s.past)
    && (!s.out.Halted? ==> StoriesOk(s.log, s.phase, s.slots))
    && OutOk(s)
  }

  ghost predicate OutOk(s: State) {
    match s.out
    case InProgress => true
    case Crashed => false
    case Halted => s.phase == 2
    case Succeeded(ret) =>
      && s.phase == LAST_PHASE && AllDone(s.slots) && s.errs == map[]
      && ret == s.sh.(ipv4ServiceName := IPV4_SERVICE, ipv6ServiceName := IPV6_SERVICE)
    case FailedEmpty(error) =>
      s.phase <= 4 && Joined(s.slots) && GroupOf(s.phase) in s.errs && error == s.errs[GroupOf(s.phase)]
    case FailedWith(ret, error) =>
      && s.phase > 4 && ret == s.sh
      && Joined(s.slots) && GroupOf(s.phase) in s.errs && error == s.errs[GroupOf(s.phase)]
  }

  lemma InitInv(seed: Seed)
    ensures Inv(Init(seed))
  {
  }

  // A task of a past phase no longer reads anything that later phases write.
  lemma PlanStable(sh: Shared, sh': Shared, phase: nat, job: Job, oks: seq<Grant>)
    requires job in Jobs(phase, sh)
    requires phase <= 1 || (sh'.zones == sh.zones && sh'.privateZones == sh.privateZones)
    requires phase <= 1 || (sh'.vnetId == sh.vnetId && sh'.subnetId == sh.subnetId)
    requires phase <= 3 || sh'.cluster == sh.cluster
    ensures Plan(sh, job, oks) == Plan(sh', job, oks)
  {
  }

  lemma OfAppend(log: seq<Entry>, e: Entry, phase: nat, slot: nat)
    ensures Of(log + [e], phase, slot) ==
            if e.phase == phase && e.slot == slot then Of(log, phase, slot) + [e.event] else Of(log, phase, slot)
  {
    assert (log + [e])[..|log|] == log;
  }

  // A phase that has not logged anything yet has empty stories.
  lemma OfFresh(log: seq<Entry>, phase: nat, slot: nat)
    requires forall n :: 0 <= n < |log| ==> log[n].phase != phase
    ensures Of(log, phase, slot) == []
  {
  }

  lemma GrantedsAppend(oks: seq<Grant>, g: Grant)
    ensures Granteds(oks + [g]) == Granteds(oks) + [Issued(g.call), Answered(g.call, Granted(g.id, g.aux))]
  {
    assert (oks + [g])[..|oks|] == oks;
  }

  // The lists that a task indexes are filled, and the cluster is set, whenever it runs.
  lemma NoPanic(sh: Shared, phase: nat, slots: seq<Slot>, i: nat)
    requires PhaseOk(sh, phase, slots) && Ready(sh, phase) && phase <= LAST_PHASE && i < |slots|
    ensures !Plan(sh, slots[i].job, slots[i].oks).Panic?
  {
  }

  // One more entry of a task of the current phase is matched by one more step of its story.
  lemma LogStep(s: State, i: nat, slot: Slot, event: CallEvent)
    requires Inv(s) && !s.out.Halted? && i < |s.slots|
    requires Story(slot) == Story(s.slots[i]) + [event]
    ensures var log := s.log + [Entry(s.phase, i, event)];
            && LogOk(log, s.past, s.slots[i := slot])
            && StoriesOk(log, s.phase, s.slots[i := slot])
            && PastStoriesOk(log, s.past)
  {
    var e := Entry(s.phase, i, event);
    PastLogged(s, e);
    NowLogged(s.log, s.phase, s.slots, i, slot, e);
    EntryLogged(s.log, s.past, s.slots, e);
    hide StoriesOk, PastStoriesOk, PastOk, PhaseOk, SharedOk;
  }

  lemma EntryLogged(log: seq<Entry>, past: seq<seq<Slot>>, slots: seq<Slot>, e: Entry)
    requires LogOk(log, past, slots) && e.phase == |past| && e.slot < |slots|
    ensures LogOk(log + [e], past, slots)
  {
  }

  lemma NowLogged(log: seq<Entry>, phase: nat, slots: seq<Slot>, i: nat, slot: Slot, e: Entry)
    requires StoriesOk(log, phase, slots) && i < |slots|
    requires e.phase == phase && e.slot == i && Story(slot) == Story(slots[i]) + [e.event]
    ensures StoriesOk(log + [e], phase, slots[i := slot])
  {
    forall j | 0 <= j < |slots|
      ensures Of(log + [e], phase, j) == Story(slots[i := slot][j])
    {
      OfAppend(log, e, phase, j);
    }
  }

  lemma SlotReplaced(sh: Shared, phase: nat, slots: seq<Slot>, i: nat, slot: Slot)
    requires PhaseOk(sh, phase, slots) && i < |slots|
    requires SlotOk(sh, slot) && slot.job == slots[i].job
    ensures PhaseOk(sh, phase, slots[i := slot])
  {
  }

  lemma SlotStays(sh: Shared, phase: nat, slots: seq<Slot>, i: nat, slot: Slot)
    requires PhaseOk(sh, phase, slots) && i < |slots| && slots[i].pending.None? && slots[i].status.Live?
    requires
      || (slot == slots[i].(status := Broken) && Plan(sh, slot.job, slot.oks) == Quit)
      || (slot.pending.Some? && slot == slots[i].(pending := slot.pending)
          && Plan(sh, slot.job, slot.oks) == Ask(slot.pending.value))
    ensures SlotOk(sh, slot)
  {
  }

  // A task that issues a call or breaks has been granted nothing new.
  lemma SharedKept(seed: Seed, sh: Shared, past: seq<seq<Slot>>, slots: seq<Slot>, i: nat, slot: Slot)
    requires SharedOk(seed, sh, past + [slots]) && i < |slots|
    requires slot.oks == slots[i].oks
    ensures SharedOk(seed, sh, past + [slots[i := slot]])
  {
  }

  // A task that breaks leaves its error in the group; the first error stays.
  lemma ErrsBroken(errs: map<Group, Failure>, phase: nat, slots: seq<Slot>, i: nat, slot: Slot)
    requires ErrsOk(errs, phase, slots) && i < |slots| && slot.status.Broken?
    ensures ErrsOk(Record(errs, GroupOf(phase), Failure(phase, i)), phase, slots[i := slot])
  {
  }

  lemma ErrsKept(errs: map<Group, Failure>, phase: nat, slots: seq<Slot>, i: nat, slot: Slot)
    requires ErrsOk(errs, phase, slots) && i < |slots|
    requires !slot.status.Broken? && !slots[i].status.Broken?
    ensures ErrsOk(errs, phase, slots[i := slot])
  {
  }

  lemma IssueInv(s: State, i: nat)
    requires Inv(s) && Enabled(s, Move(i, Refused)) && s.slots[i].pending.None?
    ensures Inv(StepIssue(s, i))
  {
    NoPanic(s.sh, s.phase, s.slots, i);
    match Plan(s.sh, s.slots[i].job, s.slots[i].oks)
    case Ask(call) => AskInv(s, i, call);
    case Quit => QuitInv(s, i);
  }

  lemma AskInv(s: State, i: nat, call: Call)
    requires Inv(s) && Enabled(s, Move(i, Refused)) && s.slots[i].pending.None?
    requires Plan(s.sh, s.slots[i].job, s.slots[i].oks) == Ask(call)
    ensures Inv(StepIssue(s, i))
  {
    hide PhaseOk, PastOk, SharedOk, ErrsOk, LogOk, StoriesOk, PastStoriesOk, Ready, SlotOk;
    var slot := s.slots[i].(pending := Some(call));
    SlotStays(s.sh, s.phase, s.slots, i, slot);
    SlotReplaced(s.sh, s.phase, s.slots, i, slot);
    SharedKept(s.seed, s.sh, s.past, s.slots, i, slot);
    ErrsKept(s.errs, s.phase, s.slots, i, slot);
    LogStep(s, i, slot, Issued(call));
  }

  lemma QuitInv(s: State, i: nat)
    requires Inv(s) && Enabled(s, Move(i, Refused)) && s.slots[i].pending.None?
    requires Plan(s.sh, s.slots[i].job, s.slots[i].oks) == Quit
    ensures Inv(StepIssue(s, i))
  {
    hide PhaseOk, PastOk, SharedOk, ErrsOk, LogOk, StoriesOk, PastStoriesOk, Ready, SlotOk;
    var slot := s.slots[i].(status := Broken);
    SlotStays(s.sh, s.phase, s.slots, i, slot);
    SlotReplaced(s.sh, s.phase, s.slots, i, slot);
    SharedKept(s.seed, s.sh, s.past, s.slots, i, slot);
    ErrsBroken(s.errs, s.phase, s.slots, i, slot);
    LogQuiet(s, i, slot);
  }

  // A task that breaks without a call leaves no trace in the log.
  lemma LogQuiet(s: State, i: nat, slot: Slot)
    requires Inv(s) && !s.out.Halted? && i < |s.slots|
    requires Story(slot) == Story(s.slots[i])
    ensures LogOk(s.log, s.past, s.slots[i := slot])
    ensures StoriesOk(s.log, s.phase, s.slots[i := slot])
  {
  }

  // Which shared variables an answer may change: each is written by one phase only.
  ghost predicate Writes(phase: nat, sh: Shared, sh': Shared) {
    && (phase >= 2 ==> sh'.zones == sh.zones && sh'.privateZones == sh.privateZones)
    && (phase != 2 ==> sh'.vnetId == sh.vnetId && sh'.subnetId == sh.subnetId)
    && (phase != 3 ==> sh'.cluster == sh.cluster)
  }

  lemma AssignedWrites(sh: Shared, phase: nat, slots: seq<Slot>, i: nat, reply: Reply)
    requires PhaseOk(sh, phase, slots) && i < |slots| && slots[i].pending.Some?
    ensures Writes(phase, sh, Assigned(sh, slots[i].pending.value, reply))
    ensures slots[i].pending.value.CreateVnet? ==> phase == 2
  {
  }

  lemma ReadyKept(sh: Shared, sh': Shared, phase: nat)
    requires Ready(sh, phase) && Writes(phase, sh, sh')
    ensures Ready(sh', phase)
  {
  }

  lemma PastKept(sh: Shared, sh': Shared, past: seq<seq<Slot>>)
    requires PastOk(sh, past) && Writes(|past|, sh, sh')
    ensures PastOk(sh', past)
  {
    forall p | 0 <= p < |past|
      ensures PhaseOk(sh', p, past[p])
    {
      PhaseKept(sh, sh', p, past[p]);
    }
  }

  lemma PhaseKept(sh: Shared, sh': Shared, phase: nat, slots: seq<Slot>)
    requires PhaseOk(sh, phase, slots)
    requires phase <= 1 || (sh'.zones == sh.zones && sh'.privateZones == sh.privateZones)
    requires phase <= 1 || (sh'.vnetId == sh.vnetId && sh'.subnetId == sh.subnetId)
    requires phase <= 3 || sh'.cluster == sh.cluster
    ensures PhaseOk(sh', phase, slots)
  {
    forall i | 0 <= i < |slots|
      ensures SlotOk(sh', slots[i])
    {
      assert slots[i].job in Jobs(phase, sh);
      PlanStable(sh, sh', phase, slots[i].job, []);
      PlanStable(sh, sh', phase, slots[i].job, slots[i].oks);
      if |slots[i].oks| >= 1 {
        PlanStable(sh, sh', phase, slots[i].job, [slots[i].oks[0]]);
      }
    }
  }

  lemma FatalInv(s: State, i: nat, answer: Reply)
    requires Inv(s) && Enabled(s, Move(i, answer)) && s.slots[i].pending.Some?
    requires Normal(s.slots[i].pending.value, answer).Fatal?
    ensures Inv(StepAnswer(s, i, answer))
  {
    hide PhaseOk, PastOk, SharedOk, ErrsOk, Ready, SlotOk, StoriesOk, PastStoriesOk, Writes;
    AssignedWrites(s.sh, s.phase, s.slots, i, answer);
    var e := Entry(s.phase, i, Answered(s.slots[i].pending.value, Fatal));
    PastLogged(s, e);
    EntryLogged(s.log, s.past, s.slots, e);
    hide LogOk;
  }

  // An entry of the current phase adds nothing to the stories of the past.
  lemma PastLogged(s: State, e: Entry)
    requires Inv(s) && e.phase == s.phase
    ensures PastStoriesOk(s.log + [e], s.past)
  {
    forall p | 0 <= p < |s.past|
      ensures StoriesOk(s.log + [e], p, s.past[p])
    {
      forall j | 0 <= j < |s.past[p]|
        ensures Of(s.log + [e], p, j) == Story(s.past[p][j])
      {
        OfAppend(s.log, e, p, j);
        assert StoriesOk(s.log, p, s.past[p]);
      }
    }
  }

  lemma RefusedSlot(sh: Shared, phase: nat, slots: seq<Slot>, i: nat)
    requires PhaseOk(sh, phase, slots) && i < |slots| && slots[i].pending.Some? && slots[i].status.Live?
    ensures PhaseOk(Assigned(sh, slots[i].pending.value, Refused), phase, slots[i := slots[i].(status := Broken)])
  {
    var slot := slots[i].(status := Broken);
    var sh' := Assigned(sh, slot.pending.value, Refused);
    AssignedWrites(sh, phase, slots, i, Refused);
    assert SlotOk(sh, slot);
    SlotReplaced(sh, phase, slots, i, slot);
    if phase != 2 {
      PhaseKept(sh, sh', phase, slots[i := slot]);
    }
  }

  lemma RefusedShared(seed: Seed, sh: Shared, past: seq<seq<Slot>>, slots: seq<Slot>, i: nat)
    requires SharedOk(seed, sh, past + [slots]) && PhaseOk(sh, |past|, slots)
    requires i < |slots| && slots[i].pending.Some? && slots[i].status.Live?
    ensures SharedOk(seed, Assigned(sh, slots[i].pending.value, Refused),
                     past + [slots[i := slots[i].(status := Broken)]])
  {
    PendingCall(sh, |past|, slots, i);
    hide PhaseOk;
  }

  // Which task makes which call, for the calls whose answers are stored in shared variables.
  lemma PendingCall(sh: Shared, phase: nat, slots: seq<Slot>, i: nat)
    requires PhaseOk(sh, phase, slots) && i < |slots| && slots[i].pending.Some? && slots[i].status.Live?
    ensures var call := slots[i].pending.value;
            && (call.CreateZone? <==> phase == 1 && i == 0)
            && (call.CreatePrivateZone? <==> phase == 1 && i == 1)
            && (call.CreateVnet? <==> phase == 2 && slots[i].oks == [])
            && (call.CreateCluster? <==> phase == 3)
    ensures phase == 1 || phase == 3 ==> slots[i].oks == []
    ensures phase == 1 ==> |slots| == 2
    ensures phase == 2 || phase == 3 ==> |slots| == 1
  {
    assert SlotOk(sh, slots[i]);
    assert slots[i].job == Jobs(phase, sh)[i];
  }

  lemma RefusedStory(slot: Slot)
    requires slot.pending.Some? && slot.status.Live?
    ensures Story(slot.(status := Broken)) == Story(slot) + [Answered(slot.pending.value, Refused)]
  {
  }

  lemma RefusedInv(s: State, i: nat, answer: Reply)
    requires Inv(s) && Enabled(s, Move(i, answer)) && s.slots[i].pending.Some?
    requires Normal(s.slots[i].pending.value, answer).Refused?
    ensures Inv(StepAnswer(s, i, answer))
  {
    var call := s.slots[i].pending.value;
    var slot := s.slots[i].(status := Broken);
    var sh' := Assigned(s.sh, call, Refused);
    hide PhaseOk, PastOk, SharedOk, ErrsOk, LogOk, StoriesOk, PastStoriesOk,
         Ready, SlotOk, Writes, Assigned, Story, Record;
    RefusedStory(s.slots[i]);
    AssignedWrites(s.sh, s.phase, s.slots, i, Refused);
    ReadyKept(s.sh, sh', s.phase);
    RefusedSlot(s.sh, s.phase, s.slots, i);
    PastKept(s.sh, sh', s.past);
    RefusedShared(s.seed, s.sh, s.past, s.slots, i);
    ErrsBroken(s.errs, s.phase, s.slots, i, slot);
    LogStep(s, i, slot, Answered(call, Refused));
  }

  lemma GrantedSlot(sh: Shared, phase: nat, slots: seq<Slot>, i: nat, id: string, aux: string)
    requires PhaseOk(sh, phase, slots) && i < |slots| && slots[i].pending.Some? && slots[i].status.Live?
    ensures PhaseOk(Assigned(sh, slots[i].pending.value, Granted(id, aux)), phase,
                    slots[i := Credited(slots[i], id, aux)])
  {
    var sh' := Assigned(sh, slots[i].pending.value, Granted(id, aux));
    AssignedWrites(sh, phase, slots, i, Granted(id, aux));
    assert SlotOk(sh, slots[i]);
    if phase == 2 {
      assert SlotOk(sh', Credited(slots[i], id, aux));
    } else {
      assert SlotOk(sh, Credited(slots[i], id, aux));
      SlotReplaced(sh, phase, slots, i, Credited(slots[i], id, aux));
      PhaseKept(sh, sh', phase, slots[i := Credited(slots[i], id, aux)]);
    }
  }

  lemma GrantedShared(seed: Seed, sh: Shared, past: seq<seq<Slot>>, slots: seq<Slot>, i: nat, id: string, aux: string)
    requires SharedOk(seed, sh, past + [slots]) && PhaseOk(sh, |past|, slots)
    requires i < |slots| && slots[i].pending.Some? && slots[i].status.Live?
    ensures SharedOk(seed, Assigned(sh, slots[i].pending.value, Granted(id, aux)),
                     past + [slots[i := Credited(slots[i], id, aux)]])
  {
    PendingCall(sh, |past|, slots, i);
    hide PhaseOk;
  }

  lemma GrantedStory(slot: Slot, id: string, aux: string)
    requires slot.pending.Some? && slot.status.Live?
    ensures Story(Credited(slot, id, aux)) == Story(slot) + [Answered(slot.pending.value, Granted(id, aux))]
  {
    GrantedsAppend(slot.oks, Grant(slot.pending.value, id, aux));
  }

  lemma GrantedInv(s: State, i: nat, answer: Reply)
    requires Inv(s) && Enabled(s, Move(i, answer)) && s.slots[i].pending.Some? && answer.Granted?
    ensures Inv(StepAnswer(s, i, answer))
  {
    var call := s.slots[i].pending.value;
    var slot := Credited(s.slots[i], answer.id, answer.aux);
    var sh' := Assigned(s.sh, call, answer);
    hide PhaseOk, PastOk, SharedOk, ErrsOk, LogOk, StoriesOk, PastStoriesOk, Ready, SlotOk, Writes, Assigned, Story;
    AssignedWrites(s.sh, s.phase, s.slots, i, answer);
    ReadyKept(s.sh, sh', s.phase);
    GrantedStory(s.slots[i], answer.id, answer.aux);
    GrantedSlot(s.sh, s.phase, s.slots, i, answer.id, answer.aux);
    PastKept(s.sh, sh', s.past);
    GrantedShared(s.seed, s.sh, s.past, s.slots, i, answer.id, answer.aux);
    ErrsKept(s.errs, s.phase, s.slots, i, slot);
    LogStep(s, i, slot, Answered(call, answer));
  }

  lemma JoinedAllDone(errs: map<Group, Failure>, phase: nat, slots: seq<Slot>)
    requires ErrsOk(errs, phase, slots) && Joined(slots) && GroupOf(phase) !in errs
    ensures AllDone(slots) && errs == map[]
  {
  }

  lemma SpawnOk(sh: Shared, phase: nat)
    ensures PhaseOk(sh, phase, Spawn(phase, sh))
  {
  }

  // The phase that ends has filled what the next one reads.
  lemma ReadyNext(seed: Seed, sh: Shared, past: seq<seq<Slot>>, slots: seq<Slot>)
    requires SharedOk(seed, sh, past + [slots]) && PhaseOk(sh, |past|, slots) && AllDone(slots)
    requires Ready(sh, |past|)
    ensures Ready(sh, |past| + 1)
  {
    if |past| == 1 {
      assert SlotOk(sh, slots[0]) && SlotOk(sh, slots[1]);
    }
    if |past| == 3 {
      assert SlotOk(sh, slots[0]);
    }
  }

  lemma SharedNext(seed: Seed, sh: Shared, past: seq<seq<Slot>>, slots: seq<Slot>)
    requires SharedOk(seed, sh, past + [slots]) && PhaseOk(sh, |past|, slots)
    ensures SharedOk(seed, sh, past + [slots] + [Spawn(|past| + 1, sh)])
  {
    var next := Spawn(|past| + 1, sh);
    var phases := past + [slots];
    assert forall i :: 0 <= i < |next| ==> next[i].oks == [];
    assert forall p :: 0 <= p < |phases| ==> (phases + [next])[p] == phases[p];
    assert (phases + [next])[|phases|] == next;
    assert |next| == |Jobs(|phases|, sh)|;
  }

  lemma NextInv(s: State)
    requires Inv(s) && Enabled(s, Join) && GroupOf(s.phase) !in s.errs && s.phase < LAST_PHASE
    ensures Inv(StepJoin(s))
  {
    hide PhaseOk, PastOk, SharedOk, ErrsOk, LogOk, StoriesOk, PastStoriesOk,
         Ready, SlotOk, AllDone, Spawn, Jobs, Story, Joined;
    var next := Spawn(s.phase + 1, s.sh);
    var s' := s.(phase := s.phase + 1, slots := next, past := s.past + [s.slots]);
    assert StepJoin(s) == s';
    hide StepJoin;
    JoinedAllDone(s.errs, s.phase, s.slots);
    SpawnOk(s.sh, s.phase + 1);
    NextPast(s.sh, s.past, s.slots);
    ReadyNext(s.seed, s.sh, s.past, s.slots);
    SharedNext(s.seed, s.sh, s.past, s.slots);
    NextErrs(s.sh, s.phase + 1);
    NextLog(s.log, s.past, s.slots, next);
    NextStories(s.log, s.past, s.slots, s.sh);
    PastStories(s.log, s.past, s.slots);
  }

  lemma NextPast(sh: Shared, past: seq<seq<Slot>>, slots: seq<Slot>)
    requires PastOk(sh, past) && PhaseOk(sh, |past|, slots) && AllDone(slots)
    ensures PastOk(sh, past + [slots])
  {
  }

  lemma NextErrs(sh: Shared, phase: nat)
    ensures ErrsOk(map[], phase, Spawn(phase, sh))
  {
  }

  lemma NextLog(log: seq<Entry>, past: seq<seq<Slot>>, slots: seq<Slot>, next: seq<Slot>)
    requires LogOk(log, past, slots)
    ensures LogOk(log, past + [slots], next)
  {
  }

  // The new tasks have not logged anything.
  lemma NextStories(log: seq<Entry>, past: seq<seq<Slot>>, slots: seq<Slot>, sh: Shared)
    requires LogOk(log, past, slots)
    ensures StoriesOk(log, |past| + 1, Spawn(|past| + 1, sh))
  {
    var next := Spawn(|past| + 1, sh);
    forall i | 0 <= i < |next|
      ensures Of(log, |past| + 1, i) == Story(next[i])
    {
      OfFresh(log, |past| + 1, i);
      assert next[i].oks == [];
    }
  }

  lemma PastStories(log: seq<Entry>, past: seq<seq<Slot>>, slots: seq<Slot>)
    requires PastStoriesOk(log, past) && StoriesOk(log, |past|, slots)
    ensures PastStoriesOk(log, past + [slots])
  {
  }

  lemma EndInv(s: State)
    requires Inv(s) && Enabled(s, Join)
    requires GroupOf(s.phase) in s.errs || s.phase == LAST_PHASE
    ensures Inv(StepJoin(s))
  {
    if GroupOf(s.phase) !in s.errs {
      JoinedAllDone(s.errs, s.phase, s.slots);
    }
  }

  lemma MoveInv(s: State, i: nat, answer: Reply)
    requires Inv(s) && Enabled(s, Move(i, answer))
    ensures Inv(if s.slots[i].pending.None? then StepIssue(s, i) else StepAnswer(s, i, answer))
  {
    hide Inv, StepIssue, StepAnswer;
    if s.slots[i].pending.None? {
      IssueInv(s, i);
    } else {
      match Normal(s.slots[i].pending.value, answer)
      case Fatal => FatalInv(s, i, answer);
      case Refused => RefusedInv(s, i, answer);
      case Granted(_, _) => GrantedInv(s, i, answer);
    }
  }

  lemma JoinInv(s: State)
    requires Inv(s) && Enabled(s, Join)
    ensures Inv(StepJoin(s))
  {
    assert s.phase <= LAST_PHASE;
    hide Inv, StepJoin;
    if GroupOf(s.phase) !in s.errs && s.phase < LAST_PHASE {
      NextInv(s);
    } else {
      EndInv(s);
    }
  }

  lemma StepInv(s: State, e: Event)
    requires Inv(s)
    ensures Inv(Step(s, e))
  {
    hide Inv, StepJoin, StepIssue, StepAnswer;
    if Enabled(s, e) {
      match e
      case Join => JoinInv(s);
      case Move(i, answer) => MoveInv(s, i, answer);
    }
  }

  lemma SeedKept(s: State, e: Event)
    ensures Step(s, e).seed == s.seed
  {
  }

  // Every interleaving, with every answer of the outside world, keeps the invariant.
  lemma {:induction false} ExecInv(seed: Seed, schedule: seq<Event>)
    ensures Inv(After(seed, schedule))
    ensures After(seed, schedule).seed == seed
  {
    if schedule == [] {
      InitInv(seed);
    } else {
      hide Inv, Step;
      ExecInv(seed, schedule[..|schedule| - 1]);
      StepInv(After(seed, schedule[..|schedule| - 1]), schedule[|schedule| - 1]);
      SeedKept(After(seed, schedule[..|schedule| - 1]), schedule[|schedule| - 1]);
    }
  }
}
