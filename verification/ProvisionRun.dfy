/** infra/provision.go: `infra.Provision` as code that updates its variables. The closures write the
  * shared variables, the scheduler and the outside world choose freely, and each step is the step
  * of module Provisioning, so that every run ends in a state that some schedule leads to.
  */
module ProvisionRun {
  import opened Wrappers
  import opened Provisioning
  import Safety = ProvisioningSafety

  class Run {
    const seed: Seed
    // The variables of the Go function.
    var zones: seq<string>
    var privateZones: seq<string>
    var vnetId: string
    var subnetId: string
    var cluster: Option<Cluster>
    var ipv4ServiceName: string
    var ipv6ServiceName: string
    // The tasks that are running and the errors of the groups.
    var phase: nat
    var slots: seq<Slot>
    var errs: map<Group, Failure>
    var out: Outcome
    ghost var past: seq<seq<Slot>>
    ghost var log: seq<Entry>
    ghost var schedule: seq<Event>

    ghost function View(): State
      reads this
    {
      State(seed, phase, slots, past, Ret(), errs, log, out)
    }

    function Ret(): Shared
      reads this
    {
      Shared(zones, privateZones, vnetId, subnetId, cluster, ipv4ServiceName, ipv6ServiceName)
    }

    // The state is one that a schedule leads to.
    ghost predicate Valid()
      reads this
    {
      View() == After(seed, schedule)
    }

    constructor (seed: Seed)
      ensures this.seed == seed && View() == Init(seed) && Valid()
    {
      this.seed := seed;
      zones, privateZones := seed.zones, seed.privateZones;
      vnetId, subnetId, cluster := "", "", None;
      ipv4ServiceName, ipv6ServiceName := "", "";
      phase, slots, errs, out := 0, Spawn(0, StartShared(seed)), map[], InProgress;
      past, log, schedule := [], [], [];
    }

    // A closure goes on to its next call, gives up, or panics.
    method Issue(i: nat)
      requires i < |slots| && slots[i].status.Live? && slots[i].pending.None?
      modifies this
      ensures View() == StepIssue(old(View()), i) && schedule == old(schedule)
    {
      var slot := slots[i];
      match Plan(Ret(), slot.job, slot.oks) {
        case Panic =>
          out := Crashed;
        case Quit =>
          slots := slots[i := slot.(status := Broken)];
          errs := Record(errs, GroupOf(phase), Failure(phase, i));
        case Ask(call) =>
          slots := slots[i := slot.(pending := Some(call))];
          log := log + [Entry(phase, i, Issued(call))];
      }
    }

    // A closure stores what a call returned.
    method Store(call: Call, reply: Reply)
      modifies this
      ensures View() == old(View()).(sh := Assigned(old(Ret()), call, reply)) && schedule == old(schedule)
    {
      match call {
        case CreateZone => if reply.Granted? { zones := zones + [reply.id]; }
        case CreatePrivateZone => if reply.Granted? { privateZones := privateZones + [reply.id]; }
        case CreateVnet(_) =>
          if reply.Granted? { vnetId, subnetId := reply.id, reply.aux; } else { vnetId, subnetId := "", ""; }
        case CreateCluster(_) =>
          cluster := if reply.Granted? then Some(Cluster(reply.id, reply.aux)) else None;
        case _ =>
      }
    }

    // The answer to the pending call of a closure.
    method Answer(i: nat, answer: Reply)
      requires i < |slots| && slots[i].status.Live? && slots[i].pending.Some?
      modifies this
      ensures View() == StepAnswer(old(View()), i, answer) && schedule == old(schedule)
    {
      var slot := slots[i];
      var call := slot.pending.value;
      var reply := Normal(call, answer);
      log := log + [Entry(phase, i, Answered(call, reply))];
      match reply {
        case Fatal =>
          out := Halted;
        case Refused =>
          Store(call, reply);
          slots := slots[i := slot.(status := Broken)];
          errs := Record(errs, GroupOf(phase), Failure(phase, i));
        case Granted(id, aux) =>
          Store(call, reply);
          slots := slots[i := Credited(slot, id, aux)];
      }
    }

    // The main goroutine after Wait: return the error, return ret, or fork the next tasks.
    method AfterWait()
      modifies this
      ensures View() == StepJoin(old(View())) && schedule == old(schedule)
    {
      var group := GroupOf(phase);
      if group in errs {
        out := if phase <= 4 then FailedEmpty(errs[group]) else FailedWith(Ret(), errs[group]);
      } else if phase >= LAST_PHASE {
        out := Succeeded(Ret().(ipv4ServiceName := IPV4_SERVICE, ipv6ServiceName := IPV6_SERVICE));
      } else {
        past := past + [slots];
        phase, slots := phase + 1, Spawn(phase + 1, Ret());
      }
    }

    // Lets the event happen.
    method Do(e: Event)
      requires Valid() && Enabled(View(), e)
      modifies this
      ensures Valid() && Safety.Work(View()) < Safety.Work(old(View()))
    {
      ghost var s := View();
      match e {
        case Join => AfterWait();
        case Move(i, answer) =>
          if slots[i].pending.None? { Issue(i); } else { Answer(i, answer); }
      }
      schedule := schedule + [e];
      assert View() == Step(s, e);
      assert schedule[..|schedule| - 1] == old(schedule);
      ExecInv(seed, old(schedule));
      Safety.StepWork(s, e);
    }

    /** Runs to the end under an arbitrary scheduler and arbitrary answers, and always gets there. */
    method Provision() returns (ret: Option<Shared>, error: Option<Failure>)
      requires Valid()
      modifies this
      ensures Valid() && !out.InProgress? && !out.Crashed?
      ensures ret.Some? && error.None? <==> out.Succeeded?
      ensures !out.Halted? ==> (out.Succeeded? <==> Safety.AllGranted(log) && vnetId != "" && subnetId != "")
      ensures out.Succeeded? ==> ret.value.vnetId == vnetId && ret.value.subnetId == subnetId
      ensures out.Succeeded? ==>
                && ret.value.cluster.Some?
                && Safety.RolesAssigned(log, ret.value.privateZones, ret.value.zones, ret.value.vnetId,
                                        ret.value.subnetId, ret.value.cluster.value.principalId)
                && Safety.Created(log, seed, ret.value) && Safety.Connected(log, ret.value)
      ensures error.Some? ==> Safety.Refusal(log, error.value) || Safety.EmptyIds(View())
    {
      while out.InProgress?
        invariant Valid()
        decreases Safety.Work(View())
      {
        var e: Event;
        if exists i :: 0 <= i < |slots| && slots[i].status.Live? {
          var i :| 0 <= i < |slots| && slots[i].status.Live?;
          var answer: Reply := *;
          e := Move(i, answer);
        } else {
          e := Join;
        }
        Do(e);
      }
      Safety.NeverCrashes(seed, schedule);
      match out {
        case Succeeded(value) =>
          ret, error := Some(value), None;
          Safety.RolesExact(seed, schedule);
          Safety.ResourcesConnected(seed, schedule);
          Safety.EndExact(seed, schedule);
        case FailedEmpty(f) =>
          ret, error := None, Some(f);
          Safety.EndExact(seed, schedule);
        case FailedWith(value, f) =>
          ret, error := Some(value), Some(f);
          Safety.EndExact(seed, schedule);
        case Crashed | Halted | InProgress =>
          ret, error := None, None;
      }
    }
  }
}
