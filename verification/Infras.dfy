/** infra/provision.go: `infras.Provision`, which runs `infra.Provision` for every infrastructure
  * at the same time, stores each result in its slot and waits for all of them.
  */
module Infras {
  import opened Wrappers
  import P = Provisioning
  import Safety = ProvisioningSafety

  datatype Event =
    | Advance(run: nat, event: P.Event)  // a step of one of the runs
    | Finish(run: nat)                   // its goroutine stores the result or returns the error
    | Wait                               // the caller's Wait returns

  // A slot of `provisioned` is None until its goroutine fills it. An error is named by its run.
  datatype State = State(
    schedules: seq<seq<P.Event>>,
    finished: seq<bool>,
    provisioned: seq<Option<P.Shared>>,
    err: Option<nat>,
    out: Option<Result<seq<Option<P.Shared>>, nat>>)

  function RunOf(s: State, i: nat): P.State
    requires i < |s.schedules|
  {
    P.After(P.NO_ZONES, s.schedules[i])
  }

  function Init(n: nat): State {
    State(seq(n, _ => []), seq(n, _ => false), seq(n, _ => None), None, None)
  }

  predicate Halted(s: State) {
    exists i :: 0 <= i < |s.schedules| && RunOf(s, i).out.Halted?
  }

  predicate Shaped(s: State) {
    |s.schedules| == |s.finished| == |s.provisioned|
  }

  // A call of log.Fatal in any run ends the process, and with it every run.
  predicate Enabled(s: State, e: Event) {
    && Shaped(s) && s.out.None? && !Halted(s)
    && match e
       case Advance(i, _) => i < |s.schedules|
       case Finish(i) => i < |s.schedules| && !s.finished[i] && Safety.Ended(RunOf(s, i))
       case Wait => forall i :: 0 <= i < |s.finished| ==> s.finished[i]
  }

  function Step(s: State, e: Event): State {
    if !Enabled(s, e) then s
    else match e
      case Advance(i, event) => s.(schedules := s.schedules[i := s.schedules[i] + [event]])
      case Finish(i) =>
        var run := RunOf(s, i);
        if run.out.Succeeded? then
          s.(finished := s.finished[i := true], provisioned := s.provisioned[i := Some(run.out.ret)])
        else
          s.(finished := s.finished[i := true], err := if s.err.None? then Some(i) else s.err)
      case Wait => s.(out := Some(if s.err.Some? then Err(s.err.value) else Ok(s.provisioned)))
  }

  function Exec(n: nat, schedule: seq<Event>): State {
    if schedule == [] then Init(n)
    else Step(Exec(n, schedule[..|schedule| - 1]), schedule[|schedule| - 1])
  }

  // A goroutine that has finished stands for a run that has ended, and its slot for the result.
  ghost predicate Settled(s: State, i: nat)
    requires Shaped(s) && i < |s.schedules|
  {
    && (s.finished[i] ==> Safety.Ended(RunOf(s, i)))
    && s.provisioned[i] ==
         (if s.finished[i] && RunOf(s, i).out.Succeeded? then Some(RunOf(s, i).out.ret) else None)
    && (s.err.None? && s.finished[i] ==> RunOf(s, i).out.Succeeded?)
  }

  ghost predicate ErrOk(s: State)
    requires Shaped(s)
  {
    s.err.Some? ==>
      s.err.value < |s.schedules| && s.finished[s.err.value] && !RunOf(s, s.err.value).out.Succeeded?
  }

  ghost predicate Inv(s: State, n: nat) {
    && Shaped(s) && |s.schedules| == n
    && (forall i :: 0 <= i < n ==> Settled(s, i))
    && ErrOk(s)
    && (s.out.Some? ==>
          && (forall i :: 0 <= i < n ==> s.finished[i])
          && s.out.value == (if s.err.Some? then Err(s.err.value) else Ok(s.provisioned)))
  }

  // A run that has ended does not move any more.
  lemma EndedStays(schedule: seq<P.Event>, e: P.Event)
    requires Safety.Ended(P.After(P.NO_ZONES, schedule))
    ensures P.After(P.NO_ZONES, schedule + [e]) == P.After(P.NO_ZONES, schedule)
  {
    assert (schedule + [e])[..|schedule|] == schedule;
  }

  lemma StepInv(s: State, n: nat, e: Event)
    requires Inv(s, n)
    ensures Inv(Step(s, e), n)
  {
    if Enabled(s, e) {
      var s' := Step(s, e);
      if e.Advance? && s.finished[e.run] {
        assert Settled(s, e.run);
        EndedStays(s.schedules[e.run], e.event);
      }
      hide P.After;
      forall i | 0 <= i < n
        ensures Settled(s', i)
      {
        assert Settled(s, i);
      }
    }
  }

  lemma {:induction false} ExecInv(n: nat, schedule: seq<Event>)
    ensures Inv(Exec(n, schedule), n)
  {
    if schedule != [] {
      ExecInv(n, schedule[..|schedule| - 1]);
      StepInv(Exec(n, schedule[..|schedule| - 1]), n, schedule[|schedule| - 1]);
    }
  }

  /** When `infras.Provision` returns, in whatever order its runs moved, every run has ended. It
    * returns no error exactly when every run succeeded, and then slot i is the result of run i;
    * otherwise it returns no results and the error of a run that failed. */
  lemma ProvisionExact(n: nat, schedule: seq<Event>)
    requires Exec(n, schedule).out.Some?
    ensures var s := Exec(n, schedule);
            && |s.schedules| == n
            && (forall i :: 0 <= i < n ==> Safety.Ended(RunOf(s, i)))
            && (s.out.value.Ok? <==> forall i :: 0 <= i < n ==> RunOf(s, i).out.Succeeded?)
            && (s.out.value.Ok? ==>
                  && |s.out.value.value| == n
                  && forall i :: 0 <= i < n ==>
                       RunOf(s, i).out.Succeeded? && s.out.value.value[i] == Some(RunOf(s, i).out.ret))
            && (s.out.value.Err? ==>
                  && s.out.value.error < n
                  && (RunOf(s, s.out.value.error).out.FailedEmpty? || RunOf(s, s.out.value.error).out.FailedWith?))
  {
    var s := Exec(n, schedule);
    ExecInv(n, schedule);
    hide P.After, Exec;
    forall i | 0 <= i < n
      ensures Safety.Ended(RunOf(s, i))
      ensures s.out.value.Ok? ==>
                RunOf(s, i).out.Succeeded? && s.out.value.value[i] == Some(RunOf(s, i).out.ret)
    {
      assert Settled(s, i);
    }
  }

  // A result that lists what its own run created: one zone of each kind, whose ids were the answers
  // to this run's two calls, and the two deployments name those zones.
  ghost predicate OwnZones(log: seq<P.Entry>, ret: P.Shared) {
    && |ret.zones| == 1 && |ret.privateZones| == 1
    && Answers(P.Of(log, 1, 0), P.CreateZone, ret.zones[0])
    && Answers(P.Of(log, 1, 1), P.CreatePrivateZone, ret.privateZones[0])
    && Safety.Granting(P.Of(log, 5, 0), P.DeployExternalDns(ret.zones[0], ret.privateZones[0]))
    && Safety.Granting(P.Of(log, 6, 0), P.DeployNginx(ret.zones[0]))
    && ret.ipv4ServiceName == "nginx-svc-ipv4" && ret.ipv6ServiceName == "nginx-svc-ipv6"
  }

  ghost predicate Answers(events: seq<P.CallEvent>, call: P.Call, id: string) {
    && |events| == 2 && events[0] == P.Issued(call)
    && events[1].Answered? && events[1].call == call && events[1].reply.Granted? && events[1].reply.id == id
  }

  /** When `infras.Provision` returns results, each of them lists exactly one public and one private
    * zone, those that its own run created, and ExternalDNS and nginx were deployed for them; the roles
    * were assigned on these two zones, on the run's own vnet and subnet, and on nothing else. */
  lemma ResultsOwn(n: nat, schedule: seq<Event>)
    requires Exec(n, schedule).out.Some? && Exec(n, schedule).out.value.Ok?
    ensures var s := Exec(n, schedule);
            |s.schedules| == n == |s.out.value.value| &&
            forall i :: 0 <= i < n ==>
              && s.out.value.value[i].Some?
              && var ret := s.out.value.value[i].value;
                 && OwnZones(RunOf(s, i).log, ret)
                 && ret.vnetId != "" && ret.subnetId != "" && ret.cluster.Some?
                 && Safety.RolesAssigned(RunOf(s, i).log, ret.privateZones, ret.zones, ret.vnetId, ret.subnetId,
                                         ret.cluster.value.principalId)
  {
    var s := Exec(n, schedule);
    ProvisionExact(n, schedule);
    hide Exec;
    forall i | 0 <= i < n
      ensures OwnZones(RunOf(s, i).log, RunOf(s, i).out.ret)
      ensures var ret := RunOf(s, i).out.ret;
              && ret.vnetId != "" && ret.subnetId != "" && ret.cluster.Some?
              && Safety.RolesAssigned(RunOf(s, i).log, ret.privateZones, ret.zones, ret.vnetId, ret.subnetId,
                                      ret.cluster.value.principalId)
    {
      RunOwn(s.schedules[i]);
    }
  }

  lemma RunOwn(schedule: seq<P.Event>)
    requires P.After(P.NO_ZONES, schedule).out.Succeeded?
    ensures var run := P.After(P.NO_ZONES, schedule);
            && OwnZones(run.log, run.out.ret)
            && run.out.ret.vnetId != "" && run.out.ret.subnetId != "" && run.out.ret.cluster.Some?
            && Safety.RolesAssigned(run.log, run.out.ret.privateZones, run.out.ret.zones, run.out.ret.vnetId,
                                    run.out.ret.subnetId, run.out.ret.cluster.value.principalId)
  {
    Safety.ResourcesConnected(P.NO_ZONES, schedule);
    Safety.RolesExact(P.NO_ZONES, schedule);
    Safety.EndExact(P.NO_ZONES, schedule);
    hide P.After, P.Of, Safety.RolesAssigned, Safety.AllGranted, Safety.VnetLinked, Safety.ClusterIn, Safety.EmptyIds;
  }

  // No goroutine has returned an error yet.
  predicate NoneFailed(s: State)
    requires Shaped(s)
  {
    forall i :: 0 <= i < |s.schedules| ==> s.finished[i] ==> RunOf(s, i).out.Succeeded?
  }

  /** The error that is returned is that of the first goroutine to return one. */
  lemma FirstToFail(n: nat, before: seq<Event>, i: nat, after: seq<Event>)
    requires Shaped(Exec(n, before)) && NoneFailed(Exec(n, before)) && Enabled(Exec(n, before), Finish(i))
    requires !RunOf(Exec(n, before), i).out.Succeeded?
    ensures var s := Exec(n, before + [Finish(i)] + after); s.out.Some? ==> s.out == Some(Err(i))
  {
    var s := Exec(n, before);
    ExecInv(n, before);
    assert s.err.None?;
    assert (before + [Finish(i)])[..|before|] == before;
    ExecInv(n, before + [Finish(i)] + after);
    ErrorStays(n, before + [Finish(i)], after, i);
  }

  lemma {:induction false} ErrorStays(n: nat, before: seq<Event>, after: seq<Event>, i: nat)
    requires Exec(n, before).err == Some(i)
    ensures Exec(n, before + after).err == Some(i)
  {
    if after == [] {
      assert before + after == before;
    } else {
      var m := |after| - 1;
      assert (before + after)[..|before + after| - 1] == before + after[..m];
      ErrorStays(n, before, after[..m], i);
      hide P.After;
    }
  }

  // The event takes place: a step of a run that is possible there, the end of a goroutine, or the
  // return of Wait.
  predicate Happens(s: State, e: Event) {
    Enabled(s, e) && (e.Advance? ==> P.Enabled(RunOf(s, e.run), e.event))
  }

  /** It cannot get stuck: until it returns or the process ends, some event can take place, in some
    * run, at the end of some goroutine or at the return of Wait, and no run waits for another: each
    * can take any step of its own. `ProvisionEnds` says how often. */
  lemma NeverStuck(n: nat, schedule: seq<Event>)
    ensures var s := Exec(n, schedule); s.out.Some? || Halted(s) || exists e :: Happens(s, e)
    ensures var s := Exec(n, schedule);
            && Shaped(s) && |s.schedules| == n
            && (s.out.None? && !Halted(s) ==>
                  && (forall i, e :: 0 <= i < n && P.Enabled(RunOf(s, i), e) ==> Happens(s, Advance(i, e)))
                  && (forall i :: 0 <= i < n && Safety.Ended(RunOf(s, i)) && !s.finished[i] ==> Happens(s, Finish(i))))
  {
    var s := Exec(n, schedule);
    ExecInv(n, schedule);
    hide P.After, Exec;
    if s.out.None? && !Halted(s) {
      if Enabled(s, Wait) {
        assert Happens(s, Wait);
      } else {
        var i :| 0 <= i < n && !s.finished[i];
        Safety.RunsEnd(P.NO_ZONES, s.schedules[i]);
        Safety.NeverCrashes(P.NO_ZONES, s.schedules[i]);
        assert !RunOf(s, i).out.Halted?;
        if Enabled(s, Finish(i)) {
          assert Happens(s, Finish(i));
        } else {
          var e :| P.Enabled(RunOf(s, i), e);
          assert Happens(s, Advance(i, e));
        }
      }
    }
  }

  function Effective(n: nat, schedule: seq<Event>): nat {
    if schedule == [] then 0
    else
      var m := |schedule| - 1;
      Effective(n, schedule[..m]) + (if Happens(Exec(n, schedule[..m]), schedule[m]) then 1 else 0)
  }

  // What a run still has to do, its goroutine included.
  function Left(s: State, i: nat): nat
    requires Shaped(s) && i < |s.schedules|
  {
    Safety.Work(RunOf(s, i)) + (if s.finished[i] then 0 else 1)
  }

  function SumLeft(s: State, k: nat): nat
    requires Shaped(s) && k <= |s.schedules|
  {
    if k == 0 then 0 else SumLeft(s, k - 1) + Left(s, k - 1)
  }

  function AllLeft(s: State): nat
    requires Shaped(s)
  {
    SumLeft(s, |s.schedules|) + (if s.out.None? then 1 else 0)
  }

  lemma {:induction false} SumLeftChanged(s: State, s': State, i: nat, k: nat)
    requires Shaped(s) && Shaped(s') && |s'.schedules| == |s.schedules| && i < |s.schedules| && k <= |s.schedules|
    requires forall j :: 0 <= j < |s.schedules| && j != i ==> Left(s', j) == Left(s, j)
    ensures SumLeft(s', k) == SumLeft(s, k) + (if i < k then Left(s', i) - Left(s, i) else 0)
  {
    hide Left;
    if k > 0 {
      SumLeftChanged(s, s', i, k - 1);
    }
  }

  lemma {:induction false} SumLeftSame(s: State, s': State, k: nat)
    requires Shaped(s) && Shaped(s') && |s'.schedules| == |s.schedules| && k <= |s.schedules|
    requires forall j :: 0 <= j < |s.schedules| ==> Left(s', j) == Left(s, j)
    ensures SumLeft(s', k) == SumLeft(s, k)
  {
    hide Left;
    if k > 0 {
      SumLeftSame(s, s', k - 1);
    }
  }

  // One more event of a run does some of its work, or nothing at all.
  lemma RunStep(schedule: seq<P.Event>, e: P.Event)
    ensures var run := P.After(P.NO_ZONES, schedule);
            Safety.Work(P.After(P.NO_ZONES, schedule + [e])) + (if P.Enabled(run, e) then 1 else 0) <= Safety.Work(run)
  {
    var run := P.After(P.NO_ZONES, schedule);
    assert (schedule + [e])[..|schedule|] == schedule;
    P.ExecInv(P.NO_ZONES, schedule);
    hide P.Inv, Safety.Work;
    if P.Enabled(run, e) {
      Safety.StepWork(run, e);
    } else {
      Safety.NoStep(run, e);
    }
  }

  lemma LeftStep(s: State, e: Event)
    requires Shaped(s)
    ensures Shaped(Step(s, e)) && |Step(s, e).schedules| == |s.schedules|
    ensures AllLeft(Step(s, e)) + (if Happens(s, e) then 1 else 0) <= AllLeft(s)
  {
    var s' := Step(s, e);
    hide P.After, Safety.Work, P.Enabled, Safety.Ended;
    if Enabled(s, e) {
      match e
      case Advance(i, event) =>
        RunStep(s.schedules[i], event);
        SumLeftChanged(s, s', i, |s.schedules|);
      case Finish(i) => SumLeftChanged(s, s', i, |s.schedules|);
      case Wait => SumLeftSame(s, s', |s.schedules|);
    }
  }

  lemma {:induction false} EffectiveAtMost(n: nat, schedule: seq<Event>)
    ensures Shaped(Exec(n, schedule))
    ensures Effective(n, schedule) + AllLeft(Exec(n, schedule)) <= AllLeft(Init(n))
  {
    if schedule != [] {
      var m := |schedule| - 1;
      EffectiveAtMost(n, schedule[..m]);
      hide Step, AllLeft, Happens, Init;
      LeftStep(Exec(n, schedule[..m]), schedule[m]);
    }
  }

  lemma {:induction false} InitLeft(n: nat, k: nat)
    requires k <= n
    ensures SumLeft(Init(n), k) == k * (Safety.Work(P.Init(P.NO_ZONES)) + 1)
  {
    if k > 0 {
      InitLeft(n, k - 1);
      assert RunOf(Init(n), k - 1) == P.Init(P.NO_ZONES);
      hide Safety.Work;
      Distribute(k - 1, Safety.Work(P.Init(P.NO_ZONES)) + 1);
    }
  }

  lemma Distribute(k: nat, w: nat)
    ensures (k + 1) * w == k * w + w
  {
  }

  /** No schedule keeps it going: over any interleaving the number of events that take place is
    * bounded by the work of the n runs, the end of each goroutine and the return of Wait. */
  lemma ProvisionEnds(n: nat, schedule: seq<Event>)
    ensures Effective(n, schedule) <= n * (Safety.Work(P.Init(P.NO_ZONES)) + 1) + 1
  {
    hide Safety.Work;
    EffectiveAtMost(n, schedule);
    InitLeft(n, n);
  }
}
