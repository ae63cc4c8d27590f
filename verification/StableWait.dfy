/** clients/aks.go: `waitStable`, which forks one checker for every deployed object and joins them.
  *
  * A checker of a workload or pod runs one command. A checker of a Job removes the old log file,
  * then asks in turns whether the Job is complete and whether it has failed, and fetches the Job's
  * log into the file once it stops asking. The Jobs change on their own meanwhile.
  */
module StableWait {
  import opened Wrappers

  datatype Kind = Workload | Pod | Job | Other

  datatype Object = Object(kind: Kind, name: string, namespace: string)

  // A Job ends once and stays ended.
  datatype JobState = Active | Complete | Failed

  // What `runCommand` can come to. A command that ran has an output and an exit code; the log file
  // is written before the exit code is looked at. The last two concern only log fetches.
  datatype Reply =
    | Exit0(output: string)
    | NonZero(output: string)
    | Unreachable
    | OpenFailed
    | WriteFailed(partial: string)

  datatype Reason = RolloutFailed | CleanFailed | WaitBroken | JobFailed | LogsFailed

  datatype Pc =
    | Start
    | AskComplete
    | AskFailed
    | FetchLast
    | FetchThenFail(reason: Reason)
    | End(error: Option<Reason>)

  function LogFile(name: string): string { "job-" + name + ".log" }

  lemma LogFileInjective(a: string, b: string)
    ensures LogFile(a) == LogFile(b) <==> a == b
  {
    assert LogFile(a)[4..|LogFile(a)| - 4] == a;
    assert LogFile(b)[4..|LogFile(b)| - 4] == b;
  }

  /******* One checker *******/

  function Fetched(file: Option<string>, reply: Reply): Option<string> {
    var text := if file.Some? then file.value else "";
    match reply
    case Exit0(output) => Some(text + output)
    case NonZero(output) => Some(text + output)
    case WriteFailed(partial) => Some(text + partial)
    case _ => file
  }

  // The next program point and the log file.
  function Check(kind: Kind, pc: Pc, file: Option<string>, reply: Reply): (Pc, Option<string>) {
    match pc
    case Start =>
      (match kind
       case Job => if reply.Exit0? then (AskComplete, None) else (End(Some(CleanFailed)), file)
       case Other => (End(None), file)
       case _ => (End(if reply.Exit0? then None else Some(RolloutFailed)), file))
    case AskComplete =>
      (if reply.Exit0? then FetchLast
       else if reply.NonZero? then AskFailed
       else FetchThenFail(WaitBroken), file)
    case AskFailed => (if reply.Exit0? then FetchThenFail(JobFailed) else AskComplete, file)
    case FetchLast => (End(if reply.Exit0? then None else Some(LogsFailed)), Fetched(file, reply))
    case FetchThenFail(reason) => (End(Some(reason)), Fetched(file, reply))
    case End(_) => (pc, file)
  }

  // `kubectl wait` tells the truth about the Job whenever it gets through.
  predicate Truthful(job: JobState, pc: Pc, reply: Reply) {
    && (pc.AskComplete? ==> (reply.Exit0? ==> job.Complete?) && (reply.NonZero? ==> !job.Complete?))
    && (pc.AskFailed? ==> (reply.Exit0? ==> job.Failed?) && (reply.NonZero? ==> !job.Failed?))
  }

  // The checker run on its own against the answers it gets, up to its end.
  function RunChecker(kind: Kind, pc: Pc, file: Option<string>, replies: seq<Reply>): (Pc, Option<string>)
    decreases |replies|
  {
    if replies == [] || pc.End? then (pc, file)
    else
      var next := Check(kind, pc, file, replies[0]);
      RunChecker(kind, next.0, next.1, replies[1..])
  }

  /******* All checkers *******/

  // `wrote` is what each checker put into its log file, None for nothing.
  datatype State = State(
    objs: seq<Object>, pcs: seq<Pc>, jobs: seq<JobState>,
    files: map<string, string>, wrote: seq<Option<string>>,
    err: Option<nat>, returned: Option<Option<nat>>)

  datatype Event =
    | Evolve(i: nat, to: JobState)
    | Move(i: nat, reply: Reply)
    | Wait

  function Init(objs: seq<Object>, jobs: seq<JobState>, files: map<string, string>): State {
    State(objs, seq(|objs|, _ => Start), jobs, files, seq(|objs|, _ => None), None, None)
  }

  predicate Shaped(s: State) {
    |s.objs| == |s.pcs| == |s.jobs| == |s.wrote|
  }

  predicate Enabled(s: State, e: Event) {
    && Shaped(s) && s.returned.None?
    && match e
       case Evolve(i, to) => i < |s.jobs| && s.jobs[i].Active? && !to.Active?
       case Move(i, reply) => i < |s.pcs| && !s.pcs[i].End? && Truthful(s.jobs[i], s.pcs[i], reply)
       case Wait => forall i :: 0 <= i < |s.pcs| ==> s.pcs[i].End?
  }

  function FileOf(files: map<string, string>, name: string): Option<string> {
    if LogFile(name) in files then Some(files[LogFile(name)]) else None
  }

  function SetFile(files: map<string, string>, name: string, file: Option<string>): map<string, string> {
    if file.Some? then files[LogFile(name) := file.value] else files - {LogFile(name)}
  }

  function StepMove(s: State, i: nat, reply: Reply): State
    requires Shaped(s) && i < |s.pcs|
  {
    var obj := s.objs[i];
    var next := Check(obj.kind, s.pcs[i], FileOf(s.files, obj.name), reply);
    s.(pcs := s.pcs[i := next.0],
       files := if obj.kind.Job? then SetFile(s.files, obj.name, next.1) else s.files,
       wrote := if s.pcs[i].FetchLast? || s.pcs[i].FetchThenFail? then s.wrote[i := Fetched(None, reply)] else s.wrote,
       err := if next.0.End? && next.0.error.Some? && s.err.None? then Some(i) else s.err)
  }

  function Step(s: State, e: Event): State {
    if !Enabled(s, e) then s
    else match e
      case Evolve(i, to) => s.(jobs := s.jobs[i := to])
      case Move(i, reply) => StepMove(s, i, reply)
      case Wait => s.(returned := Some(s.err))
  }

  function Exec(s: State, schedule: seq<Event>): State
    decreases |schedule|
  {
    if schedule == [] then s else Exec(Step(s, schedule[0]), schedule[1..])
  }

  // No two Jobs share a log file.
  predicate DistinctJobs(objs: seq<Object>) {
    forall i, j :: 0 <= i < j < |objs| && objs[i].kind.Job? && objs[j].kind.Job? ==> objs[i].name != objs[j].name
  }

  /******* The verdicts *******/

  // A verdict on a Job agrees with what the Job has become.
  ghost predicate VerdictOk(job: JobState, pc: Pc) {
    && (pc.FetchLast? || pc == End(None) || pc == End(Some(LogsFailed)) ==> job.Complete?)
    && (pc == FetchThenFail(JobFailed) || pc == End(Some(JobFailed)) ==> job.Failed?)
    && (pc.FetchThenFail? ==> pc.reason.JobFailed? || pc.reason.WaitBroken?)
    && (pc.End? && pc.error.Some? ==> !pc.error.value.RolloutFailed?)
  }

  // What the log file holds at each point of a Job's checker.
  ghost predicate FileOk(pc: Pc, file: Option<string>, wrote: Option<string>) {
    && (!pc.End? ==> wrote.None?)
    && (!pc.Start? && pc != End(Some(CleanFailed)) ==> file == wrote)
    && (pc == End(None) ==> wrote.Some?)
  }

  ghost predicate JobOk(s: State, i: nat)
    requires Shaped(s) && i < |s.objs|
  {
    s.objs[i].kind.Job? ==> VerdictOk(s.jobs[i], s.pcs[i])
  }

  ghost predicate LogOk(s: State, i: nat)
    requires Shaped(s) && i < |s.objs|
  {
    s.objs[i].kind.Job? ==> FileOk(s.pcs[i], FileOf(s.files, s.objs[i].name), s.wrote[i])
  }

  ghost predicate ErrOk(s: State)
    requires Shaped(s)
  {
    && (s.err.Some? ==>
          && s.err.value < |s.pcs| && s.pcs[s.err.value].End? && s.pcs[s.err.value].error.Some?)
    && (s.err.None? ==> forall i :: 0 <= i < |s.pcs| && s.pcs[i].End? ==> s.pcs[i].error.None?)
    && (s.returned.Some? ==> s.returned.value == s.err && forall i :: 0 <= i < |s.pcs| ==> s.pcs[i].End?)
  }

  ghost predicate Inv(s: State) {
    && Shaped(s)
    && (forall i :: 0 <= i < |s.objs| ==> JobOk(s, i))
    && (DistinctJobs(s.objs) ==> forall i :: 0 <= i < |s.objs| ==> LogOk(s, i))
    && ErrOk(s)
  }

  lemma StepJobs(s: State, e: Event, i: nat)
    requires Inv(s) && i < |s.objs|
    ensures Shaped(Step(s, e)) && JobOk(Step(s, e), i)
  {
    assert JobOk(s, i);
  }

  lemma StepLogs(s: State, e: Event, i: nat)
    requires Inv(s) && DistinctJobs(s.objs) && i < |s.objs|
    ensures Shaped(Step(s, e)) && LogOk(Step(s, e), i)
  {
    assert LogOk(s, i);
    if e.Move? && e.i < |s.objs| {
      LogFileInjective(s.objs[i].name, s.objs[e.i].name);
      assert LogOk(s, e.i);
    }
  }

  lemma StepErr(s: State, e: Event)
    requires Inv(s)
    ensures Shaped(Step(s, e)) && ErrOk(Step(s, e))
  {
  }

  lemma StepInv(s: State, e: Event)
    requires Inv(s)
    ensures Inv(Step(s, e)) && Step(s, e).objs == s.objs
  {
    var s' := Step(s, e);
    StepErr(s, e);
    forall i | 0 <= i < |s.objs|
      ensures JobOk(s', i)
      ensures DistinctJobs(s.objs) ==> LogOk(s', i)
    {
      StepJobs(s, e, i);
      if DistinctJobs(s.objs) {
        StepLogs(s, e, i);
      }
    }
  }

  lemma {:induction false} ExecInv(s: State, schedule: seq<Event>)
    requires Inv(s)
    ensures Inv(Exec(s, schedule)) && Exec(s, schedule).objs == s.objs
    decreases |schedule|
  {
    if schedule != [] {
      StepInv(s, schedule[0]);
      ExecInv(Step(s, schedule[0]), schedule[1..]);
    }
  }

  lemma InitInv(objs: seq<Object>, jobs: seq<JobState>, files: map<string, string>)
    requires |jobs| == |objs|
    ensures Inv(Init(objs, jobs, files))
  {
  }

  // The Jobs are complete and each log file is what one log fetch wrote.
  ghost predicate LogsWhole(s: State)
    requires Shaped(s)
  {
    forall i :: 0 <= i < |s.objs| && s.objs[i].kind.Job? && s.pcs[i] == End(None) ==>
      && s.wrote[i].Some?
      && "job-" + s.objs[i].name + ".log" in s.files
      && s.files["job-" + s.objs[i].name + ".log"] == s.wrote[i].value
  }

  /** waitStable waits for every checker and returns nil exactly when each of them did; it then
    * returns with every Job complete and, if the Jobs have different names, with each Job's log file
    * holding the text of exactly one log fetch of this run. An error is that of a failed checker. */
  lemma WaitStableExact(objs: seq<Object>, jobs: seq<JobState>, files: map<string, string>, schedule: seq<Event>)
    requires |jobs| == |objs|
    requires Exec(Init(objs, jobs, files), schedule).returned.Some?
    ensures var s := Exec(Init(objs, jobs, files), schedule);
            && Shaped(s) && s.objs == objs
            && (forall i :: 0 <= i < |objs| ==> s.pcs[i].End?)
            && (s.returned.value.None? <==> forall i :: 0 <= i < |objs| ==> s.pcs[i] == End(None))
            && (s.returned.value.None? ==>
                  && (forall i :: 0 <= i < |objs| && objs[i].kind.Job? ==> s.jobs[i].Complete?)
                  && (DistinctJobs(objs) ==> LogsWhole(s)))
            && (s.returned.value.Some? ==>
                  var j := s.returned.value.value;
                  j < |objs| && s.pcs[j].End? && s.pcs[j].error.Some?)
  {
    var s := Exec(Init(objs, jobs, files), schedule);
    InitInv(objs, jobs, files);
    ExecInv(Init(objs, jobs, files), schedule);
    hide Exec;
    forall i | 0 <= i < |objs|
      ensures s.returned.value.None? ==> s.pcs[i] == End(None)
      ensures s.pcs[i] == End(None) && objs[i].kind.Job? ==> s.jobs[i].Complete?
    {
      assert JobOk(s, i);
    }
    if DistinctJobs(objs) {
      WholeLogs(s);
    }
  }

  lemma WholeLogs(s: State)
    requires Inv(s) && DistinctJobs(s.objs)
    ensures LogsWhole(s)
  {
    forall i | 0 <= i < |s.objs| && s.objs[i].kind.Job? && s.pcs[i] == End(None)
      ensures s.wrote[i].Some? && "job-" + s.objs[i].name + ".log" in s.files
      ensures s.files["job-" + s.objs[i].name + ".log"] == s.wrote[i].value
    {
      assert LogOk(s, i);
    }
  }

  /** At every point of every run: a checker that says nil has a complete Job, and one that says
    * "failed" has a failed Job, never a completed one. */
  lemma VerdictsSound(objs: seq<Object>, jobs: seq<JobState>, files: map<string, string>, schedule: seq<Event>, i: nat)
    requires |jobs| == |objs| && i < |objs| && objs[i].kind.Job?
    ensures var s := Exec(Init(objs, jobs, files), schedule);
            && Shaped(s) && i < |s.pcs|
            && (s.pcs[i] == End(None) ==> s.jobs[i].Complete?)
            && (s.pcs[i] == End(Some(JobFailed)) ==> s.jobs[i].Failed?)
  {
    InitInv(objs, jobs, files);
    ExecInv(Init(objs, jobs, files), schedule);
    assert JobOk(Exec(Init(objs, jobs, files), schedule), i);
  }

  // Every state of every run leaves the log files of the checkers that have succeeded whole.
  ghost predicate AlwaysWhole(objs: seq<Object>) {
    forall jobs, files, schedule :: |jobs| == |objs| ==>
      var s := Exec(Init(objs, jobs, files), schedule); Shaped(s) && LogsWhole(s)
  }

  // Every call that returns nil leaves every Job's log file whole.
  ghost predicate WholeOnReturn(objs: seq<Object>) {
    forall jobs, files, schedule :: |jobs| == |objs| ==>
      var s := Exec(Init(objs, jobs, files), schedule);
      Shaped(s) && (s.returned == Some(None) ==> LogsWhole(s))
  }

  /** Whole log files are a matter of names alone. All calls that return nil leave one whole log for
    * each Job exactly when no two Jobs of the list have the same name, and the same holds of the
    * checkers that have succeeded at any time before the return. */
  lemma WholeExactlyWhenDistinct(objs: seq<Object>)
    ensures WholeOnReturn(objs) <==> DistinctJobs(objs)
    ensures AlwaysWhole(objs) <==> DistinctJobs(objs)
  {
    if DistinctJobs(objs) {
      forall jobs: seq<JobState>, files: map<string, string>, schedule: seq<Event> | |jobs| == |objs|
        ensures var s := Exec(Init(objs, jobs, files), schedule); Shaped(s) && LogsWhole(s)
      {
        InitInv(objs, jobs, files);
        ExecInv(Init(objs, jobs, files), schedule);
        WholeLogs(Exec(Init(objs, jobs, files), schedule));
      }
    } else {
      var i, j :| 0 <= i < j < |objs| && objs[i].kind.Job? && objs[j].kind.Job? && objs[i].name == objs[j].name;
      var jobs: seq<JobState> := seq(|objs|, _ => Complete);
      var files: map<string, string> := map[];
      var schedule := Clobber(objs, jobs, files, i, j);
      var s := Exec(Init(objs, jobs, files), schedule);
      assert Shaped(s) && s.returned == Some(None) && !LogsWhole(s);
    }
  }

  // Two Jobs of the same name share the log file: the second to finish leaves its own text there,
  // and the call returns nil.
  lemma Clobber(objs: seq<Object>, jobs: seq<JobState>, files: map<string, string>, i: nat, j: nat)
    returns (schedule: seq<Event>)
    requires i < j < |objs| == |jobs| && objs[i].kind.Job? && objs[j].kind.Job? && objs[i].name == objs[j].name
    requires forall k :: 0 <= k < |jobs| ==> jobs[k].Complete?
    ensures var s := Exec(Init(objs, jobs, files), schedule);
            Shaped(s) && s.returned == Some(None) && !LogsWhole(s)
  {
    var s0 := Init(objs, jobs, files);
    var others := FinishOthers(s0, i, j, |objs|);
    var s1 := Exec(s0, others);
    FinishOne(s1, i, "a");
    var s2 := Exec(s1, Thrice(i, "a"));
    FinishOne(s2, j, "b");
    var s3 := Exec(s2, Thrice(j, "b"));
    hide Exec, Step;
    ExecConcat(s0, others, Thrice(i, "a"));
    ExecConcat(s0, others + Thrice(i, "a"), Thrice(j, "b"));
    ExecConcat(s0, others + Thrice(i, "a") + Thrice(j, "b"), [Wait]);
    schedule := others + Thrice(i, "a") + Thrice(j, "b") + [Wait];
    AllReturn(s3);
    assert s3.wrote[i] == Some("a") && FileOf(s3.files, objs[i].name) == Some("b");
  }

  lemma AllReturn(s: State)
    requires Shaped(s) && s.returned.None? && s.err.None? && forall k :: 0 <= k < |s.pcs| ==> s.pcs[k].End?
    ensures Exec(s, [Wait]) == s.(returned := Some(None))
  {
    ExecCons(s, Wait, []);
    assert [Wait] + [] == [Wait];
  }

  lemma ExecCons(s: State, e: Event, rest: seq<Event>)
    ensures Exec(s, [e] + rest) == Exec(Step(s, e), rest)
  {
    assert ([e] + rest)[0] == e && ([e] + rest)[1..] == rest;
  }

  lemma {:induction false} ExecConcat(s: State, a: seq<Event>, b: seq<Event>)
    ensures Exec(s, a + b) == Exec(Exec(s, a), b)
    decreases |a|
  {
    if a == [] {
      assert a + b == b;
    } else {
      assert (a + b)[1..] == a[1..] + b;
      ExecConcat(Step(s, a[0]), a[1..], b);
    }
  }

  // Three commands of one checker that all succeed with this output.
  function Thrice(i: nat, output: string): seq<Event> {
    [Move(i, Exit0(output))] + ([Move(i, Exit0(output))] + [Move(i, Exit0(output))])
  }

  // The state before a checker has begun, with nothing gone wrong.
  ghost predicate Fresh(s: State, i: nat) {
    && Shaped(s) && s.returned.None? && s.err.None? && i < |s.objs|
    && s.pcs[i].Start? && s.jobs[i].Complete?
  }

  /** Three commands that succeed end any checker well, and a Job's log file is then their output. */
  lemma FinishOne(s: State, i: nat, output: string)
    requires Fresh(s, i)
    ensures var s' := Exec(s, Thrice(i, output));
            && Shaped(s') && s'.objs == s.objs && s'.jobs == s.jobs && s'.returned.None? && s'.err.None?
            && s'.pcs == s.pcs[i := End(None)]
            && (forall k :: 0 <= k < |s.wrote| && k != i ==> s'.wrote[k] == s.wrote[k])
            && (s.objs[i].kind.Job? ==>
                  s'.wrote[i] == Some(output) && FileOf(s'.files, s.objs[i].name) == Some(output))
  {
    var e := Move(i, Exit0(output));
    var s1 := Step(s, e);
    var s2 := Step(s1, e);
    var s3 := Step(s2, e);
    if s.objs[i].kind.Job? {
      JobSteps(s, i, output);
    } else {
      assert s1.pcs == s.pcs[i := End(None)] && s3 == s2 == s1;
    }
    hide Exec, Step;
    ExecCons(s, e, [e] + [e]);
    ExecCons(s1, e, [e]);
    ExecCons(s2, e, []);
    assert [e] + [] == [e];
    ExecNone(s3);
  }

  lemma ExecNone(s: State)
    ensures Exec(s, []) == s
  {
  }

  lemma JobSteps(s: State, i: nat, output: string)
    requires Fresh(s, i) && s.objs[i].kind.Job?
    ensures var e := Move(i, Exit0(output));
            var s' := Step(Step(Step(s, e), e), e);
            && s' == s.(pcs := s.pcs[i := End(None)], files := s'.files, wrote := s.wrote[i := Some(output)])
            && FileOf(s'.files, s.objs[i].name) == Some(output)
  {
    var e := Move(i, Exit0(output));
    var name := s.objs[i].name;
    var s1 := s.(pcs := s.pcs[i := AskComplete], files := s.files - {LogFile(name)});
    var s2 := s1.(pcs := s.pcs[i := FetchLast]);
    assert Step(s, e) == s1;
    assert FileOf(s1.files, name) == None && SetFile(s1.files, name, None) == s1.files;
    assert s1.pcs[i := FetchLast] == s2.pcs;
    assert Step(s1, e) == s2;
    assert s2.pcs[i := End(None)] == s.pcs[i := End(None)];
    assert "" + output == output;
  }

  // All objects before the n-th, except these two, finish one after the other.
  lemma {:induction false} FinishOthers(s: State, i: nat, j: nat, n: nat) returns (schedule: seq<Event>)
    requires Shaped(s) && n <= |s.objs| && forall k :: 0 <= k < |s.objs| ==> Fresh(s, k)
    ensures var s' := Exec(s, schedule);
            && Shaped(s') && s'.objs == s.objs && s'.jobs == s.jobs && s'.returned == s.returned && s'.err == s.err
            && forall k :: 0 <= k < |s.objs| ==>
                 s'.pcs[k] == if k < n && k != i && k != j then End(None) else s.pcs[k]
  {
    if n == 0 {
      schedule := [];
    } else {
      schedule := FinishOthers(s, i, j, n - 1);
      if n - 1 != i && n - 1 != j {
        var s1 := Exec(s, schedule);
        assert Fresh(s, n - 1) && s1.pcs[n - 1] == s.pcs[n - 1];
        hide Exec;
        FinishOne(s1, n - 1, "");
        ExecConcat(s, schedule, Thrice(n - 1, ""));
        schedule := schedule + Thrice(n - 1, "");
      }
    }
  }

  /******* Each checker works as if it were alone *******/

  // The answers that one checker got in a run.
  function Replies(s: State, schedule: seq<Event>, i: nat): seq<Reply>
    decreases |schedule|
  {
    if schedule == [] then []
    else
      var e := schedule[0];
      (if Enabled(s, e) && e.Move? && e.i == i then [e.reply] else []) + Replies(Step(s, e), schedule[1..], i)
  }

  /** Under any interleaving, the checker of a Job and its log file are what the checker makes of its
    * own answers when nothing else runs, provided the Jobs have different names. */
  lemma {:induction false} AsIfAlone(s: State, schedule: seq<Event>, i: nat)
    requires Shaped(s) && DistinctJobs(s.objs) && i < |s.objs| && s.objs[i].kind.Job?
    ensures var s' := Exec(s, schedule);
            && Shaped(s') && s'.objs == s.objs
            && (s'.pcs[i], FileOf(s'.files, s.objs[i].name)) ==
               RunChecker(Job, s.pcs[i], FileOf(s.files, s.objs[i].name), Replies(s, schedule, i))
    decreases |schedule|
  {
    if schedule != [] {
      var e := schedule[0];
      AloneStep(s, e, i);
      AsIfAlone(Step(s, e), schedule[1..], i);
      var rest := Replies(Step(s, e), schedule[1..], i);
      if Enabled(s, e) && e.Move? && e.i == i {
        assert ([e.reply] + rest)[1..] == rest;
      } else {
        assert [] + rest == rest;
      }
    }
  }

  lemma AloneStep(s: State, e: Event, i: nat)
    requires Shaped(s) && DistinctJobs(s.objs) && i < |s.objs| && s.objs[i].kind.Job?
    ensures var s' := Step(s, e);
            var name := s.objs[i].name;
            && Shaped(s') && s'.objs == s.objs
            && (s'.pcs[i], FileOf(s'.files, name)) ==
               if Enabled(s, e) && e.Move? && e.i == i then Check(Job, s.pcs[i], FileOf(s.files, name), e.reply)
               else (s.pcs[i], FileOf(s.files, name))
  {
    if e.Move? && e.i < |s.objs| {
      LogFileInjective(s.objs[i].name, s.objs[e.i].name);
    }
  }

  /******* What a checker answers *******/

  // Rounds in which the Job was neither reported complete nor reported failed. A query for `failed`
  // that does not get through counts as a no.
  predicate Quiet(replies: seq<Reply>, n: nat) {
    2 * n < |replies| && forall k :: 0 <= k < n ==> replies[2 * k + 1].NonZero? && !replies[2 * k + 2].Exit0?
  }

  // What one log fetch leaves in a file that was removed before: its output, whatever the exit code,
  // the part that was written if writing failed, and no file if there was nothing to write.
  predicate LeftBy(reply: Reply, file: Option<string>) {
    match reply
    case Exit0(output) => file == Some(output)
    case NonZero(output) => file == Some(output)
    case WriteFailed(partial) => file == Some(partial)
    case Unreachable => file == None
    case OpenFailed => file == None
  }

  // After n such rounds the Job's checker gets its answer, fetches the log once and ends with this
  // verdict and this log file.
  predicate Decided(replies: seq<Reply>, n: nat, verdict: Option<Reason>, file: Option<string>) {
    && Quiet(replies, n) && 2 * n + 2 < |replies| && replies[0].Exit0?
    && var complete, next := replies[2 * n + 1], replies[2 * n + 2];
    if complete.Exit0? then
      verdict == (if next.Exit0? then None else Some(LogsFailed)) && LeftBy(next, file)
    else if complete.NonZero? then
      next.Exit0? && 2 * n + 3 < |replies| && verdict == Some(JobFailed) && LeftBy(replies[2 * n + 3], file)
    else
      verdict == Some(WaitBroken) && LeftBy(next, file)
  }

  /** A Job's checker ends in one of two ways: the old log file cannot be removed, or some number of
    * quiet rounds is followed by a decisive answer and one log fetch. Both fix the verdict and the
    * log file. */
  lemma {:induction false} JobVerdict(
    file: Option<string>, replies: seq<Reply>, verdict: Option<Reason>, left: Option<string>)
    ensures RunChecker(Job, Start, file, replies) == (End(verdict), left) <==>
            || (replies != [] && !replies[0].Exit0? && verdict == Some(CleanFailed) && left == file)
            || exists n :: Decided(replies, n, verdict, left)
  {
    if replies != [] && replies[0].Exit0? {
      LoopVerdict(replies, 0, verdict, left);
    }
  }

  lemma {:induction false} LoopVerdict(replies: seq<Reply>, n: nat, verdict: Option<Reason>, left: Option<string>)
    requires Quiet(replies, n) && replies[0].Exit0?
    ensures RunChecker(Job, AskComplete, None, replies[2 * n + 1..]) == (End(verdict), left) <==>
            exists m :: n <= m && Decided(replies, m, verdict, left)
    decreases |replies| - n
  {
    if 2 * n + 2 >= |replies| {
      NoRound(replies, n);
    } else if replies[2 * n + 1].NonZero? && !replies[2 * n + 2].Exit0? {
      QuietRound(replies, n);
      assert !Decided(replies, n, verdict, left);
      hide RunChecker, Decided;
      LoopVerdict(replies, n + 1, verdict, left);
    } else {
      hide RunChecker;
      LastRound(replies, n, verdict, left);
      forall m | n < m
        ensures !Decided(replies, m, verdict, left)
      {
        QuietAt(replies, m, n);
      }
      hide Decided;
    }
  }

  lemma QuietRound(replies: seq<Reply>, n: nat)
    requires Quiet(replies, n) && 2 * n + 2 < |replies|
    requires replies[2 * n + 1].NonZero? && !replies[2 * n + 2].Exit0?
    ensures Quiet(replies, n + 1)
    ensures RunChecker(Job, AskComplete, None, replies[2 * n + 1..]) ==
            RunChecker(Job, AskComplete, None, replies[2 * (n + 1) + 1..])
  {
    var rest := replies[2 * n + 1..];
    assert rest[1..] == replies[2 * n + 2..];
    assert rest[1..][1..] == replies[2 * (n + 1) + 1..];
  }

  // The answers run out before a round is over.
  lemma NoRound(replies: seq<Reply>, n: nat)
    requires Quiet(replies, n) && 2 * n + 2 >= |replies|
    ensures !RunChecker(Job, AskComplete, None, replies[2 * n + 1..]).0.End?
  {
  }

  lemma LastRound(replies: seq<Reply>, n: nat, verdict: Option<Reason>, left: Option<string>)
    requires Quiet(replies, n) && replies[0].Exit0? && 2 * n + 2 < |replies|
    requires !(replies[2 * n + 1].NonZero? && !replies[2 * n + 2].Exit0?)
    ensures RunChecker(Job, AskComplete, None, replies[2 * n + 1..]) == (End(verdict), left) <==>
            Decided(replies, n, verdict, left)
  {
    var rest := replies[2 * n + 1..];
    var next := Check(Job, AskComplete, None, rest[0]);
    var then1 := rest[1..];
    assert then1[0] == replies[2 * n + 2];
    FetchedFresh(then1[0], left);
    if next.0.AskFailed? {
      var then2 := then1[1..];
      assert then2 == replies[2 * n + 3..];
      LastFetch(FetchThenFail(JobFailed), then2);
      if then2 != [] {
        FetchedFresh(then2[0], left);
      }
      assert RunChecker(Job, AskFailed, None, then1) == RunChecker(Job, FetchThenFail(JobFailed), None, then2);
    } else {
      LastFetch(next.0, then1);
    }
    assert RunChecker(Job, AskComplete, None, rest) == RunChecker(Job, next.0, None, then1);
  }

  lemma FetchedFresh(reply: Reply, file: Option<string>)
    ensures Fetched(None, reply) == file <==> LeftBy(reply, file)
  {
    match reply
    case Exit0(output) => assert "" + output == output;
    case NonZero(output) => assert "" + output == output;
    case WriteFailed(partial) => assert "" + partial == partial;
    case _ =>
  }

  // The log fetch is the last command.
  lemma LastFetch(pc: Pc, replies: seq<Reply>)
    requires pc.FetchLast? || pc.FetchThenFail?
    ensures RunChecker(Job, pc, None, replies) == if replies == [] then (pc, None) else Check(Job, pc, None, replies[0])
  {
  }

  lemma QuietAt(replies: seq<Reply>, m: nat, n: nat)
    requires n < m
    ensures Quiet(replies, m) ==>
              2 * n + 2 < |replies| && replies[2 * n + 1].NonZero? && !replies[2 * n + 2].Exit0?
  {
  }

  /** When waitStable has returned, every checker has ended the way its own commands decide: one
    * command for a workload or pod, nothing for any other kind, and for a Job the verdict above,
    * provided the Jobs have different names. */
  lemma VerdictsDecided(
    objs: seq<Object>, jobs: seq<JobState>, files: map<string, string>, schedule: seq<Event>, i: nat)
    requires |jobs| == |objs| && DistinctJobs(objs) && i < |objs|
    requires Exec(Init(objs, jobs, files), schedule).returned.Some?
    ensures var s := Exec(Init(objs, jobs, files), schedule);
            var replies := Replies(Init(objs, jobs, files), schedule, i);
            && Shaped(s) && s.objs == objs && s.pcs[i].End?
            && match objs[i].kind
               case Job =>
                 var file := FileOf(s.files, objs[i].name);
                 || (replies != [] && !replies[0].Exit0? && s.pcs[i].error == Some(CleanFailed)
                     && file == FileOf(files, objs[i].name))
                 || exists n :: Decided(replies, n, s.pcs[i].error, file)
               case Other => s.pcs[i].error.None?
               case _ => |replies| == 1 && (s.pcs[i].error.None? <==> replies[0].Exit0?)
  {
    var s0 := Init(objs, jobs, files);
    var s := Exec(s0, schedule);
    var replies := Replies(s0, schedule, i);
    WaitStableExact(objs, jobs, files, schedule);
    if objs[i].kind.Job? {
      AsIfAlone(s0, schedule, i);
      JobVerdict(FileOf(files, objs[i].name), replies, s.pcs[i].error, FileOf(s.files, objs[i].name));
    } else {
      OneCommand(s0, schedule, i);
    }
  }

  // A checker that is not a Job's makes one move.
  lemma {:induction false} OneCommand(s: State, schedule: seq<Event>, i: nat)
    requires Shaped(s) && i < |s.objs| && !s.objs[i].kind.Job? && (s.pcs[i].Start? || s.pcs[i].End?)
    ensures var s' := Exec(s, schedule);
            var replies := Replies(s, schedule, i);
            && Shaped(s') && s'.objs == s.objs
            && (s.pcs[i].End? ==> s'.pcs[i] == s.pcs[i] && replies == [])
            && (s.pcs[i].Start? && s'.pcs[i].End? ==>
                  |replies| == 1 && s'.pcs[i] == Check(s.objs[i].kind, Start, None, replies[0]).0)
    decreases |schedule|
  {
    if schedule != [] {
      OneCommand(Step(s, schedule[0]), schedule[1..], i);
    }
  }

  /******* Termination *******/

  // Moves left until the checker of an ended Job ends, if no query fails.
  function Rank(job: JobState, pc: Pc): nat {
    match pc
    case Start => 4
    case AskComplete => if job.Complete? then 2 else 3
    case AskFailed => if job.Complete? then 3 else 2
    case FetchLast | FetchThenFail(_) => 1
    case End(_) => 0
  }

  function Moves(s: State, schedule: seq<Event>, i: nat): nat { |Replies(s, schedule, i)| }

  // The failures of the "has it failed" query that the loop swallows.
  function Swallowed(s: State, schedule: seq<Event>, i: nat): nat
    decreases |schedule|
  {
    if schedule == [] then 0
    else
      var e := schedule[0];
      (if Enabled(s, e) && e.Move? && e.i == i && s.pcs[i].AskFailed? && !e.reply.Exit0? && !e.reply.NonZero?
       then 1 else 0)
      + Swallowed(Step(s, e), schedule[1..], i)
  }

  /** Once its Job has ended, a checker takes at most four more moves, and two more for every failure
    * of the query for `failed` that the loop swallows. For a complete Job it is four in all. */
  lemma {:induction false} CheckerEnds(s: State, schedule: seq<Event>, i: nat)
    requires Shaped(s) && i < |s.objs| && !s.jobs[i].Active?
    ensures Shaped(Exec(s, schedule)) && |Exec(s, schedule).objs| == |s.objs|
    ensures Moves(s, schedule, i) + Rank(s.jobs[i], Exec(s, schedule).pcs[i])
            <= Rank(s.jobs[i], s.pcs[i]) + (if s.jobs[i].Complete? then 0 else 2 * Swallowed(s, schedule, i))
    decreases |schedule|
  {
    if schedule != [] {
      RankStep(s, schedule[0], i);
      CheckerEnds(Step(s, schedule[0]), schedule[1..], i);
    }
  }

  lemma RankStep(s: State, e: Event, i: nat)
    requires Shaped(s) && i < |s.objs| && !s.jobs[i].Active?
    ensures var s' := Step(s, e);
            && Shaped(s') && |s'.objs| == |s.objs| && s'.jobs[i] == s.jobs[i]
            && (if Enabled(s, e) && e.Move? && e.i == i then
                  1 + Rank(s.jobs[i], s'.pcs[i]) <= Rank(s.jobs[i], s.pcs[i]) +
                    (if !s.jobs[i].Complete? && s.pcs[i].AskFailed? && !e.reply.Exit0? && !e.reply.NonZero?
                     then 2 else 0)
                else s'.pcs[i] == s.pcs[i])
  {
  }

  // No Job is running any more. A checker of any other object makes one move.
  ghost predicate JobsEnded(s: State) {
    && Shaped(s)
    && forall i :: 0 <= i < |s.objs| ==>
         if s.objs[i].kind.Job? then !s.jobs[i].Active? else s.pcs[i].Start? || s.pcs[i].End?
  }

  function RankOf(s: State, i: nat): nat
    requires Shaped(s) && i < |s.objs|
  {
    if s.objs[i].kind.Job? then Rank(s.jobs[i], s.pcs[i]) else if s.pcs[i].End? then 0 else 1
  }

  function SumRank(s: State, n: nat): nat
    requires Shaped(s) && n <= |s.objs|
  {
    if n == 0 then 0 else SumRank(s, n - 1) + RankOf(s, n - 1)
  }

  // What is left to do: the moves of all checkers and the return of Wait.
  function ToDo(s: State): nat
    requires Shaped(s)
  {
    SumRank(s, |s.objs|) + (if s.returned.None? then 1 else 0)
  }

  lemma {:induction false} SumRankChanged(s: State, s': State, i: nat, n: nat)
    requires Shaped(s) && Shaped(s') && |s'.objs| == |s.objs| && i < |s.objs| && n <= |s.objs|
    requires forall k :: 0 <= k < |s.objs| && k != i ==> RankOf(s', k) == RankOf(s, k)
    ensures SumRank(s', n) == SumRank(s, n) + (if i < n then RankOf(s', i) - RankOf(s, i) else 0)
  {
    if n > 0 {
      SumRankChanged(s, s', i, n - 1);
    }
  }

  lemma {:induction false} SumRankAtMost(s: State, n: nat)
    requires Shaped(s) && n <= |s.objs|
    ensures SumRank(s, n) <= 4 * n
  {
    if n > 0 {
      SumRankAtMost(s, n - 1);
    }
  }

  // A move of a checker or the return of Wait, as opposed to a change of a Job.
  predicate Takes(s: State, e: Event) { Enabled(s, e) && !e.Evolve? }

  // The query for `failed` did not get through and the loop goes on.
  predicate Swallows(s: State, e: Event) {
    && Enabled(s, e) && e.Move? && s.objs[e.i].kind.Job? && s.pcs[e.i].AskFailed?
    && !e.reply.Exit0? && !e.reply.NonZero?
  }

  function Taken(s: State, schedule: seq<Event>): nat
    decreases |schedule|
  {
    if schedule == [] then 0
    else (if Takes(s, schedule[0]) then 1 else 0) + Taken(Step(s, schedule[0]), schedule[1..])
  }

  function AllSwallowed(s: State, schedule: seq<Event>): nat
    decreases |schedule|
  {
    if schedule == [] then 0
    else (if Swallows(s, schedule[0]) then 1 else 0) + AllSwallowed(Step(s, schedule[0]), schedule[1..])
  }

  lemma ToDoStep(s: State, e: Event)
    requires JobsEnded(s)
    ensures JobsEnded(Step(s, e)) && |Step(s, e).objs| == |s.objs|
    ensures ToDo(Step(s, e)) + (if Takes(s, e) then 1 else 0) <= ToDo(s) + (if Swallows(s, e) then 2 else 0)
  {
    var s' := Step(s, e);
    if Enabled(s, e) {
      match e
      case Move(i, reply) =>
        if s.objs[i].kind.Job? { RankStep(s, e, i); }
        SumRankChanged(s, s', i, |s.objs|);
      case Evolve(i, to) => SumRankChanged(s, s', i, |s.objs|);
      case Wait => SumRankSame(s, s', |s.objs|);
    }
  }

  lemma {:induction false} SumRankSame(s: State, s': State, n: nat)
    requires Shaped(s) && Shaped(s') && |s'.objs| == |s.objs| && n <= |s.objs|
    requires forall k :: 0 <= k < |s.objs| ==> RankOf(s', k) == RankOf(s, k)
    ensures SumRank(s', n) == SumRank(s, n)
  {
    if n > 0 {
      SumRankSame(s, s', n - 1);
    }
  }

  lemma {:induction false} TakenAtMost(s: State, schedule: seq<Event>)
    requires JobsEnded(s)
    ensures Shaped(Exec(s, schedule))
    ensures Taken(s, schedule) + ToDo(Exec(s, schedule)) <= ToDo(s) + 2 * AllSwallowed(s, schedule)
    decreases |schedule|
  {
    if schedule != [] {
      ToDoStep(s, schedule[0]);
      TakenAtMost(Step(s, schedule[0]), schedule[1..]);
    }
  }

  lemma {:induction false} OthersMoveOnce(s: State, schedule: seq<Event>)
    requires Shaped(s)
    requires forall i :: 0 <= i < |s.objs| && !s.objs[i].kind.Job? ==> s.pcs[i].Start? || s.pcs[i].End?
    ensures var s' := Exec(s, schedule);
            && Shaped(s') && s'.objs == s.objs
            && forall i :: 0 <= i < |s.objs| && !s.objs[i].kind.Job? ==> s'.pcs[i].Start? || s'.pcs[i].End?
    decreases |schedule|
  {
    if schedule != [] {
      OthersMoveOnce(Step(s, schedule[0]), schedule[1..]);
    }
  }

  /** Until the call returns, some checker can move or Wait can return, whatever has happened, and no
    * checker waits for another. Once
    * every Job has ended, all that is left is at most four moves for every object, the return, and
    * two more moves for every failed query that a loop swallows. */
  lemma WaitEnds(
    objs: seq<Object>, jobs: seq<JobState>, files: map<string, string>, before: seq<Event>, after: seq<Event>)
    requires |jobs| == |objs|
    ensures var s := Exec(Init(objs, jobs, files), before);
            && Shaped(s) && s.objs == objs
            && (s.returned.None? ==> exists e :: Takes(s, e))
            && (s.returned.None? ==> forall i, reply :: 0 <= i < |objs| && !s.pcs[i].End? ==>
                  Truthful(s.jobs[i], s.pcs[i], reply) ==> Takes(s, Move(i, reply)))
            && ((forall i :: 0 <= i < |objs| && objs[i].kind.Job? ==> !s.jobs[i].Active?) ==>
                  Taken(s, after) <= 4 * |objs| + 1 + 2 * AllSwallowed(s, after))
  {
    var s := Exec(Init(objs, jobs, files), before);
    OthersMoveOnce(Init(objs, jobs, files), before);
    if s.returned.None? {
      if i :| 0 <= i < |s.pcs| && !s.pcs[i].End? {
        assert Takes(s, Move(i, Unreachable));
      } else {
        assert Takes(s, Wait);
      }
    }
    if JobsEnded(s) {
      TakenAtMost(s, after);
      SumRankAtMost(s, |objs|);
    }
  }

  /******* Which error *******/

  /** The error that is returned is that of the first checker to fail. */
  lemma FirstToFail(s: State, i: nat, reply: Reply, schedule: seq<Event>)
    requires Inv(s) && Enabled(s, Move(i, reply))
    requires forall k :: 0 <= k < |s.pcs| && s.pcs[k].End? ==> s.pcs[k].error.None?
    requires var pc := Step(s, Move(i, reply)).pcs[i]; pc.End? && pc.error.Some?
    ensures var s' := Exec(Step(s, Move(i, reply)), schedule); s'.returned.Some? ==> s'.returned == Some(Some(i))
  {
    StepInv(s, Move(i, reply));
    ErrorStays(Step(s, Move(i, reply)), schedule, i);
    ExecInv(Step(s, Move(i, reply)), schedule);
  }

  lemma {:induction false} ErrorStays(s: State, schedule: seq<Event>, i: nat)
    requires s.err == Some(i)
    ensures Exec(s, schedule).err == Some(i)
    decreases |schedule|
  {
    if schedule != [] {
      ErrorStays(Step(s, schedule[0]), schedule[1..], i);
    }
  }

  /******* The loop *******/

  // The checker of a Job as the loop that the code has. The answers come in a list; if they run
  // out, the loop is left at the point where it waits for the next one.
  class JobChecker {
    const name: string
    var logFile: Option<string>

    constructor (name: string, logFile: Option<string>)
      ensures this.name == name && this.logFile == logFile
    {
      this.name := name;
      this.logFile := logFile;
    }

    // What the log file holds, nothing if it is not there.
    function Text(): string
      reads this`logFile
    {
      if logFile.Some? then logFile.value else ""
    }

    // `getLogsFn`: runs `kubectl logs` and appends its output to the log file, whatever the exit code;
    // without an answer, or if the file does not open, the file stays as it was.
    method GetLogs(reply: Reply) returns (ok: bool)
      modifies this`logFile
      ensures logFile == Fetched(old(logFile), reply)
      ensures ok <==> reply.Exit0?
      ensures reply.Exit0? || reply.NonZero? ==> logFile == Some(old(Text()) + reply.output)
      ensures reply.WriteFailed? ==> logFile == Some(old(Text()) + reply.partial)
      ensures reply.Unreachable? || reply.OpenFailed? ==> logFile == old(logFile)
    {
      match reply {
        case Exit0(output) => logFile := Some(Text() + output);
        case NonZero(output) => logFile := Some(Text() + output);
        case WriteFailed(partial) => logFile := Some(Text() + partial);
        case _ =>
      }
      ok := reply.Exit0?;
    }

    method Run(replies: seq<Reply>) returns (pc: Pc)
      modifies this`logFile
      ensures (pc, logFile) == RunChecker(Job, Start, old(logFile), replies)
    {
      if replies == [] {
        return Start;
      }
      if !replies[0].Exit0? {
        return End(Some(CleanFailed));
      }
      logFile := None;
      var k := 1;
      while true
        invariant 1 <= k <= |replies| && logFile == None
        invariant RunChecker(Job, Start, old(logFile), replies) == RunChecker(Job, AskComplete, None, replies[k..])
        decreases |replies| - k
      {
        if k == |replies| {
          return AskComplete;
        }
        var complete := replies[k];
        k := k + 1;
        assert replies[k - 1..][1..] == replies[k..];
        if complete.Exit0? {
          break;
        } else if !complete.NonZero? {
          pc := LastLogs(FetchThenFail(WaitBroken), replies[k..]);
          return;
        }
        if k == |replies| {
          return AskFailed;
        }
        var failed := replies[k];
        k := k + 1;
        assert replies[k - 1..][1..] == replies[k..];
        if failed.Exit0? {
          pc := LastLogs(FetchThenFail(JobFailed), replies[k..]);
          return;
        }
      }
      pc := LastLogs(FetchLast, replies[k..]);
    }

    // The one log fetch at the end of each path, and the verdict after it.
    method LastLogs(at: Pc, replies: seq<Reply>) returns (pc: Pc)
      requires at.FetchLast? || at.FetchThenFail?
      modifies this`logFile
      ensures (pc, logFile) == RunChecker(Job, at, old(logFile), replies)
    {
      if replies == [] {
        return at;
      }
      var ok := GetLogs(replies[0]);
      pc := if at.FetchThenFail? then End(Some(at.reason)) else if ok then End(None) else End(Some(LogsFailed));
    }
  }
}
