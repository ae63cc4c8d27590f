/** clients/vnet.go: concurrent calls of `NewVnet`, which hands its arguments to
  * `createVirtualNetwork` and `createSubnet` through package-level variables that all calls share.
  */
module Vnet {
  import opened Wrappers

  datatype Args = Args(subscription: string, resourceGroup: string, location: string)

  // A create request as the service receives it. A subnet request has no location.
  datatype Request = Request(caller: nat, subscription: string, resourceGroup: string, location: Option<string>)

  // The package-level variables. A client is known by the subscription it was made for.
  datatype Globals = Globals(
    subscriptionID: string, resourceGroupName: string, location: string,
    factory: Option<string>, vnetClient: Option<string>, subnetClient: Option<string>)

  // At most one read or write of a shared variable at a time. What a step has read is kept with the
  // program point until it is used.
  datatype Pc =
    | SetSubscription | SetResourceGroup | SetLocation | GetCred
    | ReadSubscription
    | MakeFactory(subscription: string)
    | ReadFactoryForVnet
    | SetVnetClient(client: string)
    | ReadFactoryForSubnet
    | SetSubnetClient(client: string)
    | ReadVnetClient
    | ReadVnetGroup(client: string)
    | ReadVnetLocation(client: string, group: string)
    | SendVnet(client: string, group: string, location: string)
    | AwaitVnet
    | ReadSubnetClient
    | ReadSubnetGroup(client: string)
    | SendSubnet(client: string, group: string)
    | AwaitSubnet
    | Returned(ok: bool)

  datatype State = State(calls: seq<Args>, pcs: seq<Pc>, globals: Globals, requests: seq<Request>, down: bool)

  // A call moves on; `ok` is the answer of the outside world where there is one.
  datatype Event = Move(caller: nat, ok: bool)

  function Init(calls: seq<Args>): State {
    State(calls, seq(|calls|, _ => SetSubscription), Globals("", "", "", None, None, None), [], false)
  }

  predicate Enabled(s: State, e: Event) {
    !s.down && e.caller < |s.calls| == |s.pcs| && !s.pcs[e.caller].Returned?
  }

  function Goto(s: State, i: nat, pc: Pc): State
    requires i < |s.pcs|
  {
    s.(pcs := s.pcs[i := pc])
  }

  // `down` is the end of the process: log.Fatal, or the use of a client that is nil.
  function Step(s: State, e: Event): State {
    if !Enabled(s, e) then s
    else
      var i := e.caller;
      var args := s.calls[i];
      var g := s.globals;
      match s.pcs[i]
      case SetSubscription => Goto(s, i, SetResourceGroup).(globals := g.(subscriptionID := args.subscription))
      case SetResourceGroup => Goto(s, i, SetLocation).(globals := g.(resourceGroupName := args.resourceGroup))
      case SetLocation => Goto(s, i, GetCred).(globals := g.(location := args.location))
      case GetCred => Goto(s, i, if e.ok then ReadSubscription else Returned(false))
      case ReadSubscription => Goto(s, i, MakeFactory(g.subscriptionID))
      case MakeFactory(subscription) =>
        if e.ok then Goto(s, i, ReadFactoryForVnet).(globals := g.(factory := Some(subscription)))
        else s.(down := true)
      case ReadFactoryForVnet =>
        if g.factory.None? then s.(down := true) else Goto(s, i, SetVnetClient(g.factory.value))
      case SetVnetClient(client) => Goto(s, i, ReadFactoryForSubnet).(globals := g.(vnetClient := Some(client)))
      case ReadFactoryForSubnet =>
        if g.factory.None? then s.(down := true) else Goto(s, i, SetSubnetClient(g.factory.value))
      case SetSubnetClient(client) => Goto(s, i, ReadVnetClient).(globals := g.(subnetClient := Some(client)))
      case ReadVnetClient =>
        if g.vnetClient.None? then s.(down := true) else Goto(s, i, ReadVnetGroup(g.vnetClient.value))
      case ReadVnetGroup(client) => Goto(s, i, ReadVnetLocation(client, g.resourceGroupName))
      case ReadVnetLocation(client, group) => Goto(s, i, SendVnet(client, group, g.location))
      case SendVnet(client, group, location) =>
        Goto(s, i, AwaitVnet).(requests := s.requests + [Request(i, client, group, Some(location))])
      case AwaitVnet => if e.ok then Goto(s, i, ReadSubnetClient) else s.(down := true)
      case ReadSubnetClient =>
        if g.subnetClient.None? then s.(down := true) else Goto(s, i, ReadSubnetGroup(g.subnetClient.value))
      case ReadSubnetGroup(client) =>
        Goto(s, i, SendSubnet(client, g.resourceGroupName))
      case SendSubnet(client, group) =>
        Goto(s, i, AwaitSubnet).(requests := s.requests + [Request(i, client, group, None)])
      case AwaitSubnet => if e.ok then Goto(s, i, Returned(true)) else s.(down := true)
      case Returned(_) => s
  }

  function Exec(s: State, schedule: seq<Event>): State
    decreases |schedule|
  {
    if schedule == [] then s
    else Exec(Step(s, schedule[0]), schedule[1..])
  }

  // The request carries what its own caller passed to NewVnet.
  predicate OwnArgs(calls: seq<Args>, r: Request) {
    && r.caller < |calls|
    && r.subscription == calls[r.caller].subscription
    && r.resourceGroup == calls[r.caller].resourceGroup
    && (r.location.Some? ==> r.location.value == calls[r.caller].location)
  }

  ghost predicate AllOwn(s: State) {
    forall k :: 0 <= k < |s.requests| ==> OwnArgs(s.calls, s.requests[k])
  }

  // Every interleaving sends only requests with the caller's own arguments.
  ghost predicate Safe(calls: seq<Args>) {
    forall schedule :: AllOwn(Exec(Init(calls), schedule))
  }

  // All callers pass the same arguments.
  predicate Agree(calls: seq<Args>) {
    forall i, j :: 0 <= i < |calls| && 0 <= j < |calls| ==> calls[i] == calls[j]
  }

  /******* What a call has sent *******/

  // The requests of one caller, in order.
  function Mine(requests: seq<Request>, i: nat): seq<Request> {
    if requests == [] then []
    else
      var last := requests[|requests| - 1];
      Mine(requests[..|requests| - 1], i) + (if last.caller == i then [last] else [])
  }

  // A vnet request has a location, and a subnet request has none.
  predicate VnetSent(mine: seq<Request>) { |mine| == 1 && mine[0].location.Some? }

  predicate BothSent(mine: seq<Request>) {
    |mine| == 2 && mine[0].location.Some? && mine[1].location.None?
  }

  // The requests that a call has sent when it stands at a program point.
  predicate SentSoFar(mine: seq<Request>, pc: Pc) {
    match pc
    case AwaitVnet => VnetSent(mine)
    case ReadSubnetClient => VnetSent(mine)
    case ReadSubnetGroup(_) => VnetSent(mine)
    case SendSubnet(_, _) => VnetSent(mine)
    case AwaitSubnet => BothSent(mine)
    case Returned(ok) => if ok then BothSent(mine) else mine == []
    case _ => mine == []
  }

  // What a call has written is there, whoever wrote it last.
  predicate Filled(g: Globals, pc: Pc) {
    && (Written(pc) >= 4 ==> g.factory.Some?)
    && (Written(pc) >= 5 ==> g.vnetClient.Some?)
    && (Written(pc) >= 6 ==> g.subnetClient.Some?)
  }

  ghost predicate Orderly(s: State) {
    && |s.pcs| == |s.calls|
    && (forall i :: 0 <= i < |s.pcs| ==> SentSoFar(Mine(s.requests, i), s.pcs[i]))
    && (forall i :: 0 <= i < |s.pcs| ==> Filled(s.globals, s.pcs[i]))
  }

  lemma MineAppend(requests: seq<Request>, r: Request, i: nat)
    ensures Mine(requests + [r], i) == Mine(requests, i) + (if r.caller == i then [r] else [])
  {
    assert (requests + [r])[..|requests|] == requests;
  }

  lemma OrderlyStep(s: State, e: Event)
    requires Orderly(s)
    ensures Orderly(Step(s, e)) && Step(s, e).calls == s.calls
  {
    if Enabled(s, e) {
      OthersStay(s, e);
      StaysFilled(s, e);
      forall i | 0 <= i < |s.pcs|
        ensures SentSoFar(Mine(Step(s, e).requests, i), Step(s, e).pcs[i])
      {
        SentStep(s, e, i);
      }
      hide Step;
    }
  }

  lemma StaysFilled(s: State, e: Event)
    requires Orderly(s) && Enabled(s, e)
    ensures var s' := Step(s, e); |s'.pcs| == |s.pcs| && forall i :: 0 <= i < |s.pcs| ==> Filled(s'.globals, s'.pcs[i])
  {
    assert Filled(s.globals, s.pcs[e.caller]);
    hide SentSoFar;
    forall i | 0 <= i < |s.pcs|
      ensures Filled(Step(s, e).globals, Step(s, e).pcs[i])
    {
      assert Filled(s.globals, s.pcs[i]);
    }
  }

  // What the event sends.
  function News(s: State, e: Event): seq<Request>
    requires Enabled(s, e)
  {
    match s.pcs[e.caller]
    case SendVnet(client, group, location) => [Request(e.caller, client, group, Some(location))]
    case SendSubnet(client, group) => [Request(e.caller, client, group, None)]
    case _ => []
  }

  lemma Sends(s: State, e: Event)
    requires Enabled(s, e)
    ensures Step(s, e).requests == s.requests + News(s, e)
  {
  }

  lemma SentStep(s: State, e: Event, i: nat)
    requires |s.pcs| == |s.calls| && Enabled(s, e) && i < |s.pcs| && SentSoFar(Mine(s.requests, i), s.pcs[i])
    ensures |Step(s, e).pcs| == |s.pcs| && SentSoFar(Mine(Step(s, e).requests, i), Step(s, e).pcs[i])
  {
    OthersStay(s, e);
    Sends(s, e);
    MineMore(s, e, i);
    if i == e.caller {
      SentNext(s, e, Mine(s.requests, i));
    }
    hide Step, SentSoFar, News, Enabled;
  }

  lemma MineMore(s: State, e: Event, i: nat)
    requires Enabled(s, e)
    ensures Mine(s.requests + News(s, e), i) == Mine(s.requests, i) + (if i == e.caller then News(s, e) else [])
  {
    if News(s, e) == [] {
      assert s.requests + [] == s.requests && Mine(s.requests, i) + [] == Mine(s.requests, i);
    } else {
      MineAppend(s.requests, News(s, e)[0], i);
    }
  }

  lemma SentNext(s: State, e: Event, mine: seq<Request>)
    requires Enabled(s, e) && SentSoFar(mine, s.pcs[e.caller])
    ensures e.caller < |Step(s, e).pcs| && SentSoFar(mine + News(s, e), Step(s, e).pcs[e.caller])
  {
  }

  lemma {:induction false} OrderlyRun(s: State, schedule: seq<Event>)
    requires Orderly(s)
    ensures Orderly(Exec(s, schedule)) && Exec(s, schedule).calls == s.calls
    decreases |schedule|
  {
    if schedule != [] {
      OrderlyStep(s, schedule[0]);
      OrderlyRun(Step(s, schedule[0]), schedule[1..]);
    }
  }

  /** In every interleaving, with or without agreement: a call that has returned its ids has sent
    * exactly a vnet request and then a subnet request, and a call that has returned an error has sent
    * nothing. With agreement both requests carry the call's own subscription and group, and the vnet
    * request its location. */
  lemma ReturnedSent(calls: seq<Args>, schedule: seq<Event>, i: nat)
    requires i < |calls|
    ensures var s := Exec(Init(calls), schedule);
            var mine := Mine(s.requests, i);
            && |s.pcs| == |calls|
            && (s.pcs[i] == Returned(false) ==> mine == [])
            && (s.pcs[i] == Returned(true) ==>
                  |mine| == 2 && mine[0].location.Some? && mine[1].location.None?)
            && (s.pcs[i] == Returned(true) && Agree(calls) ==>
                  && mine[0] == Request(i, calls[i].subscription, calls[i].resourceGroup, Some(calls[i].location))
                  && mine[1] == Request(i, calls[i].subscription, calls[i].resourceGroup, None))
  {
    var s := Exec(Init(calls), schedule);
    OrderlyRun(Init(calls), schedule);
    assert SentSoFar(Mine(s.requests, i), s.pcs[i]);
    if Agree(calls) {
      ExecInv(Init(calls), schedule);
      MineOwn(s, i);
    }
  }

  lemma MineOwn(s: State, i: nat)
    requires AllOwn(s)
    ensures forall k :: 0 <= k < |Mine(s.requests, i)| ==>
              Mine(s.requests, i)[k].caller == i && OwnArgs(s.calls, Mine(s.requests, i)[k])
  {
    AllMine(s.calls, s.requests, i);
  }

  lemma {:induction false} AllMine(calls: seq<Args>, requests: seq<Request>, i: nat)
    requires forall k :: 0 <= k < |requests| ==> OwnArgs(calls, requests[k])
    ensures forall k :: 0 <= k < |Mine(requests, i)| ==>
              Mine(requests, i)[k].caller == i && OwnArgs(calls, Mine(requests, i)[k])
  {
    hide OwnArgs;
    if requests != [] {
      AllMine(calls, requests[..|requests| - 1], i);
    }
  }

  /** The process ends in NewVnet exactly when making the factory, the vnet or the subnet fails: no
    * client is ever used before it is made, in any interleaving. */
  lemma EndsExactly(calls: seq<Args>, schedule: seq<Event>, e: Event)
    ensures var s := Exec(Init(calls), schedule);
            |s.pcs| == |s.calls| == |calls| &&
            (!s.down && Step(s, e).down <==>
             && Enabled(s, e) && !e.ok
             && (s.pcs[e.caller].MakeFactory? || s.pcs[e.caller].AwaitVnet? || s.pcs[e.caller].AwaitSubnet?))
  {
    OrderlyRun(Init(calls), schedule);
    hide Exec, SentSoFar;
    var s := Exec(Init(calls), schedule);
    if Enabled(s, e) {
      assert Filled(s.globals, s.pcs[e.caller]);
    }
  }

  /******* Agreement is enough *******/

  // How far a call has come, as the number of variables it has written for sure.
  function Written(pc: Pc): nat {
    match pc
    case SetSubscription => 0
    case SetResourceGroup => 1
    case SetLocation => 2
    case GetCred | ReadSubscription | MakeFactory(_) | Returned(_) => 3
    case ReadFactoryForVnet | SetVnetClient(_) => 4
    case ReadFactoryForSubnet | SetSubnetClient(_) => 5
    case _ => 6
  }

  // With agreement, a written variable holds the value that everybody writes.
  ghost predicate PcOk(args: Args, g: Globals, pc: Pc) {
    && (Written(pc) >= 1 ==> g.subscriptionID == args.subscription)
    && (Written(pc) >= 2 ==> g.resourceGroupName == args.resourceGroup)
    && (Written(pc) >= 3 ==> g.location == args.location)
    && (Written(pc) >= 4 ==> g.factory == Some(args.subscription))
    && (Written(pc) >= 5 ==> g.vnetClient == Some(args.subscription))
    && (Written(pc) >= 6 ==> g.subnetClient == Some(args.subscription))
    && LocalsOk(args, pc)
  }

  // What a call has read and not yet used is its own.
  predicate LocalsOk(args: Args, pc: Pc) {
    match pc
    case MakeFactory(subscription) => subscription == args.subscription
    case SetVnetClient(client) => client == args.subscription
    case SetSubnetClient(client) => client == args.subscription
    case ReadVnetGroup(client) => client == args.subscription
    case ReadVnetLocation(client, group) => client == args.subscription && group == args.resourceGroup
    case SendVnet(client, group, location) =>
      client == args.subscription && group == args.resourceGroup && location == args.location
    case ReadSubnetGroup(client) => client == args.subscription
    case SendSubnet(client, group) => client == args.subscription && group == args.resourceGroup
    case _ => true
  }

  ghost predicate Inv(s: State) {
    && Agree(s.calls) && |s.pcs| == |s.calls|
    && (forall i :: 0 <= i < |s.calls| ==> PcOk(s.calls[i], s.globals, s.pcs[i]))
    && AllOwn(s)
  }

  lemma StepInv(s: State, e: Event)
    requires Inv(s)
    ensures Inv(Step(s, e)) && Step(s, e).calls == s.calls
  {
    if Enabled(s, e) {
      GlobalsAgreed(s, e);
      OthersStay(s, e);
      SendsOwn(s, e);
      assert PcOk(s.calls[e.caller], s.globals, s.pcs[e.caller]);
      MoverOk(s, e);
      hide Step;
      forall i | 0 <= i < |s.calls|
        ensures PcOk(s.calls[i], Step(s, e).globals, Step(s, e).pcs[i])
      {
        assert PcOk(s.calls[i], s.globals, s.pcs[i]);
        assert s.calls[i] == s.calls[e.caller];
      }
    }
  }

  // The caller that moves keeps what it has written and read.
  lemma MoverOk(s: State, e: Event)
    requires Enabled(s, e) && PcOk(s.calls[e.caller], s.globals, s.pcs[e.caller])
    ensures var s' := Step(s, e);
            && |s'.pcs| == |s.pcs| && PcOk(s.calls[e.caller], s'.globals, s'.pcs[e.caller])
  {
  }

  lemma OthersStay(s: State, e: Event)
    requires Enabled(s, e)
    ensures var s' := Step(s, e);
            && s'.calls == s.calls && |s'.pcs| == |s.pcs|
            && forall i :: 0 <= i < |s.pcs| && i != e.caller ==> s'.pcs[i] == s.pcs[i]
  {
  }

  // It sends only what is its own.
  lemma SendsOwn(s: State, e: Event)
    requires Inv(s) && Enabled(s, e)
    ensures AllOwn(Step(s, e))
  {
    var args, pc := s.calls[e.caller], s.pcs[e.caller];
    assert PcOk(args, s.globals, pc);
    hide PcOk;
    assert Step(s, e).requests ==
           match pc
           case SendVnet(client, group, location) => s.requests + [Request(e.caller, client, group, Some(location))]
           case SendSubnet(client, group) => s.requests + [Request(e.caller, client, group, None)]
           case _ => s.requests;
    OthersStay(s, e);
    hide Step;
  }

  // A step leaves each global as it was or gives it the value that everybody writes.
  lemma GlobalsAgreed(s: State, e: Event)
    requires Inv(s) && Enabled(s, e)
    ensures var a, g, g' := s.calls[e.caller], s.globals, Step(s, e).globals;
            && (g'.subscriptionID == g.subscriptionID || g'.subscriptionID == a.subscription)
            && (g'.resourceGroupName == g.resourceGroupName || g'.resourceGroupName == a.resourceGroup)
            && (g'.location == g.location || g'.location == a.location)
            && (g'.factory == g.factory || g'.factory == Some(a.subscription))
            && (g'.vnetClient == g.vnetClient || g'.vnetClient == Some(a.subscription))
            && (g'.subnetClient == g.subnetClient || g'.subnetClient == Some(a.subscription))
  {
    assert PcOk(s.calls[e.caller], s.globals, s.pcs[e.caller]);
  }

  lemma {:induction false} ExecInv(s: State, schedule: seq<Event>)
    requires Inv(s)
    ensures Inv(Exec(s, schedule)) && Exec(s, schedule).calls == s.calls
    decreases |schedule|
  {
    if schedule != [] {
      StepInv(s, schedule[0]);
      ExecInv(Step(s, schedule[0]), schedule[1..]);
    }
  }

  /******* Agreement is needed *******/

  // The caller's steps up to the point where both clients are made.
  function Prepare(i: nat): seq<Event> { Alone(i, 10) }

  // The caller moves by itself for a while.
  function Alone(i: nat, n: nat): seq<Event> { seq(n, _ => Move(i, true)) }

  lemma {:induction false} ExecConcat(s: State, a: seq<Event>, b: seq<Event>)
    ensures Exec(s, a + b) == Exec(Exec(s, a), b)
    decreases |a|
  {
    if a == [] {
      assert a + b == b;
    } else {
      assert (a + b)[1..] == a[1..] + b;
      ExecConcat(Step(s, a[0]), a[1..], b);
    }
  }

  // The state with one caller and the globals moved on.
  function At(s: State, i: nat, pc: Pc, g: Globals): State
    requires i < |s.pcs|
  {
    s.(pcs := s.pcs[i := pc], globals := g)
  }

  // What a caller does before it reads anything back.
  function Write(args: Args, pc: Pc, g: Globals): (Pc, Globals) {
    match pc
    case SetSubscription => (SetResourceGroup, g.(subscriptionID := args.subscription))
    case SetResourceGroup => (SetLocation, g.(resourceGroupName := args.resourceGroup))
    case SetLocation => (GetCred, g.(location := args.location))
    case GetCred => (ReadSubscription, g)
    case ReadSubscription => (MakeFactory(g.subscriptionID), g)
    case MakeFactory(subscription) => (ReadFactoryForVnet, g.(factory := Some(subscription)))
    case ReadFactoryForVnet => (if g.factory.Some? then SetVnetClient(g.factory.value) else pc, g)
    case SetVnetClient(client) => (ReadFactoryForSubnet, g.(vnetClient := Some(client)))
    case ReadFactoryForSubnet => (if g.factory.Some? then SetSubnetClient(g.factory.value) else pc, g)
    case SetSubnetClient(client) => (ReadVnetClient, g.(subnetClient := Some(client)))
    case _ => (pc, g)
  }

  function Togo(pc: Pc): nat {
    match pc
    case SetSubscription => 10
    case SetResourceGroup => 9
    case SetLocation => 8
    case GetCred => 7
    case ReadSubscription => 6
    case MakeFactory(_) => 5
    case ReadFactoryForVnet => 4
    case SetVnetClient(_) => 3
    case ReadFactoryForSubnet => 2
    case SetSubnetClient(_) => 1
    case _ => 0
  }

  // The factory is there whenever it is about to be read.
  predicate FactoryMade(pc: Pc, g: Globals) {
    pc.ReadFactoryForVnet? || pc.SetVnetClient? || pc.ReadFactoryForSubnet? || pc.SetSubnetClient? ==> g.factory.Some?
  }

  // The globals after all the writes that are still to come.
  function AfterWrites(args: Args, pc: Pc, g: Globals): Globals
    requires FactoryMade(pc, g)
    decreases Togo(pc)
  {
    if Togo(pc) == 0 then g else var w := Write(args, pc, g); AfterWrites(args, w.0, w.1)
  }

  lemma {:induction false} WriteSteps(s: State, i: nat, pc: Pc, g: Globals)
    requires !s.down && i < |s.calls| == |s.pcs| && (Togo(pc) > 0 || pc.ReadVnetClient?) && FactoryMade(pc, g)
    ensures Exec(At(s, i, pc, g), Alone(i, Togo(pc))) == At(s, i, ReadVnetClient, AfterWrites(s.calls[i], pc, g))
    decreases Togo(pc)
  {
    if Togo(pc) > 0 {
      var w := Write(s.calls[i], pc, g);
      WriteStep(s, i, pc, g);
      Unroll(At(s, i, pc, g), i, Togo(pc));
      hide Step;
      WriteSteps(s, i, w.0, w.1);
    }
  }

  lemma WriteStep(s: State, i: nat, pc: Pc, g: Globals)
    requires !s.down && i < |s.calls| == |s.pcs| && Togo(pc) > 0 && FactoryMade(pc, g)
    ensures var w := Write(s.calls[i], pc, g);
            && Step(At(s, i, pc, g), Move(i, true)) == At(s, i, w.0, w.1)
            && Togo(w.0) == Togo(pc) - 1 && FactoryMade(w.0, w.1) && (Togo(w.0) > 0 || w.0.ReadVnetClient?)
  {
    var w := Write(s.calls[i], pc, g);
    assert s.pcs[i := pc][i := w.0] == s.pcs[i := w.0];
  }

  lemma PrepareSteps(s: State, i: nat)
    requires !s.down && i < |s.calls| == |s.pcs| && s.pcs[i] == SetSubscription
    ensures var a := s.calls[i]; var sub := Some(a.subscription);
            Exec(s, Prepare(i)) ==
            At(s, i, ReadVnetClient, Globals(a.subscription, a.resourceGroup, a.location, sub, sub, sub))
  {
    assert s == At(s, i, SetSubscription, s.globals);
    WriteSteps(s, i, SetSubscription, s.globals);
    WritesAll(s.calls[i], s.globals);
  }

  lemma WritesAll(a: Args, g: Globals)
    ensures var sub := Some(a.subscription);
            AfterWrites(a, SetSubscription, g) ==
            Globals(a.subscription, a.resourceGroup, a.location, sub, sub, sub)
  {
    var g1 := g.(subscriptionID := a.subscription);
    var g2 := g1.(resourceGroupName := a.resourceGroup);
    var g3 := g2.(location := a.location);
    assert AfterWrites(a, SetSubscription, g) == AfterWrites(a, SetResourceGroup, g1)
        == AfterWrites(a, SetLocation, g2);
    assert AfterWrites(a, SetLocation, g2) == AfterWrites(a, GetCred, g3) == AfterWrites(a, ReadSubscription, g3);
    ClientsMade(a, g3);
    hide AfterWrites;
  }

  lemma ClientsMade(a: Args, g: Globals)
    requires g.subscriptionID == a.subscription
    ensures var sub := Some(a.subscription);
            AfterWrites(a, ReadSubscription, g) == g.(factory := sub, vnetClient := sub, subnetClient := sub)
  {
    var sub := Some(a.subscription);
    var g4 := g.(factory := sub);
    var g5 := g4.(vnetClient := sub);
    assert AfterWrites(a, ReadSubscription, g) == AfterWrites(a, MakeFactory(a.subscription), g)
        == AfterWrites(a, ReadFactoryForVnet, g4) == AfterWrites(a, SetVnetClient(a.subscription), g4);
    assert AfterWrites(a, SetVnetClient(a.subscription), g4)
        == AfterWrites(a, ReadFactoryForSubnet, g5) == AfterWrites(a, SetSubnetClient(a.subscription), g5);
    assert AfterWrites(a, SetSubnetClient(a.subscription), g5)
        == AfterWrites(a, ReadVnetClient, g5.(subnetClient := sub));
  }

  lemma Unroll(s: State, i: nat, n: nat)
    requires n > 0
    ensures Exec(s, Alone(i, n)) == Exec(Step(s, Move(i, true)), Alone(i, n - 1))
  {
    assert Alone(i, n)[1..] == Alone(i, n - 1);
  }

  // What a caller's next four steps send, once it is past its writes.
  lemma ReadsBack(s: State, i: nat)
    requires !s.down && i < |s.calls| == |s.pcs| && s.pcs[i] == ReadVnetClient && s.globals.vnetClient.Some?
    ensures var g := s.globals;
            Exec(s, Alone(i, 4)) == s.(
              pcs := s.pcs[i := AwaitVnet],
              requests := s.requests + [Request(i, g.vnetClient.value, g.resourceGroupName, Some(g.location))])
  {
    SameGoto(s, i);
    ThreeReads(s, i, s.globals);
    SendStep(s, i, s.globals.vnetClient.value, s.globals.resourceGroupName, s.globals.location);
  }

  lemma ThreeReads(s: State, i: nat, g: Globals)
    requires !s.down && i < |s.calls| == |s.pcs| && s.globals == g && g.vnetClient.Some?
    ensures Onward(s, i, ReadVnetClient, 4) ==
            Onward(s, i, SendVnet(g.vnetClient.value, g.resourceGroupName, g.location), 1)
  {
    hide Onward;
    ReadStep(s, i, ReadVnetClient, ReadVnetGroup(g.vnetClient.value), 4);
    ReadStep(s, i, ReadVnetGroup(g.vnetClient.value), ReadVnetLocation(g.vnetClient.value, g.resourceGroupName), 3);
    ReadStep(s, i, ReadVnetLocation(g.vnetClient.value, g.resourceGroupName),
             SendVnet(g.vnetClient.value, g.resourceGroupName, g.location), 2);
  }

  // The caller at a program point, moving by itself.
  function Onward(s: State, i: nat, pc: Pc, n: nat): State
    requires i < |s.pcs|
  {
    Exec(Goto(s, i, pc), Alone(i, n))
  }

  lemma SameGoto(s: State, i: nat)
    requires i < |s.pcs|
    ensures Goto(s, i, s.pcs[i]) == s
    ensures Onward(s, i, s.pcs[i], 4) == Exec(s, Alone(i, 4))
  {
  }

  lemma ExecNone(s: State, i: nat)
    ensures Exec(s, Alone(i, 0)) == s
  {
  }

  lemma SendStep(s: State, i: nat, client: string, group: string, location: string)
    requires !s.down && i < |s.calls| == |s.pcs|
    ensures Onward(s, i, SendVnet(client, group, location), 1) ==
            s.(pcs := s.pcs[i := AwaitVnet], requests := s.requests + [Request(i, client, group, Some(location))])
  {
    var pc := SendVnet(client, group, location);
    assert s.pcs[i := pc][i := AwaitVnet] == s.pcs[i := AwaitVnet];
    Unroll(Goto(s, i, pc), i, 1);
    ExecNone(Step(Goto(s, i, pc), Move(i, true)), i);
  }

  // A step that reads changes nothing but the caller's program point.
  lemma ReadStep(s: State, i: nat, pc: Pc, next: Pc, n: nat)
    requires !s.down && i < |s.calls| == |s.pcs| && s.globals.vnetClient.Some? && n > 0
    requires var g := s.globals;
             match pc
             case ReadVnetClient => next == ReadVnetGroup(g.vnetClient.value)
             case ReadVnetGroup(client) => next == ReadVnetLocation(client, g.resourceGroupName)
             case ReadVnetLocation(client, group) => next == SendVnet(client, group, g.location)
             case _ => false
    ensures Onward(s, i, pc, n) == Onward(s, i, next, n - 1)
  {
    assert s.pcs[i := pc][i := next] == s.pcs[i := next];
    assert Step(Goto(s, i, pc), Move(i, true)) == Goto(s, i, next);
    Unroll(Goto(s, i, pc), i, n);
  }

  /** A call by itself, with every answer a success, makes the vnet and then the subnet with its own
    * arguments, and returns. */
  lemma AloneSucceeds(calls: seq<Args>, i: nat)
    requires i < |calls|
    ensures var a := calls[i];
            var s := Exec(Init(calls), Alone(i, 19));
            && |s.pcs| == |calls| && !s.down && s.pcs[i] == Returned(true)
            && s.requests == [Request(i, a.subscription, a.resourceGroup, Some(a.location)),
                              Request(i, a.subscription, a.resourceGroup, None)]
  {
    hide Exec, Step, Alone;
    PrepareSteps(Init(calls), i);
    Then(Init(calls), i, 10, 9);
    AfterWritten(Exec(Init(calls), Prepare(i)), i);
  }

  lemma Then(s: State, i: nat, m: nat, n: nat)
    ensures Exec(s, Alone(i, m + n)) == Exec(Exec(s, Alone(i, m)), Alone(i, n))
  {
    AloneConcat(i, m, n);
    ExecConcat(s, Alone(i, m), Alone(i, n));
  }

  lemma AfterWritten(s: State, i: nat)
    requires !s.down && i < |s.calls| == |s.pcs| && s.pcs[i] == ReadVnetClient
    requires s.globals.vnetClient.Some? && s.globals.subnetClient.Some?
    ensures var g := s.globals;
            Exec(s, Alone(i, 9)) == s.(
              pcs := s.pcs[i := Returned(true)],
              requests := s.requests + [Request(i, g.vnetClient.value, g.resourceGroupName, Some(g.location))]
                          + [Request(i, g.subnetClient.value, g.resourceGroupName, None)])
  {
    hide Exec, Step, Alone;
    Then(s, i, 4, 5);
    ReadsBack(s, i);
    SubnetSteps(Exec(s, Alone(i, 4)), i);
    assert s.pcs[i := AwaitVnet][i := Returned(true)] == s.pcs[i := Returned(true)];
  }

  lemma AloneConcat(i: nat, m: nat, n: nat)
    ensures Alone(i, m) + Alone(i, n) == Alone(i, m + n)
  {
  }

  // From the answer to the vnet request to the return.
  lemma SubnetSteps(s: State, i: nat)
    requires !s.down && i < |s.calls| == |s.pcs| && s.pcs[i] == AwaitVnet && s.globals.subnetClient.Some?
    ensures var g := s.globals;
            Exec(s, Alone(i, 5)) == s.(
              pcs := s.pcs[i := Returned(true)],
              requests := s.requests + [Request(i, g.subnetClient.value, g.resourceGroupName, None)])
  {
    hide OnwardWith;
    SubnetEnds(s, i, s.requests + [Request(i, s.globals.subnetClient.value, s.globals.resourceGroupName, None)]);
    FiveSteps(s, i, s.globals, s.requests);
  }

  lemma FiveSteps(s: State, i: nat, g: Globals, sent: seq<Request>)
    requires !s.down && i < |s.calls| == |s.pcs| && s.globals == g && g.subnetClient.Some?
    ensures OnwardWith(s, i, AwaitVnet, sent, 5) ==
            OnwardWith(s, i, Returned(true),
                       sent + [Request(i, g.subnetClient.value, g.resourceGroupName, None)], 0)
  {
    hide OnwardWith;
    SubnetStep(s, i, AwaitVnet, ReadSubnetClient, sent, sent, 5);
    SubnetStep(s, i, ReadSubnetClient, ReadSubnetGroup(g.subnetClient.value), sent, sent, 4);
    SubnetStep(s, i, ReadSubnetGroup(g.subnetClient.value),
               SendSubnet(g.subnetClient.value, g.resourceGroupName), sent, sent, 3);
    SubnetStep(s, i, SendSubnet(g.subnetClient.value, g.resourceGroupName), AwaitSubnet, sent,
               sent + [Request(i, g.subnetClient.value, g.resourceGroupName, None)], 2);
    SubnetStep(s, i, AwaitSubnet, Returned(true),
               sent + [Request(i, g.subnetClient.value, g.resourceGroupName, None)],
               sent + [Request(i, g.subnetClient.value, g.resourceGroupName, None)], 1);
  }

  // The caller at a program point, with these requests sent, moving by itself.
  function OnwardWith(s: State, i: nat, pc: Pc, requests: seq<Request>, n: nat): State
    requires i < |s.pcs|
  {
    Exec(Goto(s, i, pc).(requests := requests), Alone(i, n))
  }

  lemma SubnetStep(s: State, i: nat, pc: Pc, next: Pc, sent: seq<Request>, more: seq<Request>, n: nat)
    requires !s.down && i < |s.calls| == |s.pcs| && s.globals.subnetClient.Some? && n > 0
    requires var g := s.globals;
             match pc
             case AwaitVnet => next == ReadSubnetClient && more == sent
             case ReadSubnetClient => next == ReadSubnetGroup(g.subnetClient.value) && more == sent
             case ReadSubnetGroup(client) => next == SendSubnet(client, g.resourceGroupName) && more == sent
             case SendSubnet(client, group) => next == AwaitSubnet && more == sent + [Request(i, client, group, None)]
             case AwaitSubnet => next == Returned(true) && more == sent
             case _ => false
    ensures OnwardWith(s, i, pc, sent, n) == OnwardWith(s, i, next, more, n - 1)
  {
    assert s.pcs[i := pc][i := next] == s.pcs[i := next];
    assert Step(Goto(s, i, pc).(requests := sent), Move(i, true)) == Goto(s, i, next).(requests := more);
    Unroll(Goto(s, i, pc).(requests := sent), i, n);
  }

  lemma SubnetEnds(s: State, i: nat, sent: seq<Request>)
    requires i < |s.pcs| && s.pcs[i] == AwaitVnet
    ensures OnwardWith(s, i, AwaitVnet, s.requests, 5) == Exec(s, Alone(i, 5))
    ensures OnwardWith(s, i, Returned(true), sent, 0) == s.(pcs := s.pcs[i := Returned(true)], requests := sent)
  {
    assert Goto(s, i, AwaitVnet).(requests := s.requests) == s;
    ExecNone(Goto(s, i, Returned(true)).(requests := sent), i);
    hide Exec;
  }

  // If two callers differ, one of them can have its variables overwritten before it reads them.
  lemma Overwritten(calls: seq<Args>, i: nat, j: nat)
    requires i < |calls| && j < |calls| && calls[i] != calls[j]
    ensures !Safe(calls)
  {
    hide Exec, Step, AllOwn, Alone;
    var read := Alone(i, 4);
    var s0 := Init(calls);
    PrepareSteps(s0, i);
    var s1 := Exec(s0, Prepare(i));
    PrepareSteps(s1, j);
    var s2 := Exec(s1, Prepare(j));
    ReadsBack(s2, i);
    ExecConcat(s0, Prepare(i), Prepare(j));
    ExecConcat(s0, Prepare(i) + Prepare(j), read);
    var s3 := Exec(s0, Prepare(i) + Prepare(j) + read);
    NotOwn(s3, i);
    assert !AllOwn(s3);
  }

  lemma NotOwn(s: State, i: nat)
    requires i < |s.calls| && |s.requests| > 0 && s.requests[0].caller == i && s.requests[0].location.Some?
    requires Args(s.requests[0].subscription, s.requests[0].resourceGroup, s.requests[0].location.value) != s.calls[i]
    ensures !AllOwn(s)
  {
    assert !OwnArgs(s.calls, s.requests[0]);
  }

  /** For any number of concurrent calls, every create request of every interleaving carries its own
    * caller's arguments exactly when all callers pass the same subscription, group and location. */
  lemma SafeExactlyWhenAgreed(calls: seq<Args>)
    ensures Safe(calls) <==> Agree(calls)
  {
    if Agree(calls) {
      forall schedule: seq<Event>
        ensures AllOwn(Exec(Init(calls), schedule))
      {
        ExecInv(Init(calls), schedule);
      }
    } else {
      var i, j :| 0 <= i < |calls| && 0 <= j < |calls| && calls[i] != calls[j];
      Overwritten(calls, i, j);
    }
  }

  // One entry of `Infras`: the fields that its run passes to NewVnet.
  datatype Infra = Infra(resourceGroup: string, location: string)

  function CallsOf(subscription: string, infras: seq<Infra>): seq<Args> {
    seq(|infras|, i requires 0 <= i < |infras| => Args(subscription, infras[i].resourceGroup, infras[i].location))
  }

  /** The built-in list gives every infrastructure the same group and location, so its concurrent
    * runs are safe, with any of them filtered out and for any subscription: each that returns has sent
    * its vnet and its subnet into that group, and the vnet for that location. */
  lemma BuiltInInfrasSafe(
    subscription: string, infras: seq<Infra>, rg: string, location: string, schedule: seq<Event>, i: nat)
    requires (forall k :: 0 <= k < |infras| ==> infras[k] == Infra(rg, location)) && i < |infras|
    ensures Safe(CallsOf(subscription, infras))
    ensures var s := Exec(Init(CallsOf(subscription, infras)), schedule);
            |s.pcs| == |infras| &&
            (s.pcs[i] == Returned(true) ==>
               Mine(s.requests, i) ==
               [Request(i, subscription, rg, Some(location)), Request(i, subscription, rg, None)])
  {
    SafeExactlyWhenAgreed(CallsOf(subscription, infras));
    ReturnedSent(CallsOf(subscription, infras), schedule, i);
    hide Exec;
  }
}
