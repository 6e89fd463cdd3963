/** A client that starts a server and waits for it is subscribed only after the start. Two runs
    with the same client, the same command and the same server process show that the order of
    the daemon's threads decides whether the client ever hears that the server is starting. */
module Races {
  import opened Sequences
  import opened Protocol
  import opened Subscriptions
  import opened System
  import opened Workers
  import Config
  import LogParser
  import Runs
  import Replies
  import Sessions

  /** Where a run is: what client 0 has received, how far its command and the log thread of the
      server have come, and what the event manager holds. */
  datatype Moment = Moment(
    stream: seq<DaemonResponse>, at: Option<nat>, logged: nat, mq: seq<ManagerCmd>, subs: Subs, sending: seq<Delivery>)

  function LogOf(id: UnitId): seq<ThreadAction> {
    [RaiseEvent(id, ServerStarting(id))]
  }

  function Waiting(id: UnitId): seq<HandlerAction> {
    [Launch(LogOf(id)), Subscribe(id, TServerStarting), Subscribe(id, TServerStarted)]
  }

  /** Client 0 is connected, listens, and has sent nothing but the command. */
  ghost predicate OneClient(keep: Keep, s: State, id: UnitId) {
    && Runs.Reachable(keep, s) && !s.daemon.exited && !s.daemon.crashed
    && 0 in s.clients.open && s.clients.dead == {} && 0 in s.clients.streams
    && s.clients.outbox == [] && Replies.SentBy(s, 0) == [Start(id, true)]
  }

  ghost predicate At(keep: Keep, s: State, id: UnitId, m: Moment) {
    && OneClient(keep, s, id)
    && s.clients.streams[0] == m.stream && s.daemon.dq == []
    && s.manager.mq == m.mq && s.manager.subs == m.subs && s.manager.sending == m.sending
    && |s.threads| == 1 && s.threads[0].actions == LogOf(id) && s.threads[0].pc == m.logged
    && HandlerAt(s.daemon.handler, id, m.at)
    && (m.logged == 1 ==> Raise(id, ServerStarting(id)) in s.manager.hist)
  }

  ghost predicate HandlerAt(handler: Option<Handler>, id: UnitId, at: Option<nat>) {
    match at
    case None => handler.None?
    case Some(pc) =>
      && handler.Some? && handler.value.client == 0 && handler.value.pc == pc
      && handler.value.actions == Waiting(id) && handler.value.response == Ok
  }

  // ---------- The steps of these runs ----------

  lemma Connected(keep: Keep, files: seq<Config.UnitFile>) returns (s: State)
    ensures Runs.Reachable(keep, s) && s == DoAccept(Init(files, []))
  {
    var s0 := Init(files, []);
    assert Runs.Reaches(keep, files, [], [], s0);
    Runs.ReachableStep(keep, s0, Accept);
    s := DoAccept(s0);
  }

  lemma Commanded(keep: Keep, files: seq<Config.UnitFile>, id: UnitId) returns (s: State)
    ensures OneClient(keep, s, id) && s.daemon.dq == [IncomingCmd(0, Start(id, true))]
    ensures s.clients.streams[0] == Replies.HANDSHAKE && s.manager == Manager([], [], map[], []) && s.threads == []
    ensures s.daemon.servers == Config.Servers(files) && s.daemon.handler.None?
  {
    var s1 := Connected(keep, files);
    var s2 := Apply(keep, s1, ClientSends(0, Start(id, true)));
    Runs.ReachableStep(keep, s1, ClientSends(0, Start(id, true)));
    AppendNothing([Request(0, Start(id, true))]);
    AppendNothing([Start(id, true)]);
    s := Apply(keep, s2, Forward(0));
    Runs.ReachableStep(keep, s2, Forward(0));
    AppendNothing([IncomingCmd(0, Start(id, true))]);
  }

  /** The log of a server that prints one line while it starts. */
  lemma LogIsPlausible(servers: map<UnitId, ServerUnitConfig>, id: UnitId)
    ensures Plausible(servers, Start(id, true), LogOf(id))
  {
    var line := "Loading libraries";
    LogParser.FirstMarkedIs(line, 0, 0);
    LogParser.OneLine(Some(line));
    assert LogParser.Script(id, [Some(line)]) == LogOf(id);
  }

  /** The command is taken and finds the server down. */
  lemma {:induction false} Taken(keep: Keep, files: seq<Config.UnitFile>, id: UnitId) returns (s: State)
    requires id in Config.Servers(files)
    ensures OneClient(keep, s, id) && s.daemon.dq == [] && HandlerAt(s.daemon.handler, id, Some(0))
    ensures s.clients.streams[0] == Replies.HANDSHAKE && s.manager == Manager([], [], map[], []) && s.threads == []
  {
    var s1 := Commanded(keep, files, id);
    var take := Take(Choice(_ => ServerStatus.Down, true, LogOf(id)));
    LogIsPlausible(s1.daemon.servers, id);
    Runs.ReachableStep(keep, s1, take);
    s := Apply(keep, s1, take);
  }

  /** The server is started. */
  lemma {:induction false} Launched(keep: Keep, files: seq<Config.UnitFile>, id: UnitId) returns (s: State)
    requires id in Config.Servers(files)
    ensures At(keep, s, id, Moment(Replies.HANDSHAKE, Some(1), 0, [], map[], []))
  {
    var s1 := Taken(keep, files, id);
    Runs.ReachableStep(keep, s1, Work);
    s := Apply(keep, s1, Work);
  }

  /** The log thread raises its event, which goes to the end of the manager's queue. */
  lemma Logs(keep: Keep, s: State, id: UnitId, m: Moment) returns (s': State)
    requires At(keep, s, id, m) && m.logged == 0
    ensures At(keep, s', id, m.(logged := 1, mq := m.mq + [Raise(id, ServerStarting(id))]))
  {
    s' := Apply(keep, s, RunThread(0));
    Runs.ReachableStep(keep, s, RunThread(0));
    assert s'.manager.hist[|s.manager.hist|] == Raise(id, ServerStarting(id));
  }

  lemma Manages(keep: Keep, s: State, id: UnitId, m: Moment, cmd: ManagerCmd, rest: seq<ManagerCmd>) returns (s': State)
    requires At(keep, s, id, m) && m.mq == [cmd] + rest && m.sending == []
    ensures At(keep, s', id, m.(mq := rest, subs := NextSubs(keep, m.subs, cmd), sending := Emitted(m.subs, cmd)))
  {
    s' := Apply(keep, s, Manage);
    Runs.ReachableStep(keep, s, Manage);
  }

  lemma SubscribeEffect(s: State, h: Handler)
    requires s.daemon.handler == Some(h) && h.pc < |h.actions| && h.actions[h.pc].Subscribe?
    ensures DoWork(s)
         == PushManager(WithHandler(s, Sending(s, h)), AddSubscription(h.actions[h.pc].unit, h.actions[h.pc].eventType, h.client))
  {
  }

  /** The command subscribes the client to one more event. */
  lemma {:induction false} SubscribesNext(keep: Keep, s: State, id: UnitId, m: Moment, pc: nat, eventType: ServerEventType)
    returns (s': State)
    requires At(keep, s, id, m) && m.at == Some(pc) && pc < 3 && Waiting(id)[pc] == Subscribe(id, eventType)
    ensures At(keep, s', id, m.(at := Some(pc + 1), mq := m.mq + [AddSubscription(id, eventType, 0)]))
  {
    SubscribeEffect(s, s.daemon.handler.value);
    s' := DoWork(s);
    Runs.ReachableStep(keep, s, Work);
  }

  lemma Responds(keep: Keep, s: State, id: UnitId, m: Moment) returns (s': State)
    requires At(keep, s, id, m) && m.at == Some(3)
    ensures At(keep, s', id, m.(at := None, stream := m.stream + [Ok]))
  {
    s' := Apply(keep, s, Work);
    Runs.ReachableStep(keep, s, Work);
  }

  /** A delivery to the client is emitted and sent. */
  lemma Delivers(keep: Keep, s: State, id: UnitId, m: Moment) returns (s': State)
    requires At(keep, s, id, m) && m.sending != [] && m.sending[0].client == 0 && m.at.None?
    ensures At(keep, s', id, m.(sending := m.sending[1..], stream := m.stream + [Notice(m.sending[0].event)]))
  {
    var s1 := Apply(keep, s, EmitNext);
    Runs.ReachableStep(keep, s, EmitNext);
    var e := SendEvent(0, m.sending[0].event);
    AppendNothing([e]);
    var take := Take(Choice(_ => ServerStatus.Down, true, []));
    Runs.ReachableStep(keep, s1, take);
    s' := Apply(keep, s1, take);
  }

  function Added(id: UnitId): seq<ManagerCmd> {
    [AddSubscription(id, TServerStarting, 0), AddSubscription(id, TServerStarted, 0)]
  }

  /** The subscriptions and the response. */
  lemma {:induction false} Subscribed(keep: Keep, s: State, id: UnitId, m: Moment) returns (s': State)
    requires At(keep, s, id, m) && m.at == Some(1) && m.mq == []
    ensures At(keep, s', id, m.(at := None, stream := m.stream + [Ok], mq := Added(id)))
  {
    var first, second := AddSubscription(id, TServerStarting, 0), AddSubscription(id, TServerStarted, 0);
    AppendNothing([first]);
    assert [first] + [second] == Added(id);
    s' := SubscribesNext(keep, s, id, m, 1, TServerStarting);
    s' := SubscribesNext(keep, s', id, m.(at := Some(2), mq := [first]), 2, TServerStarted);
    s' := Responds(keep, s', id, m.(at := Some(3), mq := Added(id)));
  }

  function BothSubs(id: UnitId): Subs {
    map[(id, TServerStarting) := [0], (id, TServerStarted) := [0]]
  }

  lemma SubsOfBoth(keep: Keep, id: UnitId)
    ensures var first := NextSubs(keep, map[], Added(id)[0]);
            first == map[(id, TServerStarting) := [0]] && NextSubs(keep, first, Added(id)[1]) == BothSubs(id)
  {
    AppendNothing([0]);
  }

  /** The manager takes the two subscriptions. */
  lemma Managed(keep: Keep, s: State, id: UnitId, m: Moment) returns (s': State)
    requires At(keep, s, id, m) && m.subs == map[] && m.sending == [] && m.mq == Added(id)
    ensures At(keep, s', id, m.(mq := [], subs := BothSubs(id)))
  {
    SubsOfBoth(keep, id);
    var s1 := Manages(keep, s, id, m, Added(id)[0], [Added(id)[1]]);
    s' := Manages(keep, s1, id, m.(mq := [Added(id)[1]], subs := NextSubs(keep, map[], Added(id)[0])), Added(id)[1], []);
  }

  /** The event is raised and dispatched to whoever is subscribed by now. */
  lemma Dispatched(keep: Keep, s: State, id: UnitId, m: Moment) returns (s': State)
    requires At(keep, s, id, m) && m.logged == 0 && m.mq == [] && m.sending == []
    ensures At(keep, s', id, m.(logged := 1, sending := Fanout(Listeners(m.subs, (id, TServerStarting)), ServerStarting(id))))
  {
    var raised := Raise(id, ServerStarting(id));
    var s1 := Logs(keep, s, id, m);
    AppendNothing([raised]);
    s' := Manages(keep, s1, id, m.(logged := 1, mq := [raised]), raised, []);
  }

  // ---------- The two runs ----------

  /** The command has been answered, and both subscriptions are in place. */
  function Settled(id: UnitId, stream: seq<DaemonResponse>): Moment {
    Moment(stream, None, 1, [], BothSubs(id), [])
  }

  /** At such a moment the daemon is idle, and the event has long been dispatched. */
  lemma SettledIsIdle(keep: Keep, s: State, id: UnitId, stream: seq<DaemonResponse>)
    requires At(keep, s, id, Settled(id, stream))
    ensures OneClient(keep, s, id) && Sessions.Idle(s) && s.clients.streams[0] == stream
    ensures Raise(id, ServerStarting(id)) in s.manager.hist
  {
  }

  /** The log thread comes first: the client waits for an event that was dispatched before it
      was subscribed. It listens, nothing is left to do, and it has its answer and no event. */
  lemma WaiterCanMissItsEvent(keep: Keep, files: seq<Config.UnitFile>, id: UnitId) returns (s: State)
    requires id in Config.Servers(files)
    ensures OneClient(keep, s, id) && Sessions.Idle(s) && Raise(id, ServerStarting(id)) in s.manager.hist
    ensures s.clients.streams[0] == [SetSender, DaemonVersion, Ok]
  {
    var m := Moment(Replies.HANDSHAKE, Some(1), 0, [], map[], []);
    s := Launched(keep, files, id);
    s := Dispatched(keep, s, id, m);
    s := Subscribed(keep, s, id, m.(logged := 1));
    s := Managed(keep, s, id, m.(logged := 1, at := None, stream := Replies.HANDSHAKE + [Ok], mq := Added(id)));
    SettledIsIdle(keep, s, id, Replies.HANDSHAKE + [Ok]);
  }

  /** The daemon thread comes first: the same client hears that its server is starting. */
  lemma WaiterCanHearItsEvent(keep: Keep, files: seq<Config.UnitFile>, id: UnitId) returns (s: State)
    requires id in Config.Servers(files)
    ensures OneClient(keep, s, id) && Sessions.Idle(s) && Raise(id, ServerStarting(id)) in s.manager.hist
    ensures s.clients.streams[0] == [SetSender, DaemonVersion, Ok, Notice(ServerStarting(id))]
  {
    var m, answered := Moment(Replies.HANDSHAKE, Some(1), 0, [], map[], []), Replies.HANDSHAKE + [Ok];
    s := Launched(keep, files, id);
    s := Subscribed(keep, s, id, m);
    s := Managed(keep, s, id, m.(at := None, stream := answered, mq := Added(id)));
    var settled := Settled(id, answered);
    s := Dispatched(keep, s, id, settled.(logged := 0));
    AppendNothing([Delivery(0, ServerStarting(id))]);
    assert Fanout([0], ServerStarting(id)) == [Delivery(0, ServerStarting(id))];
    s := Delivers(keep, s, id, settled.(sending := [Delivery(0, ServerStarting(id))]));
    SettledIsIdle(keep, s, id, answered + [Notice(ServerStarting(id))]);
  }
}
