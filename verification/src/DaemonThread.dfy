/** The daemon thread: the servers it owns and what it does for each command. */
module DaemonThread {
  import opened Sequences
  import opened Protocol
  import opened Subscriptions
  import opened Channels
  import opened Workers
  import opened Servers
  import Semver
  import Installer
  import Updater
  import Config
  import LogParser
  import Lifecycle
  import System

  /** A thread the daemon thread has spawned to install or update a server. */
  datatype Job = InstallJob(request: InstallRequest) | UpdateJob(requested: Option<Semver.Version>, config: ServerUnitConfig)

  /** The thread that a command launches to install or update, if any. */
  function JobsFor(configs: map<UnitId, ServerUnitConfig>, cmd: DaemonCmd): seq<Job> {
    match cmd
    case InstallServer(request) => if request.unitId in configs then [] else [InstallJob(request)]
    case UpdateServer(id, requested) => if id in configs then [UpdateJob(requested, configs[id])] else []
    case _ => []
  }

  /** What such a thread can do: see `Jobs.RunInstallation` and `Jobs.RunUpdate`. */
  ghost predicate Performs(job: Job, script: seq<ThreadAction>) {
    match job
    case InstallJob(request) => exists env :: script == Installer.InstallScript(request, env)
    case UpdateJob(requested, config) => exists env :: script == Updater.UpdateScript(requested, config, env)
  }

  /** In the message system the launched thread does exactly what the launched job can do. */
  lemma JobPerformsScript(configs: map<UnitId, ServerUnitConfig>, cmd: DaemonCmd, script: seq<ThreadAction>)
    requires |JobsFor(configs, cmd)| == 1
    ensures System.Plausible(configs, cmd, script) <==> Performs(JobsFor(configs, cmd)[0], script)
  {
  }

  /** What the outgoing queues and the record of actions held at some moment. */
  datatype Log = Log(trace: seq<System.HandlerAction>, manager: seq<ManagerCmd>, queue: seq<DaemonEvent>)

  function StopsIn(a: System.HandlerAction): seq<DaemonEvent> {
    if a.RequestStop? then [StopRequested] else []
  }

  function StatusAt(processes: seq<Lifecycle.Process>, views: map<UnitId, Lifecycle.Entry>): UnitId -> ServerStatus {
    (id: UnitId) =>
      if id in views && Lifecycle.Linked(processes, views[id]) then Lifecycle.StatusOf(processes, views[id]) else ServerStatus.Down
  }

  /** How the world stands when a command is handled; `script` is what the thread that may be
      launched is going to do. */
  function ChoiceFor(
    processes: seq<Lifecycle.Process>, views: map<UnitId, Lifecycle.Entry>, cmd: DaemonCmd, script: seq<ThreadAction>): System.Choice
  {
    var status := StatusAt(processes, views);
    System.Choice(status, cmd.Start? && status(cmd.serverId).Down?, script)
  }

  function Configs(views: map<UnitId, Lifecycle.Entry>): map<UnitId, ServerUnitConfig> {
    map id | id in views :: views[id].config
  }

  /** The step of the lifecycle that a command amounts to, if it touches a process. */
  function StepFor(cmd: DaemonCmd): Option<Lifecycle.Step> {
    match cmd
    case Start(id, _) => Some(Lifecycle.StartCmd(id))
    case Stop(id, _) => Some(Lifecycle.StopCmd(id))
    case SendMessage(id, message) => Some(Lifecycle.Write(id, "say " + message))
    case SendCommand(id, command) => Some(Lifecycle.Write(id, command))
    case _ => None
  }

  ghost function FleetAfter(s: Lifecycle.State, cmd: DaemonCmd): Lifecycle.State
    requires Lifecycle.AllLinked(s) && s.phase.Serving?
  {
    match StepFor(cmd)
    case Some(step) => Lifecycle.Apply(s, step)
    case None => s
  }

  predicate IsDown(processes: seq<Lifecycle.Process>, views: map<UnitId, Lifecycle.Entry>, id: UnitId) {
    StatusAt(processes, views)(id).Down?
  }

  /** A known server is started if it is down. */
  function Started(processes: seq<Lifecycle.Process>, views: map<UnitId, Lifecycle.Entry>, id: UnitId, down: bool)
    : (seq<Lifecycle.Process>, map<UnitId, Lifecycle.Entry>)
  {
    if id in views && down
    then (processes + [Lifecycle.Fresh(views[id].config.unit.id)], views[id := Lifecycle.Spawned(processes, views[id])])
    else (processes, views)
  }

  function Launching(down: bool, script: seq<ThreadAction>): seq<System.HandlerAction> {
    if down then [System.Launch(script)] else []
  }

  predicate IsRunning(processes: seq<Lifecycle.Process>, views: map<UnitId, Lifecycle.Entry>, id: UnitId) {
    StatusAt(processes, views)(id).Running?
  }

  /** A known server that tracks a process is told to stop, if it is running. */
  function Stopped(processes: seq<Lifecycle.Process>, views: map<UnitId, Lifecycle.Entry>, id: UnitId, running: bool)
    : (seq<Lifecycle.Process>, map<UnitId, Lifecycle.Entry>)
    requires AllExist(processes, views)
  {
    if id in views && running then
      var e := views[id];
      (if e.process.Some? then Lifecycle.WriteTo(processes, e.input, Lifecycle.StopLine()) else processes, views[id := e.(process := None)])
    else (processes, views)
  }

  /** Every pid that is held exists. */
  ghost predicate AllExist(processes: seq<Lifecycle.Process>, views: map<UnitId, Lifecycle.Entry>) {
    forall id :: id in views ==> Lifecycle.Linked(processes, views[id])
  }

  lemma StillExist(
    processes: seq<Lifecycle.Process>, processes': seq<Lifecycle.Process>, views: map<UnitId, Lifecycle.Entry>, id: UnitId, e: Lifecycle.Entry)
    requires AllExist(processes, views) && |processes| <= |processes'| && Lifecycle.Linked(processes', e)
    ensures AllExist(processes', views[id := e])
  {
  }

  lemma SubscribesMore(done: seq<System.HandlerAction>, ids: seq<UnitId>, eventType: ServerEventType, i: nat)
    requires i < |ids|
    ensures done + System.Subscribes(ids[..i], eventType) + [System.Subscribe(ids[i], eventType)]
         == done + System.Subscribes(ids[..i + 1], eventType)
  {
  }

  lemma SubscribesTwo(done: seq<System.HandlerAction>, id: UnitId, first: ServerEventType, second: ServerEventType)
    ensures done + System.Subscribes([id], first) + System.Subscribes([id], second)
         == done + [System.Subscribe(id, first), System.Subscribe(id, second)]
  {
  }

  /** One more action adds its sends. */
  lemma SendsMore(log: Log, client: ClientId, done: seq<System.HandlerAction>, a: System.HandlerAction)
    ensures log.trace + (done + [a]) == log.trace + done + [a]
    ensures log.manager + System.PushedBy(client, done + [a])
         == log.manager + System.PushedBy(client, done) + System.PushedAction(client)(a)
    ensures log.queue + Collect(done + [a], StopsIn) == log.queue + Collect(done, StopsIn) + StopsIn(a)
    ensures log.manager + System.PushedBy(client, done) + [] == log.manager + System.PushedBy(client, done)
    ensures log.queue + Collect(done, StopsIn) + [] == log.queue + Collect(done, StopsIn)
  {
    CollectSnoc(done, a, System.PushedAction(client));
    CollectSnoc(done, a, StopsIn);
    Associative(log.trace, done, [a]);
    Associative(log.manager, System.PushedBy(client, done), System.PushedAction(client)(a));
    Associative(log.queue, Collect(done, StopsIn), StopsIn(a));
  }

  /** What the daemon thread sends through: the queues of the event manager and of itself,
      and a record of its actions. */
  class Outbox {
    const eventManager: Channel<ManagerCmd>
    const queueSender: Channel<DaemonEvent>
    ghost var trace: seq<System.HandlerAction>

    constructor (eventManager: Channel<ManagerCmd>, queueSender: Channel<DaemonEvent>)
      ensures this.eventManager == eventManager && this.queueSender == queueSender && trace == []
    {
      this.eventManager, this.queueSender, trace := eventManager, queueSender, [];
    }

    ghost predicate Apart() {
      (eventManager as object) != queueSender
    }

    /** What was sent and done up to now. */
    ghost function Now(): (log: Log)
      reads `trace, eventManager, queueSender
      ensures forall client :: Did(log, client, [])
    {
      Log(trace, eventManager.items, queueSender.items)
    }

    /** Since `log`, exactly `actions` were done for `client`. */
    ghost predicate Did(log: Log, client: ClientId, actions: seq<System.HandlerAction>)
      reads `trace, eventManager, queueSender
    {
      && trace == log.trace + actions
      && eventManager.items == log.manager + System.PushedBy(client, actions)
      && queueSender.items == log.queue + Collect(actions, StopsIn)
    }

    ghost method Note(action: System.HandlerAction)
      modifies `trace
      ensures trace == old(trace) + [action]
    {
      trace := trace + [action];
    }

    method SendSubscription(
      unit: UnitId, eventType: ServerEventType, client: ClientId, ghost log: Log, ghost done: seq<System.HandlerAction>)
      requires Apart() && Did(log, client, done)
      modifies `trace, eventManager
      ensures Did(log, client, done + [System.Subscribe(unit, eventType)])
    {
      eventManager.Send(AddSubscription(unit, eventType, client));
      Note(System.Subscribe(unit, eventType));
      SendsMore(log, client, done, System.Subscribe(unit, eventType));
    }

    /** Without ids nothing is subscribed. */
    method SubscribeEvent(
      eventType: ServerEventType, serverIds: Option<seq<UnitId>>, client: ClientId,
      ghost log: Log, ghost done: seq<System.HandlerAction>)
      requires Apart() && Did(log, client, done)
      modifies `trace, eventManager
      ensures Did(log, client, done + if serverIds.Some? then System.Subscribes(serverIds.value, eventType) else [])
    {
      AppendNothing(done);
      if serverIds.Some? {
        var ids := serverIds.value;
        for i := 0 to |ids|
          invariant Did(log, client, done + System.Subscribes(ids[..i], eventType))
        {
          SendSubscription(ids[i], eventType, client, log, done + System.Subscribes(ids[..i], eventType));
          SubscribesMore(done, ids, eventType, i);
        }
        assert ids[..|ids|] == ids;
      }
    }

    /** A thread is launched. */
    ghost method NoteLaunch(script: seq<ThreadAction>, client: ClientId, log: Log, done: seq<System.HandlerAction>)
      requires Did(log, client, done)
      modifies `trace
      ensures Did(log, client, done + [System.Launch(script)])
    {
      Note(System.Launch(script));
      SendsMore(log, client, done, System.Launch(script));
    }
  
    /** A client is told that something happened, over the event manager. */
    method Announce(unit: UnitId, event: ServerEvent, client: ClientId, ghost log: Log, ghost done: seq<System.HandlerAction>)
      requires Apart() && Did(log, client, done)
      modifies `trace, eventManager
      ensures Did(log, client, done + [System.Announce(unit, event)])
    {
      var handler := new EventHandler(eventManager);
      handler.RaiseEvent(unit, event);
      Note(System.Announce(unit, event));
      SendsMore(log, client, done, System.Announce(unit, event));
    }

    method RequestStop(client: ClientId, ghost log: Log, ghost done: seq<System.HandlerAction>)
      requires Apart() && Did(log, client, done)
      modifies `trace, queueSender
      ensures Did(log, client, done + [System.RequestStop])
    {
      queueSender.Send(StopRequested);
      Note(System.RequestStop);
      SendsMore(log, client, done, System.RequestStop);
    }

    /** A client that waits is subscribed to two kinds of events of the server. */
    method SubscribeIf(
      wait: bool, id: UnitId, first: ServerEventType, second: ServerEventType, client: ClientId,
      ghost log: Log, ghost done: seq<System.HandlerAction>)
      requires Apart() && Did(log, client, done)
      modifies `trace, eventManager
      ensures Did(log, client, done + if wait then [System.Subscribe(id, first), System.Subscribe(id, second)] else [])
    {
      if wait {
        SubscribeEvent(first, Some([id]), client, log, done);
        SubscribeEvent(second, Some([id]), client, log, done + System.Subscribes([id], first));
        SubscribesTwo(done, id, first, second);
      } else {
        AppendNothing(done);
      }
    }

    /** A client is subscribed to three kinds of events of a unit. */
    method SubscribeThree(
      id: UnitId, first: ServerEventType, second: ServerEventType, third: ServerEventType, client: ClientId, ghost log: Log)
      requires Apart() && Did(log, client, [])
      modifies `trace, eventManager
      ensures Did(log, client, [System.Subscribe(id, first), System.Subscribe(id, second), System.Subscribe(id, third)])
    {
      SubscribeIf(true, id, first, second, client, log, []);
      ghost var two := [System.Subscribe(id, first), System.Subscribe(id, second)];
      AppendNothing(two);
      SubscribeEvent(third, Some([id]), client, log, two);
      assert two + System.Subscribes([id], third)
          == [System.Subscribe(id, first), System.Subscribe(id, second), System.Subscribe(id, third)];
    }
  }

  lemma StopUnitIs(s: Lifecycle.State, id: UnitId)
    requires id in s.servers && Lifecycle.Linked(s.processes, s.servers[id])
    ensures var e, s' := s.servers[id], Lifecycle.DoStop(s, id);
            && s'.servers == s.servers[id := e.(process := None)]
            && s'.processes == (if e.process.Some? then Lifecycle.WriteTo(s.processes, e.input, Lifecycle.StopLine()) else s.processes)
            && s' == s.(processes := s'.processes, servers := s'.servers)
  {
    if s.servers[id].process.None? {
      assert s.servers == s.servers[id := s.servers[id].(process := None)];
    }
  }

  /** A server is recorded as visited. */
  function Met(s: Lifecycle.State, id: UnitId): Lifecycle.State
    requires id in s.servers && Lifecycle.Linked(s.processes, s.servers[id])
  {
    s.(todo := s.todo - {id}, found := s.found[id := Lifecycle.FoundAt(s.processes, s.servers[id])])
  }

  lemma VisitIs(s: Lifecycle.State, id: UnitId, status: ServerStatus)
    requires Lifecycle.AllLinked(s) && Lifecycle.Enabled(s, Lifecycle.Visit(id)) && status == StatusAt(s.processes, s.servers)(id)
    ensures Lifecycle.Apply(s, Lifecycle.Visit(id))
         == match status
            case Starting => Met(s, id).(phase := Lifecycle.AwaitingStart(id))
            case Running => Lifecycle.StopAndWait(Met(s, id), id)
            case _ => Met(s, id)
  {
  }

  /** Coming to a server, as part of a run, unless it is to be stopped at once. */
  lemma VisitOn(from: Lifecycle.State, steps: seq<Lifecycle.Step>, s: Lifecycle.State, id: UnitId, status: ServerStatus)
    requires Lifecycle.AllLinked(s) && Lifecycle.RunsTo(from, steps, s) && Lifecycle.Enabled(s, Lifecycle.Visit(id))
    requires status == StatusAt(s.processes, s.servers)(id)
    ensures match status
            case Starting =>
              var waiting := Met(s, id).(phase := Lifecycle.AwaitingStart(id));
              Lifecycle.AllLinked(waiting) && Lifecycle.RunsTo(from, steps + [Lifecycle.Visit(id)], waiting)
            case Running => Lifecycle.Apply(s, Lifecycle.Visit(id)) == Lifecycle.StopAndWait(Met(s, id), id)
            case _ => Lifecycle.AllLinked(Met(s, id)) && Lifecycle.RunsTo(from, steps + [Lifecycle.Visit(id)], Met(s, id))
  {
    VisitIs(s, id, status);
    match status
    case Starting => Lifecycle.RunsOn(from, steps, s, Lifecycle.Visit(id), Met(s, id).(phase := Lifecycle.AwaitingStart(id)));
    case Running =>
    case _ => Lifecycle.RunsOn(from, steps, s, Lifecycle.Visit(id), Met(s, id));
  }

  function Worlds(happenings: seq<Lifecycle.Happening>): (steps: seq<Lifecycle.Step>)
    ensures |steps| == |happenings| && forall i :: 0 <= i < |steps| ==> steps[i] == Lifecycle.World(happenings[i])
  {
    seq(|happenings|, i requires 0 <= i < |happenings| => Lifecycle.World(happenings[i]))
  }

  /** While things happen, the daemon does nothing. */
  lemma {:induction false} WorldGoesOn(
    from: Lifecycle.State, steps: seq<Lifecycle.Step>, s: Lifecycle.State, happenings: seq<Lifecycle.Happening>)
    requires Lifecycle.RunsTo(from, steps, s) && Lifecycle.AllLinked(s)
    ensures Lifecycle.RunsTo(from, steps + Worlds(happenings), s.(processes := After(s.processes, happenings)))
    decreases |happenings|
  {
    if happenings == [] {
      assert steps + Worlds(happenings) == steps;
    } else {
      var h := happenings[0];
      var s' := s.(processes := Lifecycle.Happened(s.processes, h));
      Lifecycle.RunsOn(from, steps, s, Lifecycle.World(h), s');
      WorldGoesOn(from, steps + [Lifecycle.World(h)], s', happenings[1..]);
      assert steps + Worlds(happenings) == steps + [Lifecycle.World(h)] + Worlds(happenings[1..]);
    }
  }

  /** Waiting for a child while things happen, as a run. */
  lemma ReapIs(
    from: Lifecycle.State, steps: seq<Lifecycle.Step>, s: Lifecycle.State, pid: Lifecycle.Pid, done: bool,
    coming: seq<Lifecycle.Happening>, after: seq<Lifecycle.Process>, left: seq<Lifecycle.Happening>)
    returns (steps': seq<Lifecycle.Step>, s': Lifecycle.State)
    requires Lifecycle.RunsTo(from, steps, s) && Lifecycle.AllLinked(s) && s.phase == Lifecycle.Reaping(pid)
    requires exists n: nat :: Waited(pid, done, s.processes, coming, after, left, n)
    ensures Lifecycle.RunsTo(from, steps', s') && Lifecycle.AllLinked(s')
    ensures s'.processes == after && s'.servers == s.servers
    ensures done ==> s'.phase.Visiting? && s'.todo == s.todo
    ensures !done ==> left == []
  {
    var n: nat :| Waited(pid, done, s.processes, coming, after, left, n);
    WorldGoesOn(from, steps, s, coming[..n]);
    steps', s' := steps + Worlds(coming[..n]), s.(processes := After(s.processes, coming[..n]));
    if done {
      var reaped := Lifecycle.DoReap(s', pid);
      Lifecycle.RunsOn(from, steps', s', Lifecycle.Reap, reaped);
      steps', s' := steps' + [Lifecycle.Reap], reaped;
    }
  }

  function Boots(n: nat): (steps: seq<Lifecycle.Step>)
    ensures |steps| == n && forall i :: 0 <= i < n ==> steps[i] == Lifecycle.BootNext
  {
    seq(n, i => Lifecycle.BootNext)
  }

  /** `n` automatic starts lead from one state to the other. */
  ghost predicate BootsTo(s: Lifecycle.State, n: nat, s': Lifecycle.State) {
    Lifecycle.Possible(s, Boots(n)) && Lifecycle.Exec(s, Boots(n)) == s'
  }

  lemma BootStep(s: Lifecycle.State, n: nat, now: Lifecycle.State, next: Lifecycle.State)
    requires BootsTo(s, n, now) && Lifecycle.AllLinked(now) && Lifecycle.Enabled(now, Lifecycle.BootNext)
    requires next == Lifecycle.Apply(now, Lifecycle.BootNext) && Lifecycle.AllLinked(next)
    ensures BootsTo(s, n + 1, next)
  {
    Lifecycle.RunSnoc(s, Boots(n), Lifecycle.BootNext);
    assert Boots(n + 1) == Boots(n) + [Lifecycle.BootNext];
  }

  class Daemon {
    var servers: map<UnitId, DaemonServer>
    const os: Os
    const outbox: Outbox
    var jobs: seq<Job>

    ghost var repr: set<object>
    ghost var views: map<UnitId, Lifecycle.Entry>

    /** Every server is stored under its own id, so that no two of them share anything. */
    ghost predicate Owned()
      reads `servers, `repr
    {
      && outbox.Apart() && this !in repr && os !in repr
      && outbox !in repr && outbox.eventManager !in repr && outbox.queueSender !in repr
      && forall id :: id in servers ==>
           && servers[id] in repr && servers[id].server in repr
           && servers[id].serverId == id && servers[id].server.unitConfig.id == id
    }

    /** `views` shows the servers as they are. */
    ghost predicate Shown()
      reads `servers, `repr, `views, repr
    {
      && Owned() && views.Keys == servers.Keys
      && forall id :: id in servers ==> servers[id].View() == views[id]
    }

    ghost predicate Valid()
      reads `servers, `repr, `views, repr, os
    {
      Shown() && AllExist(os.processes, views)
    }

    /** The processes and servers as a state of the lifecycle. */
    ghost function Fleet(phase: Lifecycle.Phase): Lifecycle.State
      reads `views, os
    {
      Lifecycle.State(os.processes, views, phase, {}, map[], [])
    }

    /** What is configured is what the server objects hold. */
    lemma ConfigsShown()
      requires Valid()
      ensures Configs(views) == map id | id in servers :: servers[id].Config()
    {
      forall id | id in servers ensures views[id].config == servers[id].Config() {
        assert servers[id].View() == views[id];
      }
    }

    // ---------- Loading ----------

    /** Every unit found becomes a server without a process. */
    constructor FromConfig(
      files: seq<Config.UnitFile>, os: Os, outbox: Outbox)
      requires outbox.Apart() && os.processes == []
      ensures this.os == os && this.outbox == outbox
      ensures Valid() && fresh(repr) && jobs == []
      ensures forall autostart :: Fleet(Lifecycle.Booting(autostart)) == Lifecycle.Init(files, autostart)
    {
      this.os, this.outbox := os, outbox;
      servers, jobs, repr, views := map[], [], {}, map[];
      new;
      var configs := Config.CreateServers(files);
      Config.ServersAreCoherent(files);
      PutAll(configs);
    }

    method PutAll(configs: map<UnitId, ServerUnitConfig>)
      requires Valid() && servers == map[] && forall id :: id in configs ==> configs[id].unit.id == id
      modifies `servers, `repr, `views
      ensures Valid() && fresh(repr - old(repr))
      ensures views == map id | id in configs :: Lifecycle.NewEntry(configs[id])
    {
      var pending := configs.Keys;
      while pending != {}
        invariant pending <= configs.Keys
        invariant Valid() && fresh(repr - old(repr))
        invariant views == map id | id in configs.Keys - pending :: Lifecycle.NewEntry(configs[id])
      {
        var id :| id in pending;
        Put(id, configs[id]);
        pending := pending - {id};
      }
    }

    /** A new server without a process, in place of the one with its id. */
    method Put(id: UnitId, config: ServerUnitConfig)
      requires Valid() && config.unit.id == id
      modifies `servers, `repr, `views
      ensures Valid() && fresh(repr - old(repr))
      ensures views == old(views)[id := Lifecycle.Entry(id, config, None, None, None)]
    {
      var paper := new PaperServer.Create(config.unit, config.server);
      var server := new DaemonServer(paper, id);
      servers := servers[id := server];
      repr := repr + {paper, server};
      views := views[id := server.View()];
    }

    /** A unit of a known type is stored; others are ignored. */
    method AddServerUnit(config: ServerUnitConfig)
      requires Valid()
      modifies `servers, `repr, `views
      ensures Valid() && fresh(repr - old(repr))
      ensures Fleet(Lifecycle.Serving) == Lifecycle.DoAdd(old(Fleet(Lifecycle.Serving)), config)
    {
      if config.server.typeName == "paper" {
        Put(config.unit.id, config);
      }
    }

    // ---------- Servers ----------

    /** `views` shows all servers but one as they are. */
    ghost predicate OthersShown(id: UnitId)
      reads `servers, `repr, `views, repr
    {
      && Owned() && views.Keys == servers.Keys && id in servers
      && forall other :: other in servers && other != id ==> servers[other].View() == views[other]
    }

    /** If nothing but one server has changed, all others show what they showed. */
    twostate lemma OthersUnchanged(id: UnitId)
      requires old(Shown()) && id in servers
      requires unchanged(this) && unchanged(repr - {servers[id], servers[id].server})
      ensures OthersShown(id)
    {
      forall other | other in servers && other != id ensures servers[other].View() == views[other] {
        assert old(servers[other].View()) == views[other];
      }
    }

    /** Brings `views` up to date with the one server that changed. */
    ghost method Show(id: UnitId, e: Lifecycle.Entry)
      requires OthersShown(id) && servers[id].View() == e && AllExist(os.processes, views[id := e])
      modifies `views
      ensures Valid() && views == old(views)[id := e]
    {
      views := views[id := e];
    }

    method StartUnit(id: UnitId)
      requires Valid() && id in servers
      modifies `views, os`processes, repr
      ensures Valid() && os.processes == old(os.processes) + [Lifecycle.Fresh(old(views)[id].config.unit.id)]
      ensures views == old(views)[id := Lifecycle.Spawned(old(os.processes), old(views)[id])]
    {
      ghost var e := Lifecycle.Spawned(os.processes, views[id]);
      servers[id].Start(os);
      OthersUnchanged(id);
      StillExist(old(os.processes), os.processes, views, id, e);
      Show(id, e);
    }

    method StopUnit(id: UnitId) returns (child: Option<Lifecycle.Pid>)
      requires Valid() && id in servers
      modifies `views, os`processes, repr
      ensures Valid() && child == old(views)[id].process
      ensures views == old(views)[id := old(views)[id].(process := None)]
      ensures os.processes
           == if child.Some? then Lifecycle.WriteTo(old(os.processes), old(views)[id].input, Lifecycle.StopLine()) else old(os.processes)
    {
      ghost var e := views[id].(process := None);
      child := servers[id].Stop(os);
      OthersUnchanged(id);
      StillExist(old(os.processes), os.processes, views, id, e);
      Show(id, e);
    }

    // ---------- Commands ----------

    /** The sends and the response are those of the command, as the servers were before it. */
    ghost predicate Answered(
      log: Log, client: ClientId, cmd: DaemonCmd, script: seq<ThreadAction>, response: DaemonResponse,
      processes: seq<Lifecycle.Process>, before: map<UnitId, Lifecycle.Entry>)
      reads outbox, outbox.eventManager, outbox.queueSender
    {
      var choice := ChoiceFor(processes, before, cmd, script);
      && outbox.Did(log, client, System.Program(Configs(before), cmd, choice))
      && response == System.Answer(Configs(before), cmd, choice)
    }

    method List() returns (response: DaemonResponse)
      requires Valid()
      ensures response == System.Answer(Configs(views), DaemonCmd.List, ChoiceFor(os.processes, views, DaemonCmd.List, []))
      ensures ListsAll(os.processes, views, response)
    {
      ghost var configs, status := Configs(views), StatusAt(os.processes, views);
      var listed: set<ServerInfo> := {};
      var pending := servers.Keys;
      while pending != {}
        invariant pending <= servers.Keys
        invariant listed == set id | id in configs.Keys - pending :: System.Info(id, configs[id], status(id))
      {
        var id :| id in pending;
        var server := servers[id];
        var now := server.Status(os);
        var info := ServerInfo(id, server.server.config.path, Paper, server.server.config.version, now);
        assert info == System.Info(id, configs[id], status(id));
        listed := listed + {info};
        pending := pending - {id};
      }
      response := Listing(listed);
      ListingDescribes(os.processes, views, []);
    }

    /** Subscribing touches no server. */
    method ListenIf(
      wait: bool, id: UnitId, first: ServerEventType, second: ServerEventType, client: ClientId,
      ghost log: Log, ghost done: seq<System.HandlerAction>)
      requires Valid() && outbox.Did(log, client, done)
      modifies outbox, outbox.eventManager
      ensures Valid()
      ensures outbox.Did(log, client, done + if wait then [System.Subscribe(id, first), System.Subscribe(id, second)] else [])
    {
      outbox.SubscribeIf(wait, id, first, second, client, log, done);
    }

    method ListenThree(
      id: UnitId, first: ServerEventType, second: ServerEventType, third: ServerEventType, client: ClientId, ghost log: Log)
      requires Valid() && outbox.Did(log, client, [])
      modifies outbox, outbox.eventManager
      ensures Valid()
      ensures outbox.Did(log, client, [System.Subscribe(id, first), System.Subscribe(id, second), System.Subscribe(id, third)])
    {
      outbox.SubscribeThree(id, first, second, third, client, log);
    }

    method ListenAll(eventType: ServerEventType, serverIds: Option<seq<UnitId>>, client: ClientId, ghost log: Log)
      requires Valid() && outbox.Did(log, client, [])
      modifies outbox, outbox.eventManager
      ensures Valid()
      ensures outbox.Did(log, client, if serverIds.Some? then System.Subscribes(serverIds.value, eventType) else [])
    {
      outbox.SubscribeEvent(eventType, serverIds, client, log, []);
      AppendNothing(if serverIds.Some? then System.Subscribes(serverIds.value, eventType) else []);
    }

    method AnnounceEvent(id: UnitId, event: ServerEvent, client: ClientId, ghost log: Log, ghost done: seq<System.HandlerAction>)
      requires Valid() && outbox.Did(log, client, done)
      modifies outbox, outbox.eventManager
      ensures Valid() && outbox.Did(log, client, done + [System.Announce(id, event)])
    {
      outbox.Announce(id, event, client, log, done);
    }

    method UnitStatus(id: UnitId) returns (status: ServerStatus)
      requires Valid() && id in servers
      ensures status == StatusAt(os.processes, views)(id)
    {
      status := servers[id].Status(os);
    }

    method StartIf(down: bool, id: UnitId, client: ClientId, ghost script: seq<ThreadAction>, ghost log: Log)
      requires Valid() && id in servers && outbox.Did(log, client, [])
      modifies `views, outbox, os`processes, repr
      ensures Valid() && (os.processes, views) == Started(old(os.processes), old(views), id, down)
      ensures outbox.Did(log, client, Launching(down, script))
    {
      if down {
        StartUnit(id);
        outbox.NoteLaunch(script, client, log, []);
        AppendNothing([System.Launch(script)]);
      }
    }

    method HandleStart(id: UnitId, wait: bool, client: ClientId, ghost script: seq<ThreadAction>, ghost log: Log)
      returns (response: DaemonResponse, ghost down: bool)
      requires Valid() && outbox.Did(log, client, [])
      modifies `views, outbox, outbox.eventManager, os`processes, repr
      ensures Valid() && (os.processes, views) == Started(old(os.processes), old(views), id, down)
      ensures outbox.Did(log, client, System.StartActions(id in old(views), id, wait, down, script))
      ensures response == System.StartAnswer(id in old(views), id, wait)
      ensures id in old(views) ==> down == IsDown(old(os.processes), old(views), id)
    {
      down := false;
      if id in servers {
        var status := UnitStatus(id);
        down := status.Down?;
        StartIf(status.Down?, id, client, script, log);
        ListenIf(wait, id, TServerStarting, TServerStarted, client, log, Launching(status.Down?, script));
        response := if wait then Ok else StartSent(id);
      } else {
        response := ServerNotFound(id);
      }
    }
  
    method StopIf(running: bool, id: UnitId)
      requires Valid() && id in servers
      modifies `views, os`processes, repr
      ensures Valid() && (os.processes, views) == Stopped(old(os.processes), old(views), id, running)
    {
      if running {
        var _ := StopUnit(id);
      }
    }

    method HandleStop(id: UnitId, wait: bool, client: ClientId, ghost log: Log)
      returns (response: DaemonResponse, ghost running: bool)
      requires Valid() && outbox.Did(log, client, [])
      modifies `views, outbox, outbox.eventManager, os`processes, repr
      ensures Valid() && (os.processes, views) == Stopped(old(os.processes), old(views), id, running)
      ensures outbox.Did(log, client, System.StopActions(id in old(views), id, wait)) && response == System.StopAnswer(id in old(views), id, wait)
      ensures id in old(views) ==> running == IsRunning(old(os.processes), old(views), id)
    {
      running := false;
      if id in servers {
        var status := UnitStatus(id);
        running := status.Running?;
        StopIf(status.Running?, id);
        ghost var actions := if wait then [System.Subscribe(id, TServerStopping), System.Subscribe(id, TServerStopped)] else [];
        AppendNothing(actions);
        ListenIf(wait, id, TServerStopping, TServerStopped, client, log, []);
        response := if wait then Ok else StopSent(id);
      } else {
        response := ServerNotFound(id);
      }
    }

    /** A message for the players on a server. */
    method HandleMessage(id: UnitId, message: string) returns (response: DaemonResponse)
      requires Valid()
      modifies os`processes
      ensures Valid()
      ensures os.processes
           == if id in views then Lifecycle.WriteTo(old(os.processes), views[id].input, "say " + message) else old(os.processes)
      ensures response == if id in views then Ok else ServerNotFound(id)
    {
      if id in servers {
        servers[id].Say(os, message);
        response := Ok;
      } else {
        response := ServerNotFound(id);
      }
    }

    /** A command line for a server's process. */
    method HandleLine(id: UnitId, line: string) returns (response: DaemonResponse)
      requires Valid()
      modifies os`processes
      ensures Valid()
      ensures os.processes == if id in views then Lifecycle.WriteTo(old(os.processes), views[id].input, line) else old(os.processes)
      ensures response == if id in views then Ok else ServerNotFound(id)
    {
      if id in servers {
        servers[id].SendCommand(os, line);
        response := Ok;
      } else {
        response := ServerNotFound(id);
      }
    }

    /** The unit must not exist; otherwise the installation fails at once. */
    method InstallServer(
      request: InstallRequest, client: ClientId, ghost script: seq<ThreadAction>, ghost log: Log, ghost done: seq<System.HandlerAction>)
      requires Valid() && outbox.Did(log, client, done)
      modifies `jobs, outbox, outbox.eventManager
      ensures Valid()
      ensures jobs == old(jobs) + if request.unitId in views then [] else [InstallJob(request)]
      ensures outbox.Did(log, client, done + [System.InstallAction(request.unitId in views, request.unitId, script)])
    {
      var id := request.unitId;
      AppendNothing(jobs);
      if id in servers {
        AnnounceEvent(id, InstallationFailed(id, System.ExistsText()), client, log, done);
      } else {
        jobs := jobs + [InstallJob(request)];
        outbox.NoteLaunch(script, client, log, done);
      }
    }

    method HandleInstall(request: InstallRequest, client: ClientId, ghost script: seq<ThreadAction>, ghost log: Log)
      returns (response: DaemonResponse)
      requires Valid() && outbox.Did(log, client, [])
      modifies `jobs, outbox, outbox.eventManager
      ensures Valid() && response == Ok
      ensures jobs == old(jobs) + if request.unitId in views then [] else [InstallJob(request)]
      ensures outbox.Did(log, client, System.InstallActions(request.unitId in views, request.unitId, script))
    {
      var id := request.unitId;
      ListenThree(id, TInstallationComplete, TInstallationFailed, TActionProgress, client, log);
      InstallServer(request, client, script, log,
        [System.Subscribe(id, TInstallationComplete), System.Subscribe(id, TInstallationFailed), System.Subscribe(id, TActionProgress)]);
      response := Ok;
    }

    method UpdateServer(
      id: UnitId, requested: Option<Semver.Version>, client: ClientId, ghost script: seq<ThreadAction>, ghost log: Log,
      ghost done: seq<System.HandlerAction>)
      requires Valid() && id in servers && outbox.Did(log, client, done)
      modifies `jobs, outbox
      ensures Valid() && jobs == old(jobs) + [UpdateJob(requested, views[id].config)]
      ensures outbox.Did(log, client, done + [System.Launch(script)])
    {
      jobs := jobs + [UpdateJob(requested, servers[id].Config())];
      outbox.NoteLaunch(script, client, log, done);
    }

    method HandleUpdate(id: UnitId, requested: Option<Semver.Version>, client: ClientId, ghost script: seq<ThreadAction>, ghost log: Log)
      returns (response: DaemonResponse)
      requires Valid() && outbox.Did(log, client, [])
      modifies `jobs, outbox, outbox.eventManager
      ensures Valid() && response == if id in views then Ok else ServerNotFound(id)
      ensures jobs == old(jobs) + if id in views then [UpdateJob(requested, views[id].config)] else []
      ensures outbox.Did(log, client, System.UpdateActions(id in views, id, script))
    {
      if id in servers {
        ListenThree(id, TUpdateComplete, TUpdateFailed, TActionProgress, client, log);
        UpdateServer(id, requested, client, script, log,
          [System.Subscribe(id, TUpdateComplete), System.Subscribe(id, TUpdateFailed), System.Subscribe(id, TActionProgress)]);
        response := Ok;
      } else {
        response := ServerNotFound(id);
      }
    }

    // ---------- Starting up ----------

    /** Every known server on the list is started, in the order of the list and whatever it
        tracks. */
    method Autostart(list: seq<UnitId>)
      requires Valid()
      modifies `views, os`processes, repr
      ensures Valid()
      ensures BootsTo(old(Fleet(Lifecycle.Booting(list))), |list|, Fleet(Lifecycle.Booting([])))
    {
      ghost var s := Fleet(Lifecycle.Booting(list));
      assert list[0..] == list;
      for i := 0 to |list|
        invariant Valid()
        invariant BootsTo(s, i, Fleet(Lifecycle.Booting(list[i..])))
      {
        ghost var now := Fleet(Lifecycle.Booting(list[i..]));
        assert list[i..][1..] == list[i + 1..];
        if list[i] in servers {
          StartUnit(list[i]);
        }
        BootStep(s, i, now, Fleet(Lifecycle.Booting(list[i + 1..])));
      }
      assert list[|list|..] == [];
    }

    // ---------- Shutting down ----------

    /** The state of the lifecycle is the one that shows. */
    ghost predicate At(s: Lifecycle.State)
      reads `views, os
    {
      s.processes == os.processes && s.servers == views
    }

    /** Polls a starting server until it has started. */
    method AwaitStart(id: UnitId, ghost from: Lifecycle.State, ghost steps: seq<Lifecycle.Step>, ghost s: Lifecycle.State)
      returns (started: bool, ghost steps': seq<Lifecycle.Step>, ghost s': Lifecycle.State)
      requires Valid() && id in servers && At(s) && Lifecycle.AllLinked(s) && Lifecycle.RunsTo(from, steps, s)
      modifies os
      ensures Valid() && At(s') && Lifecycle.RunsTo(from, steps', s') && s' == s.(processes := os.processes)
      ensures |os.processes| == |old(os.processes)|
      ensures started <==> !Lifecycle.RunsWith(os.processes, views[id], LogParser.OutputState.Starting)
      ensures !started ==> os.coming == []
    {
      ghost var coming, processes := os.coming, os.processes;
      started := servers[id].HasStarted(os);
      ghost var n: nat :| Polled(views[id], processes, coming, os.processes, os.coming, n);
      WorldGoesOn(from, steps, s, coming[..n]);
      steps', s' := steps + Worlds(coming[..n]), s.(processes := os.processes);
    }

    /** Waits for a child that was told to stop. */
    method ReapChild(pid: Lifecycle.Pid, ghost from: Lifecycle.State, ghost steps: seq<Lifecycle.Step>, ghost s: Lifecycle.State)
      returns (done: bool, ghost steps': seq<Lifecycle.Step>, ghost s': Lifecycle.State)
      requires Valid() && At(s) && Lifecycle.AllLinked(s) && Lifecycle.RunsTo(from, steps, s) && s.phase == Lifecycle.Reaping(pid)
      modifies os
      ensures Valid() && At(s') && Lifecycle.AllLinked(s') && Lifecycle.RunsTo(from, steps', s')
      ensures done ==> s'.phase.Visiting? && s'.todo == s.todo
      ensures !done ==> os.coming == []
    {
      ghost var coming, processes := os.coming, os.processes;
      var exit := os.Wait(pid);
      done := exit.Some?;
      steps', s' := ReapIs(from, steps, s, pid, done, coming, os.processes, os.coming);
    }

    /** Tells a server to stop and waits for its child, as part of the given step. */
    method StopAndReap(
      id: UnitId, ghost from: Lifecycle.State, ghost steps: seq<Lifecycle.Step>, ghost s: Lifecycle.State,
      ghost step: Lifecycle.Step, ghost mid: Lifecycle.State)
      returns (done: bool, ghost steps': seq<Lifecycle.Step>, ghost s': Lifecycle.State)
      requires Valid() && id in servers && At(s) && At(mid) && Lifecycle.AllLinked(s) && Lifecycle.RunsTo(from, steps, s)
      requires Lifecycle.Enabled(s, step) && Lifecycle.Apply(s, step) == Lifecycle.StopAndWait(mid, id)
      modifies `views, os, repr
      ensures Valid() && At(s') && Lifecycle.AllLinked(s') && Lifecycle.RunsTo(from, steps', s')
      ensures done ==> s'.phase.Visiting? && s'.todo == mid.todo
      ensures !done ==> os.coming == []
    {
      StopUnitIs(mid, id);
      var child := StopUnit(id);
      ghost var next := Lifecycle.StopAndWait(mid, id);
      Lifecycle.RunsOn(from, steps, s, step, next);
      done, steps', s' := true, steps + [step], next;
      if child.Some? {
        done, steps', s' := ReapChild(child.value, from, steps', s');
      }
    }

    method StopOnceStarted(id: UnitId, ghost from: Lifecycle.State, ghost steps: seq<Lifecycle.Step>, ghost s: Lifecycle.State)
      returns (done: bool, ghost steps': seq<Lifecycle.Step>, ghost s': Lifecycle.State)
      requires Valid() && id in servers && At(s) && Lifecycle.AllLinked(s) && Lifecycle.RunsTo(from, steps, s)
      requires s.phase == Lifecycle.AwaitingStart(id)
      modifies `views, os, repr
      ensures Valid() && At(s') && Lifecycle.AllLinked(s') && Lifecycle.RunsTo(from, steps', s')
      ensures done ==> s'.phase.Visiting? && s'.todo == s.todo
      ensures !done ==> os.coming == []
    {
      done, steps', s' := AwaitStart(id, from, steps, s);
      if done {
        Lifecycle.StatusMeans(os.processes, views[id], ServerStatus.Starting);
        done, steps', s' := StopAndReap(id, from, steps', s', Lifecycle.StartSeen, s');
      }
    }

    /** Comes to one server. */
    method VisitUnit(id: UnitId, ghost from: Lifecycle.State, ghost steps: seq<Lifecycle.Step>, ghost s: Lifecycle.State)
      returns (done: bool, ghost steps': seq<Lifecycle.Step>, ghost s': Lifecycle.State)
      requires Valid() && id in servers && At(s) && Lifecycle.AllLinked(s) && Lifecycle.RunsTo(from, steps, s)
      requires s.phase.Visiting? && id in s.todo
      modifies `views, os, repr
      ensures Valid() && At(s') && Lifecycle.AllLinked(s') && Lifecycle.RunsTo(from, steps', s')
      ensures done ==> s'.phase.Visiting? && s'.todo == s.todo - {id}
      ensures !done ==> os.coming == []
    {
      var status := UnitStatus(id);
      ghost var mid := Met(s, id);
      VisitOn(from, steps, s, id, status);
      match status
      case Starting =>
        ghost var waiting := mid.(phase := Lifecycle.AwaitingStart(id));
        done, steps', s' := StopOnceStarted(id, from, steps + [Lifecycle.Visit(id)], waiting);
      case Running => done, steps', s' := StopAndReap(id, from, steps, s, Lifecycle.Visit(id), mid);
      case _ =>
        done, steps', s' := true, steps + [Lifecycle.Visit(id)], mid;
    }

    /** Stops the servers, in any order. What happens is a run of the lifecycle; it comes to
        its end unless a server goes on starting or a child never exits. */
    method StopServers() returns (done: bool, ghost steps: seq<Lifecycle.Step>, ghost end: Lifecycle.State)
      requires Valid()
      modifies `views, os, repr
      ensures Valid() && At(end) && Lifecycle.RunsTo(old(Fleet(Lifecycle.Serving)), steps, end)
      ensures done ==> end.phase.Ended?
      ensures !done ==> os.coming == []
    {
      ghost var from := Fleet(Lifecycle.Serving);
      steps, end := [Lifecycle.BeginShutdown], Lifecycle.Apply(from, Lifecycle.BeginShutdown);
      assert steps[1..] == [];
      var pending := servers.Keys;
      while pending != {}
        invariant Valid() && servers == old(servers) && pending <= servers.Keys
        invariant At(end) && Lifecycle.AllLinked(end) && Lifecycle.RunsTo(from, steps, end)
        invariant end.phase.Visiting? && end.todo == pending
      {
        var id :| id in pending;
        done, steps, end := VisitUnit(id, from, steps, end);
        if !done {
          return;
        }
        pending := pending - {id};
      }
      Lifecycle.RunsOn(from, steps, end, Lifecycle.Finish, end.(phase := Lifecycle.Ended));
      done, steps, end := true, steps + [Lifecycle.Finish], end.(phase := Lifecycle.Ended);
    }

    // ---------- Each command does and answers what it should ----------

    /** A command handled in state `s` and with the jobs `before`: its sends and its response,
        its effect on processes and servers, and the job it launches. */
    ghost predicate Handled(
      log: Log, client: ClientId, cmd: DaemonCmd, script: seq<ThreadAction>, response: DaemonResponse,
      s: Lifecycle.State, before: seq<Job>)
      requires Lifecycle.AllLinked(s) && s.phase.Serving?
      reads `views, `jobs, os, outbox, outbox.eventManager, outbox.queueSender
    {
      && Answered(log, client, cmd, script, response, s.processes, s.servers)
      && Fleet(Lifecycle.Serving) == FleetAfter(s, cmd)
      && jobs == before + JobsFor(Configs(s.servers), cmd)
    }

    method CmdStart(id: UnitId, wait: bool, client: ClientId, ghost script: seq<ThreadAction>, ghost log: Log)
      returns (response: DaemonResponse)
      requires Valid() && outbox.Did(log, client, [])
      modifies `views, outbox, outbox.eventManager, os`processes, repr
      ensures Valid() && Handled(log, client, Start(id, wait), script, response, old(Fleet(Lifecycle.Serving)), old(jobs))
    {
      ghost var s, down := Fleet(Lifecycle.Serving), false;
      response, down := HandleStart(id, wait, client, script, log);
      StartIs(s, id, wait, down, script);
      AppendNothing(jobs);
    }

    method CmdStop(id: UnitId, wait: bool, client: ClientId, ghost script: seq<ThreadAction>, ghost log: Log)
      returns (response: DaemonResponse)
      requires Valid() && outbox.Did(log, client, [])
      modifies `views, outbox, outbox.eventManager, os`processes, repr
      ensures Valid() && Handled(log, client, Stop(id, wait), script, response, old(Fleet(Lifecycle.Serving)), old(jobs))
    {
      ghost var s, running := Fleet(Lifecycle.Serving), false;
      response, running := HandleStop(id, wait, client, log);
      StopIs(s, id, wait, running, script);
      AppendNothing(jobs);
    }

    method CmdMessage(id: UnitId, message: string, client: ClientId, ghost script: seq<ThreadAction>, ghost log: Log)
      returns (response: DaemonResponse)
      requires Valid() && outbox.Did(log, client, [])
      modifies os`processes
      ensures Valid()
      ensures Handled(log, client, SendMessage(id, message), script, response, old(Fleet(Lifecycle.Serving)), old(jobs))
    {
      LineIs(Fleet(Lifecycle.Serving), SendMessage(id, message), script);
      response := HandleMessage(id, message);
      AppendNothing(jobs);
    }

    method CmdLine(id: UnitId, line: string, client: ClientId, ghost script: seq<ThreadAction>, ghost log: Log)
      returns (response: DaemonResponse)
      requires Valid() && outbox.Did(log, client, [])
      modifies os`processes
      ensures Valid()
      ensures Handled(log, client, DaemonCmd.SendCommand(id, line), script, response, old(Fleet(Lifecycle.Serving)), old(jobs))
    {
      LineIs(Fleet(Lifecycle.Serving), DaemonCmd.SendCommand(id, line), script);
      response := HandleLine(id, line);
      AppendNothing(jobs);
    }

    method CmdSubscribe(
      eventType: ServerEventType, serverIds: Option<seq<UnitId>>, client: ClientId, ghost script: seq<ThreadAction>, ghost log: Log)
      returns (response: DaemonResponse)
      requires Valid() && outbox.Did(log, client, [])
      modifies outbox, outbox.eventManager
      ensures Valid()
      ensures Handled(log, client, SubscribeEvent(eventType, serverIds), script, response, old(Fleet(Lifecycle.Serving)), old(jobs))
    {
      SubscribeIs(os.processes, views, eventType, serverIds, script);
      ListenAll(eventType, serverIds, client, log);
      AppendNothing(jobs);
      response := Ok;
    }

    method CmdInstall(request: InstallRequest, client: ClientId, ghost script: seq<ThreadAction>, ghost log: Log)
      returns (response: DaemonResponse)
      requires Valid() && outbox.Did(log, client, [])
      modifies `jobs, outbox, outbox.eventManager
      ensures Valid()
      ensures Handled(log, client, DaemonCmd.InstallServer(request), script, response, old(Fleet(Lifecycle.Serving)), old(jobs))
    {
      InstallIs(os.processes, views, request, script);
      response := HandleInstall(request, client, script, log);
    }

    method CmdUpdate(id: UnitId, requested: Option<Semver.Version>, client: ClientId, ghost script: seq<ThreadAction>, ghost log: Log)
      returns (response: DaemonResponse)
      requires Valid() && outbox.Did(log, client, [])
      modifies `jobs, outbox, outbox.eventManager
      ensures Valid()
      ensures Handled(log, client, DaemonCmd.UpdateServer(id, requested), script, response, old(Fleet(Lifecycle.Serving)), old(jobs))
    {
      UpdateIs(os.processes, views, id, requested, script);
      response := HandleUpdate(id, requested, client, script, log);
    }

    method CmdStopDaemon(client: ClientId, ghost script: seq<ThreadAction>, ghost log: Log)
      returns (response: DaemonResponse)
      requires Valid() && outbox.Did(log, client, [])
      modifies outbox, outbox.queueSender
      ensures Valid() && Handled(log, client, StopDaemon, script, response, old(Fleet(Lifecycle.Serving)), old(jobs))
    {
      outbox.RequestStop(client, log, []);
      AppendNothing([System.RequestStop]);
      AppendNothing(jobs);
      response := Ok;
    }

    method CmdList(client: ClientId, ghost script: seq<ThreadAction>, ghost log: Log) returns (response: DaemonResponse)
      requires Valid() && outbox.Did(log, client, [])
      ensures Handled(log, client, DaemonCmd.List, script, response, Fleet(Lifecycle.Serving), jobs)
    {
      response := List();
      AppendNothing(jobs);
    }

    method CmdVersion(client: ClientId, ghost script: seq<ThreadAction>, ghost log: Log) returns (response: DaemonResponse)
      requires Valid() && outbox.Did(log, client, [])
      ensures Handled(log, client, GetVersion, script, response, Fleet(Lifecycle.Serving), jobs)
    {
      response := DaemonVersion;
      AppendNothing(jobs);
    }

    /** `handle_cmd`. */
    method HandleCmd(cmd: DaemonCmd, client: ClientId, ghost script: seq<ThreadAction>, ghost log: Log)
      returns (response: DaemonResponse)
      requires Valid() && outbox.Did(log, client, [])
      modifies `views, `jobs, outbox, outbox.eventManager, outbox.queueSender, os`processes, repr
      ensures Valid() && Handled(log, client, cmd, script, response, old(Fleet(Lifecycle.Serving)), old(jobs))
    {
      match cmd
      case List => response := CmdList(client, script, log);
      case GetVersion => response := CmdVersion(client, script, log);
      case Start(id, wait) => response := CmdStart(id, wait, client, script, log);
      case Stop(id, wait) => response := CmdStop(id, wait, client, script, log);
      case SubscribeEvent(eventType, serverIds) => response := CmdSubscribe(eventType, serverIds, client, script, log);
      case InstallServer(request) => response := CmdInstall(request, client, script, log);
      case UpdateServer(id, requested) => response := CmdUpdate(id, requested, client, script, log);
      case StopDaemon => response := CmdStopDaemon(client, script, log);
      case SendMessage(id, message) => response := CmdMessage(id, message, client, script, log);
      case SendCommand(id, command) => response := CmdLine(id, command, client, script, log);
    }
  }

  function LineOf(cmd: DaemonCmd): string
    requires cmd.SendMessage? || cmd.SendCommand?
  {
    if cmd.SendMessage? then "say " + cmd.message else cmd.command
  }

  lemma LineIs(s: Lifecycle.State, cmd: DaemonCmd, script: seq<ThreadAction>)
    requires Lifecycle.AllLinked(s) && s.phase.Serving? && (cmd.SendMessage? || cmd.SendCommand?)
    ensures var choice := ChoiceFor(s.processes, s.servers, cmd, script);
            && System.Program(Configs(s.servers), cmd, choice) == []
            && System.Answer(Configs(s.servers), cmd, choice) == if cmd.unitId in s.servers then Ok else ServerNotFound(cmd.unitId)
    ensures FleetAfter(s, cmd)
         == if cmd.unitId in s.servers
            then s.(processes := Lifecycle.WriteTo(s.processes, s.servers[cmd.unitId].input, LineOf(cmd))) else s
  {
  }

  /** The entry of a listing describes the server as it is. */
  ghost predicate Describes(processes: seq<Lifecycle.Process>, views: map<UnitId, Lifecycle.Entry>, info: ServerInfo)
    requires AllExist(processes, views)
  {
    && info.name in views && info.serverType.Paper?
    && info.path == views[info.name].config.server.path && info.serverVersion == views[info.name].config.server.version
    && Lifecycle.Looks(processes, views[info.name], info.serverStatus)
  }

  /** The listing has exactly one entry for each server, which describes it, and no others. */
  ghost predicate ListsAll(processes: seq<Lifecycle.Process>, views: map<UnitId, Lifecycle.Entry>, r: DaemonResponse)
    requires AllExist(processes, views)
  {
    && r.Listing?
    && (forall info :: info in r.servers ==> Describes(processes, views, info))
    && (forall id :: id in views ==> exists info :: info in r.servers && info.name == id)
    && (forall info, info' :: info in r.servers && info' in r.servers && info.name == info'.name ==> info == info')
  }

  lemma ListingDescribes(processes: seq<Lifecycle.Process>, views: map<UnitId, Lifecycle.Entry>, script: seq<ThreadAction>)
    requires AllExist(processes, views)
    ensures ListsAll(processes, views, System.Answer(Configs(views), DaemonCmd.List, ChoiceFor(processes, views, DaemonCmd.List, script)))
  {
    var configs, status := Configs(views), StatusAt(processes, views);
    var r := System.Answer(configs, DaemonCmd.List, ChoiceFor(processes, views, DaemonCmd.List, script));
    forall id | id in views ensures System.Info(id, configs[id], status(id)) in r.servers {
    }
    forall info | info in r.servers ensures Describes(processes, views, info) {
      Lifecycle.StatusMeans(processes, views[info.name], info.serverStatus);
    }
  }

  /** What a command does to processes: starting and stopping do so exactly when they should,
      lines go to the process that was started last, and other commands do nothing. */
  lemma CommandReaches(s: Lifecycle.State, cmd: DaemonCmd)
    requires Lifecycle.Coherent(s) && Lifecycle.AllLinked(s) && s.phase.Serving?
    ensures var s' := FleetAfter(s, cmd);
            match cmd
            case Start(id, _) =>
              if id in s.servers && Lifecycle.MayStart(s, id)
              then s'.processes == s.processes + [Lifecycle.Process(id, [], LogParser.OutputState.Unknown, false, None, false)]
                   && id in s'.servers && s'.servers[id].process == Some(|s.processes|)
              else s' == s
            case Stop(id, _) =>
              if id in s.servers && s.servers[id].process.Some?
                 && Lifecycle.Running(s, id, s.servers[id].process.value, LogParser.OutputState.Started)
              then Lifecycle.Writes(s.processes, s'.processes, s.servers[id].process.value, ["stop"])
                   && id in s'.servers && s'.servers[id].process == None
              else s' == s
            case SendMessage(id, message) => Reached(s, s', id, "say " + message)
            case SendCommand(id, command) => Reached(s, s', id, command)
            case _ => s' == s
  {
    match cmd
    case Start(id, _) => Lifecycle.StartCmdStarts(s, id);
    case Stop(id, _) => Lifecycle.StopCmdWrites(s, id);
    case SendMessage(id, message) => Lifecycle.WriteWrites(s, id, "say " + message);
    case SendCommand(id, command) => Lifecycle.WriteWrites(s, id, command);
    case _ =>
  }

  /** The line has been written for the server, as far as it is known and has a process. */
  ghost predicate Reached(s: Lifecycle.State, s': Lifecycle.State, id: UnitId, line: string) {
    if id in s.servers && s.servers[id].input.Some?
    then Lifecycle.Writes(s.processes, s'.processes, s.servers[id].input.value, [line]) && s'.servers == s.servers
    else s' == s
  }

  lemma SubscribeIs(
    processes: seq<Lifecycle.Process>, views: map<UnitId, Lifecycle.Entry>, eventType: ServerEventType, serverIds: Option<seq<UnitId>>,
    script: seq<ThreadAction>)
    ensures var cmd := SubscribeEvent(eventType, serverIds); var choice := ChoiceFor(processes, views, cmd, script);
            && System.Program(Configs(views), cmd, choice)
               == (if serverIds.Some? then System.Subscribes(serverIds.value, eventType) else [])
            && System.Answer(Configs(views), cmd, choice) == Ok && JobsFor(Configs(views), cmd) == []
  {
  }

  lemma InstallIs(
    processes: seq<Lifecycle.Process>, views: map<UnitId, Lifecycle.Entry>, request: InstallRequest, script: seq<ThreadAction>)
    ensures var cmd := DaemonCmd.InstallServer(request); var choice := ChoiceFor(processes, views, cmd, script);
            && System.Program(Configs(views), cmd, choice) == System.InstallActions(request.unitId in views, request.unitId, script)
            && System.Answer(Configs(views), cmd, choice) == Ok
            && JobsFor(Configs(views), cmd) == if request.unitId in views then [] else [InstallJob(request)]
  {
  }

  lemma UpdateIs(
    processes: seq<Lifecycle.Process>, views: map<UnitId, Lifecycle.Entry>, id: UnitId, requested: Option<Semver.Version>,
    script: seq<ThreadAction>)
    ensures var cmd := DaemonCmd.UpdateServer(id, requested); var choice := ChoiceFor(processes, views, cmd, script);
            && System.Program(Configs(views), cmd, choice) == System.UpdateActions(id in views, id, script)
            && System.Answer(Configs(views), cmd, choice) == (if id in views then Ok else ServerNotFound(id))
            && JobsFor(Configs(views), cmd) == if id in views then [UpdateJob(requested, views[id].config)] else []
  {
  }

  lemma StartIs(s: Lifecycle.State, id: UnitId, wait: bool, down: bool, script: seq<ThreadAction>)
    requires Lifecycle.AllLinked(s) && s.phase.Serving? && (id in s.servers ==> down == IsDown(s.processes, s.servers, id))
    ensures var choice := ChoiceFor(s.processes, s.servers, Start(id, wait), script);
            && System.Program(Configs(s.servers), Start(id, wait), choice) == System.StartActions(id in s.servers, id, wait, down, script)
            && System.Answer(Configs(s.servers), Start(id, wait), choice) == System.StartAnswer(id in s.servers, id, wait)
    ensures var after := Started(s.processes, s.servers, id, down);
            FleetAfter(s, Start(id, wait)) == s.(processes := after.0, servers := after.1)
  {
  }

  lemma StopIs(s: Lifecycle.State, id: UnitId, wait: bool, running: bool, script: seq<ThreadAction>)
    requires Lifecycle.AllLinked(s) && s.phase.Serving? && (id in s.servers ==> running == IsRunning(s.processes, s.servers, id))
    ensures var choice := ChoiceFor(s.processes, s.servers, Stop(id, wait), script);
            && System.Program(Configs(s.servers), Stop(id, wait), choice) == System.StopActions(id in s.servers, id, wait)
            && System.Answer(Configs(s.servers), Stop(id, wait), choice) == System.StopAnswer(id in s.servers, id, wait)
    ensures AllExist(s.processes, s.servers)
    ensures var after := Stopped(s.processes, s.servers, id, running);
            FleetAfter(s, Stop(id, wait)) == s.(processes := after.0, servers := after.1)
  {
  }
}
