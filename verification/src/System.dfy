/** The daemon as a transition system: the accept loop, one forwarding thread per client, the
    daemon thread, the event manager thread, and the log and worker threads, joined by two
    queues and one outgoing stream per client. A step is one atomic action of one thread; its
    label carries everything the outside world decides. */
module System {
  import opened Sequences
  import opened Protocol
  import opened Subscriptions
  import opened Workers
  import Semver
  import Config
  import Installer
  import Updater
  import LogParser

  /** One action of the daemon thread inside `handle_cmd`. */
  datatype HandlerAction =
    | Subscribe(unit: UnitId, eventType: ServerEventType)
    | Announce(unit: UnitId, event: ServerEvent)
    | Launch(script: seq<ThreadAction>)
    | RequestStop

  /** A command being handled: its remaining actions start at `pc`; the response comes last.
      `seen` records the units stored when it began, `sentAt` where in the manager's history
      its messages went, `child` the thread it launched. */
  datatype Handler = Handler(
    client: ClientId, cmd: DaemonCmd, seen: map<UnitId, ServerUnitConfig>, response: DaemonResponse,
    actions: seq<HandlerAction>, pc: nat, sentAt: seq<nat>, child: Option<nat>)

  /** A log or worker thread. `audience` is what its handler had sent to the manager before
      it was launched, `bornAt` the length of the manager's history at that moment. */
  datatype Thread = Thread(
    actions: seq<ThreadAction>, pc: nat, sentAt: seq<nat>, bornAt: nat, audience: seq<ManagerCmd>)

  datatype Request = Request(client: ClientId, cmd: DaemonCmd)

  /** What the clients and their forwarding threads hold. */
  datatype Clients = Clients(
    accepted: nat,                                  // clients accepted so far
    streams: map<ClientId, seq<DaemonResponse>>,    // `senders`, with what was sent through each
    dead: set<ClientId>,                            // clients no longer receiving
    open: set<ClientId>,                            // forwarding threads still running
    outbox: seq<Request>,                           // commands sent but not yet forwarded
    sent: map<ClientId, seq<DaemonCmd>>)            // every command each client sent

  /** The event manager thread. */
  datatype Manager = Manager(
    mq: seq<ManagerCmd>,                            // its queue
    hist: seq<ManagerCmd>,                          // everything ever sent to it
    subs: Subs,
    sending: seq<Delivery>)                         // the rest of the dispatch it is at

  /** The daemon thread. */
  datatype Daemon = Daemon(
    dq: seq<DaemonEvent>,                           // its queue
    arrivals: seq<DaemonEvent>,                     // everything ever sent to it
    taken: nat,                                     // how much of that it has taken
    delivered: seq<Delivery>,                       // the `SendEvent`s it has taken
    servers: map<UnitId, ServerUnitConfig>,
    handler: Option<Handler>,                       // the command it is at
    handled: seq<Handler>,                          // the commands it has answered
    crashed: bool,                                  // it failed to find a sender
    exited: bool)

  datatype State = State(clients: Clients, manager: Manager, daemon: Daemon, threads: seq<Thread>)

  // ---------- Handling a command ----------

  /** What the world contributes to the handling of one command: the status of each server
      where it is not determined here, whether a start finds the server down, and what the
      log or worker thread that is launched will do. */
  datatype Choice = Choice(status: UnitId -> ServerStatus, down: bool, script: seq<ThreadAction>)

  /** `script` is a course the thread launched for `cmd` can take. */
  ghost predicate Plausible(servers: map<UnitId, ServerUnitConfig>, cmd: DaemonCmd, script: seq<ThreadAction>) {
    match cmd
    case Start(id, _) => exists lines :: script == LogParser.Script(id, lines)
    case InstallServer(request) => exists env :: script == Installer.InstallScript(request, env)
    case UpdateServer(id, requested) =>
      id in servers ==> exists env :: script == Updater.UpdateScript(requested, servers[id], env)
    case _ => true
  }

  function Info(id: UnitId, config: ServerUnitConfig, status: ServerStatus): ServerInfo {
    ServerInfo(id, config.server.path, Paper, config.server.version, status)
  }

  function Subscribes(units: seq<UnitId>, eventType: ServerEventType): (actions: seq<HandlerAction>)
    ensures |actions| == |units|
    ensures forall i :: 0 <= i < |units| ==> actions[i] == Subscribe(units[i], eventType)
  {
    seq(|units|, i requires 0 <= i < |units| => Subscribe(units[i], eventType))
  }

  function ExistsText(): string {
    "a unit with that name already exists"
  }

  /** Starting: whatever `start` launches, and then the subscriptions of a client that waits. */
  function StartActions(known: bool, id: UnitId, wait: bool, down: bool, script: seq<ThreadAction>): seq<HandlerAction> {
    if !known then []
    else
      (if down then [Launch(script)] else [])
      + if wait then [Subscribe(id, TServerStarting), Subscribe(id, TServerStarted)] else []
  }

  function StopActions(known: bool, id: UnitId, wait: bool): seq<HandlerAction> {
    if known && wait then [Subscribe(id, TServerStopping), Subscribe(id, TServerStopped)] else []
  }

  function SubscribeThree(id: UnitId, a: ServerEventType, b: ServerEventType, c: ServerEventType): seq<HandlerAction> {
    [Subscribe(id, a), Subscribe(id, b), Subscribe(id, c)]
  }

  /** An installation is refused at once if the unit exists. */
  function InstallAction(known: bool, id: UnitId, script: seq<ThreadAction>): HandlerAction {
    if known then Announce(id, InstallationFailed(id, ExistsText())) else Launch(script)
  }

  function InstallActions(known: bool, id: UnitId, script: seq<ThreadAction>): seq<HandlerAction> {
    SubscribeThree(id, TInstallationComplete, TInstallationFailed, TActionProgress) + [InstallAction(known, id, script)]
  }

  function UpdateActions(known: bool, id: UnitId, script: seq<ThreadAction>): seq<HandlerAction> {
    if !known then []
    else SubscribeThree(id, TUpdateComplete, TUpdateFailed, TActionProgress) + [Launch(script)]
  }

  /** `handle_cmd`: the sends it makes, in order. */
  function Program(servers: map<UnitId, ServerUnitConfig>, cmd: DaemonCmd, choice: Choice): seq<HandlerAction> {
    match cmd
    case Start(id, wait) => StartActions(id in servers, id, wait, choice.down, choice.script)
    case Stop(id, wait) => StopActions(id in servers, id, wait)
    case SubscribeEvent(eventType, Some(ids)) => Subscribes(ids, eventType)
    case InstallServer(request) => InstallActions(request.unitId in servers, request.unitId, choice.script)
    case UpdateServer(id, requested) => UpdateActions(id in servers, id, choice.script)
    case StopDaemon => [RequestStop]
    case _ => []
  }

  function StartAnswer(known: bool, id: UnitId, wait: bool): DaemonResponse {
    if !known then ServerNotFound(id) else if wait then Ok else StartSent(id)
  }

  function StopAnswer(known: bool, id: UnitId, wait: bool): DaemonResponse {
    if !known then ServerNotFound(id) else if wait then Ok else StopSent(id)
  }

  /** `handle_cmd`: the response. */
  function Answer(servers: map<UnitId, ServerUnitConfig>, cmd: DaemonCmd, choice: Choice): DaemonResponse {
    match cmd
    case List => Listing(set id | id in servers :: Info(id, servers[id], choice.status(id)))
    case GetVersion => DaemonVersion
    case Start(id, wait) => StartAnswer(id in servers, id, wait)
    case Stop(id, wait) => StopAnswer(id in servers, id, wait)
    case SubscribeEvent(_, _) => Ok
    case InstallServer(_) => Ok
    case UpdateServer(id, _) => if id !in servers then ServerNotFound(id) else Ok
    case StopDaemon => Ok
    case SendMessage(id, _) => if id !in servers then ServerNotFound(id) else Ok
    case SendCommand(id, _) => if id !in servers then ServerNotFound(id) else Ok
  }

  // ---------- Elementary effects ----------

  function PushManager(s: State, cmd: ManagerCmd): State {
    s.(manager := s.manager.(mq := s.manager.mq + [cmd], hist := s.manager.hist + [cmd]))
  }

  function PushDaemon(s: State, event: DaemonEvent): State {
    s.(daemon := s.daemon.(dq := s.daemon.dq + [event], arrivals := s.daemon.arrivals + [event]))
  }

  /** A send to a client; when it fails, the client's subscriptions are to be removed. */
  function SendTo(s: State, client: ClientId, response: DaemonResponse): State {
    var streams := s.clients.streams;
    if client !in streams then s.(daemon := s.daemon.(crashed := true))
    else if client in s.clients.dead then PushManager(s, RemoveAllSubscriptions(client))
    else s.(clients := s.clients.(streams := streams[client := streams[client] + [response]]))
  }

  function WithHandler(s: State, handler: Option<Handler>): State {
    s.(daemon := s.daemon.(handler := handler))
  }

  function WithThread(s: State, t: nat, thread: Thread): State
    requires t < |s.threads|
  {
    s.(threads := s.threads[t := thread])
  }

  // ---------- Steps ----------

  datatype Step =
    | Accept
    | ClientSends(client: ClientId, cmd: DaemonCmd)
    | ClientDies(client: ClientId)
    | Forward(at: nat)
    | HangUp(client: ClientId)
    | Take(choice: Choice)
    | Work
    | Manage
    | EmitNext
    | RunThread(thread: nat)

  /** The first pending command of its client. */
  predicate FirstOfClient(outbox: seq<Request>, at: nat)
    requires at < |outbox|
  {
    forall j :: 0 <= j < at ==> outbox[j].client != outbox[at].client
  }

  predicate Enabled(s: State, step: Step) {
    var c, d := s.clients, s.daemon;
    && !d.exited
    && match step
       case Accept => c.accepted < CLIENT_IDS
       case ClientSends(client, _) => client in c.open
       case ClientDies(client) => client in c.streams && client !in c.dead
       case Forward(at) => at < |c.outbox| && FirstOfClient(c.outbox, at)
       case HangUp(client) => client in c.open && forall r :: r in c.outbox ==> r.client != client
       case Take(_) => !d.crashed && d.handler.None? && d.dq != []
       case Work => !d.crashed && d.handler.Some?
       case Manage => s.manager.sending == [] && s.manager.mq != []
       case EmitNext => s.manager.sending != []
       case RunThread(t) => t < |s.threads| && s.threads[t].pc < |s.threads[t].actions|
  }

  /** Ids are handed out by a counter. */
  function DoAccept(s: State): State {
    var c := s.clients;
    s.(clients := c.(accepted := c.accepted + 1, streams := c.streams[c.accepted := [SetSender, DaemonVersion]],
                     open := c.open + {c.accepted}, sent := c.sent[c.accepted := []]))
  }

  function DoClientSends(s: State, client: ClientId, cmd: DaemonCmd): State {
    var c := s.clients;
    s.(clients := c.(outbox := c.outbox + [Request(client, cmd)],
                     sent := c.sent[client := (if client in c.sent then c.sent[client] else []) + [cmd]]))
  }

  function DoDie(s: State, client: ClientId): State {
    s.(clients := s.clients.(dead := s.clients.dead + {client}))
  }

  function Unsent(s: State, at: nat): State
    requires at < |s.clients.outbox|
  {
    s.(clients := s.clients.(outbox := s.clients.outbox[..at] + s.clients.outbox[at + 1..]))
  }

  function DoForward(s: State, at: nat): State
    requires at < |s.clients.outbox|
  {
    PushDaemon(Unsent(s, at), IncomingCmd(s.clients.outbox[at].client, s.clients.outbox[at].cmd))
  }

  function DoHangUp(s: State, client: ClientId): State {
    PushManager(s.(clients := s.clients.(open := s.clients.open - {client})), RemoveAllSubscriptions(client))
  }

  function Popped(s: State): State
    requires s.daemon.dq != []
  {
    s.(daemon := s.daemon.(dq := s.daemon.dq[1..], taken := s.daemon.taken + 1))
  }

  function Begin(s: State, id: ClientId, cmd: DaemonCmd, choice: Choice): Handler {
    var servers := s.daemon.servers;
    Handler(id, cmd, servers, Answer(servers, cmd, choice), Program(servers, cmd, choice), 0, [], None)
  }

  function Noted(s: State, d: Delivery): State {
    s.(daemon := s.daemon.(delivered := s.daemon.delivered + [d]))
  }

  /** A unit is stored if its type is known; it takes the place of the one with its id. */
  function Store(s: State, config: ServerUnitConfig): State {
    if config.server.typeName == "paper"
    then s.(daemon := s.daemon.(servers := s.daemon.servers[config.unit.id := config]))
    else s
  }

  /** Every client is told, as far as it listens; then the process ends. */
  function Broadcast(s: State): State {
    var c := s.clients;
    s.(clients := c.(streams := map id | id in c.streams ::
                       if id in c.dead then c.streams[id] else c.streams[id] + [DaemonStopped]),
       daemon := s.daemon.(exited := true))
  }

  function DoTake(s: State, choice: Choice): State
    requires s.daemon.dq != []
  {
    match s.daemon.dq[0]
    case IncomingCmd(id, cmd) => WithHandler(Popped(s), Some(Begin(s, id, cmd, choice)))
    case SendEvent(client, event) => SendTo(Noted(Popped(s), Delivery(client, event)), client, Notice(event))
    case AddServerUnit(config) => Store(Popped(s), config)
    case StopRequested => PushDaemon(Popped(s), SendStopped)
    case SendStopped => Broadcast(Popped(s))
  }

  /** The command at hand is over and recorded as answered. */
  function Closed(s: State, h: Handler): State {
    s.(daemon := s.daemon.(handler := None, handled := s.daemon.handled + [h]))
  }

  function Sending(s: State, h: Handler): Option<Handler> {
    Some(h.(pc := h.pc + 1, sentAt := h.sentAt + [|s.manager.hist|]))
  }

  function DoLaunch(s: State, h: Handler, script: seq<ThreadAction>): State
    requires h.pc < |h.actions|
  {
    var thread := Thread(script, 0, [], |s.manager.hist|, PushedBy(h.client, h.actions[..h.pc]));
    WithHandler(s, Some(h.(pc := h.pc + 1, child := Some(|s.threads|)))).(threads := s.threads + [thread])
  }

  /** One action of the command at hand; after the last one, the response. */
  function DoWork(s: State): State
    requires s.daemon.handler.Some?
  {
    var h := s.daemon.handler.value;
    if h.pc >= |h.actions| then SendTo(Closed(s, h), h.client, h.response)
    else
      match h.actions[h.pc]
      case Subscribe(unit, eventType) => PushManager(WithHandler(s, Sending(s, h)), AddSubscription(unit, eventType, h.client))
      case Announce(unit, event) => PushManager(WithHandler(s, Sending(s, h)), Raise(unit, event))
      case Launch(script) => DoLaunch(s, h, script)
      case RequestStop => PushDaemon(WithHandler(s, Some(h.(pc := h.pc + 1))), StopRequested)
  }

  /** An action of the command at hand changes no more of the daemon thread than this. */
  lemma ActDaemon(s: State, h: Handler)
    requires s.daemon.handler == Some(h) && h.pc < |h.actions|
    ensures var d, d' := s.daemon, DoWork(s).daemon; d' == d.(handler := d'.handler, dq := d'.dq, arrivals := d'.arrivals)
    ensures var d, d' := s.daemon, DoWork(s).daemon;
            if h.actions[h.pc].RequestStop? then d'.dq == d.dq + [StopRequested] && d'.arrivals == d.arrivals + [StopRequested]
            else d'.dq == d.dq && d'.arrivals == d.arrivals
    ensures var handler := DoWork(s).daemon.handler;
            handler.Some? && handler.value == h.(pc := h.pc + 1, sentAt := handler.value.sentAt, child := handler.value.child)
  {
  }

  /** Answering records the command as handled. */
  lemma AnswerDaemon(s: State, h: Handler)
    requires s.daemon.handler == Some(h) && h.pc >= |h.actions|
    ensures DoWork(s).daemon == Closed(s, h).daemon.(crashed := DoWork(s).daemon.crashed)
  {
  }

  function DoManage(keep: Keep, s: State): State
    requires s.manager.mq != []
  {
    var m := s.manager;
    s.(manager := m.(mq := m.mq[1..], subs := NextSubs(keep, m.subs, m.mq[0]), sending := Emitted(m.subs, m.mq[0])))
  }

  function DoEmit(s: State): State
    requires s.manager.sending != []
  {
    var d := s.manager.sending[0];
    PushDaemon(s.(manager := s.manager.(sending := s.manager.sending[1..])), SendEvent(d.client, d.event))
  }

  function DoRun(s: State, t: nat): State
    requires t < |s.threads| && s.threads[t].pc < |s.threads[t].actions|
  {
    var thread := s.threads[t];
    match thread.actions[thread.pc]
    case RaiseEvent(unit, event) =>
      PushManager(WithThread(s, t, thread.(pc := thread.pc + 1, sentAt := thread.sentAt + [|s.manager.hist|])), Raise(unit, event))
    case Register(config) =>
      PushDaemon(WithThread(s, t, thread.(pc := thread.pc + 1)), AddServerUnit(config))
  }

  function Apply(keep: Keep, s: State, step: Step): State
    requires Enabled(s, step)
  {
    match step
    case Accept => DoAccept(s)
    case ClientSends(client, cmd) => DoClientSends(s, client, cmd)
    case ClientDies(client) => DoDie(s, client)
    case Forward(at) => DoForward(s, at)
    case HangUp(client) => DoHangUp(s, client)
    case Take(choice) => DoTake(s, choice)
    case Work => DoWork(s)
    case Manage => DoManage(keep, s)
    case EmitNext => DoEmit(s)
    case RunThread(t) => DoRun(s, t)
  }

  // ---------- Runs ----------

  /** The thread a command launches does what such a thread can do. */
  ghost predicate Faithful(s: State, step: Step) {
    step.Take? && s.daemon.dq != [] && s.daemon.dq[0].IncomingCmd?
    ==> Plausible(s.daemon.servers, s.daemon.dq[0].cmd, step.choice.script)
  }

  /** The daemon as it starts accepting clients: the units found in the unit directories, and
      the log threads of the servers that were started automatically. */
  function Init(files: seq<Config.UnitFile>, logs: seq<seq<ThreadAction>>): State {
    State(Clients(0, map[], {}, {}, [], map[]), Manager([], [], map[], []),
          Daemon([], [], 0, [], Config.Servers(files), None, [], false, false),
          seq(|logs|, i requires 0 <= i < |logs| => Thread(logs[i], 0, [], 0, [])))
  }

  ghost predicate LogScripts(logs: seq<seq<ThreadAction>>) {
    forall i :: 0 <= i < |logs| ==> exists unit, lines :: logs[i] == LogParser.Script(unit, lines)
  }

  /** `steps` can be taken one after the other from `s`. */
  ghost predicate Possible(keep: Keep, s: State, steps: seq<Step>)
    decreases |steps|
  {
    steps != [] ==>
      Enabled(s, steps[0]) && Faithful(s, steps[0]) && Possible(keep, Apply(keep, s, steps[0]), steps[1..])
  }

  ghost function Exec(keep: Keep, s: State, steps: seq<Step>): State
    requires Possible(keep, s, steps)
    decreases |steps|
  {
    if steps == [] then s else Exec(keep, Apply(keep, s, steps[0]), steps[1..])
  }

  // ---------- Projections ----------

  function PushedAction(client: ClientId): HandlerAction -> seq<ManagerCmd> {
    (a: HandlerAction) =>
      match a
      case Subscribe(unit, eventType) => [AddSubscription(unit, eventType, client)]
      case Announce(unit, event) => [Raise(unit, event)]
      case _ => []
  }

  /** What the actions of a handler send to the manager. */
  function PushedBy(client: ClientId, actions: seq<HandlerAction>): seq<ManagerCmd> {
    Collect(actions, PushedAction(client))
  }
}
