/** A unit is stored before anyone hears that its installation or update is complete. */
module Registration {
  import opened Sequences
  import opened Protocol
  import opened Subscriptions
  import opened System
  import opened Workers
  import Installer
  import Updater
  import LogParser
  import Semver

  // ---------- Scripts ----------

  predicate Registers(action: ThreadAction, id: UnitId) {
    action.Register? && action.config.unit.id == id
  }

  predicate Completes(action: ThreadAction) {
    action.RaiseEvent? && action.event.Completion()
  }

  predicate StorableAction(action: ThreadAction) {
    action.Register? ==> action.config.server.typeName == "paper"
  }

  /** From `pc` on, every completion is announced after the unit was handed over, and what
      is handed over can be stored. */
  ghost predicate RegistersFirst(actions: seq<ThreadAction>) {
    && (forall j :: 0 <= j < |actions| ==> StorableAction(actions[j]))
    && (forall j :: 0 <= j < |actions| && Completes(actions[j]) ==>
          exists i :: 0 <= i < j && Registers(actions[i], actions[j].event.serverId))
  }

  lemma JobRegistersFirst<E>(install: bool, unit: UnitId, run: Run<ServerUnitConfig, E>, describe: E -> string)
    requires run.outcome.Finished? ==> run.outcome.value.unit.id == unit && run.outcome.value.server.typeName == "paper"
    ensures RegistersFirst(JobScript(install, unit, run, describe))
  {
    var script, n := JobScript(install, unit, run, describe), |run.progress|;
    forall j | 0 <= j < |script| && Completes(script[j]) ensures exists i :: 0 <= i < j && Registers(script[i], script[j].event.serverId) {
      JobScriptAt(install, unit, run, describe, j);
      JobScriptAt(install, unit, run, describe, n);
      assert Registers(script[n], unit);
    }
    forall j | 0 <= j < |script| ensures StorableAction(script[j]) {
      JobScriptAt(install, unit, run, describe, j);
    }
  }

  lemma InstallRegistersFirst(request: InstallRequest, env: Installer.InstallEnv)
    ensures RegistersFirst(Installer.InstallScript(request, env))
  {
    Installer.InstallOutcome(request, env);
    JobRegistersFirst(true, request.unitId, Installer.PerformRun(request, env), env.describe);
  }

  lemma UpdateRegistersFirst(requested: Option<Semver.Version>, config: ServerUnitConfig, env: Updater.UpdateEnv)
    requires config.server.typeName == "paper"
    ensures RegistersFirst(Updater.UpdateScript(requested, config, env))
  {
    Updater.UpdateOutcome(requested, config, env);
    JobRegistersFirst(false, config.unit.id, Updater.PerformRun(requested, config, env), env.describe);
  }

  lemma LogRegistersFirst(unit: UnitId, lines: seq<LogParser.Line>)
    ensures RegistersFirst(LogParser.Script(unit, lines))
  {
    LogParser.CollectedStates(lines[..LogParser.Readable(lines)]);
  }

  ghost predicate SafeAction(action: HandlerAction) {
    && (action.Launch? ==> RegistersFirst(action.script))
    && (action.Announce? ==> !action.event.Completion())
  }

  ghost predicate SafeActions(actions: seq<HandlerAction>) {
    forall i :: 0 <= i < |actions| ==> SafeAction(actions[i])
  }

  ghost predicate Units(servers: map<UnitId, ServerUnitConfig>) {
    forall id :: id in servers ==> servers[id].unit.id == id && servers[id].server.typeName == "paper"
  }

  lemma {:induction false} PlausibleRegistersFirst(servers: map<UnitId, ServerUnitConfig>, cmd: DaemonCmd, script: seq<ThreadAction>)
    requires Units(servers) && Plausible(servers, cmd, script)
    requires cmd.Start? || cmd.InstallServer? || (cmd.UpdateServer? && cmd.unitId in servers)
    ensures RegistersFirst(script)
  {
    match cmd
    case Start(id, _) =>
      var lines :| script == LogParser.Script(id, lines);
      LogRegistersFirst(id, lines);
    case InstallServer(request) =>
      var env :| script == Installer.InstallScript(request, env);
      InstallRegistersFirst(request, env);
    case UpdateServer(id, requested) =>
      var env :| script == Updater.UpdateScript(requested, servers[id], env);
      UpdateRegistersFirst(requested, servers[id], env);
  }

  lemma ProgramSafe(servers: map<UnitId, ServerUnitConfig>, cmd: DaemonCmd, choice: Choice)
    requires cmd.Start? || cmd.InstallServer? || (cmd.UpdateServer? && cmd.unitId in servers)
             ==> RegistersFirst(choice.script)
    ensures SafeActions(Program(servers, cmd, choice))
  {
  }

  // ---------- In the system ----------

  /** The unit is stored, or will be once the first `n` events of the queue are taken. */
  ghost predicate Soon(servers: map<UnitId, ServerUnitConfig>, dq: seq<DaemonEvent>, n: nat, id: UnitId)
    requires n <= |dq|
  {
    id in servers || exists i :: 0 <= i < n && dq[i].AddServerUnit? && dq[i].config.unit.id == id
  }

  ghost predicate Backed(servers: map<UnitId, ServerUnitConfig>, dq: seq<DaemonEvent>, n: nat, event: ServerEvent)
    requires n <= |dq|
  {
    event.Completion() ==> Soon(servers, dq, n, event.serverId)
  }

  ghost predicate BackedQueue(servers: map<UnitId, ServerUnitConfig>, dq: seq<DaemonEvent>) {
    && (forall j :: 0 <= j < |dq| && dq[j].SendEvent? ==> Backed(servers, dq, j, dq[j].event))
    && (forall j :: 0 <= j < |dq| && dq[j].AddServerUnit? ==> dq[j].config.server.typeName == "paper")
  }

  ghost predicate BackedManager(servers: map<UnitId, ServerUnitConfig>, dq: seq<DaemonEvent>, m: Manager) {
    && (forall j :: 0 <= j < |m.mq| && m.mq[j].DispatchEvent? ==> Backed(servers, dq, |dq|, m.mq[j].event))
    && (forall j :: 0 <= j < |m.sending| ==> Backed(servers, dq, |dq|, m.sending[j].event))
  }

  /** What is left of a thread's script. */
  ghost predicate BackedThread(servers: map<UnitId, ServerUnitConfig>, dq: seq<DaemonEvent>, t: Thread) {
    && (forall j :: t.pc <= j < |t.actions| ==> StorableAction(t.actions[j]))
    && (forall j :: t.pc <= j < |t.actions| && Completes(t.actions[j]) ==>
          || Soon(servers, dq, |dq|, t.actions[j].event.serverId)
          || exists i :: t.pc <= i < j && Registers(t.actions[i], t.actions[j].event.serverId))
  }

  ghost predicate BackedThreads(servers: map<UnitId, ServerUnitConfig>, dq: seq<DaemonEvent>, threads: seq<Thread>) {
    forall t :: 0 <= t < |threads| ==> BackedThread(servers, dq, threads[t])
  }

  ghost predicate StoredStreams(servers: map<UnitId, ServerUnitConfig>, streams: map<ClientId, seq<DaemonResponse>>) {
    forall c, i :: c in streams && 0 <= i < |streams[c]| && streams[c][i].Notice? && streams[c][i].event.Completion()
      ==> streams[c][i].event.serverId in servers
  }

  ghost predicate SafeHandler(handler: Option<Handler>) {
    handler.Some? ==>
      SafeActions(handler.value.actions) && !handler.value.response.Notice? && !handler.value.response.DaemonStopped?
  }

  ghost predicate Registered(s: State) {
    var servers, dq := s.daemon.servers, s.daemon.dq;
    && Units(servers)
    && SafeHandler(s.daemon.handler)
    && BackedQueue(servers, dq)
    && BackedManager(servers, dq, s.manager)
    && BackedThreads(servers, dq, s.threads)
    && StoredStreams(servers, s.clients.streams)
  }

  /** Whatever was stored or about to be stored still is. */
  ghost predicate Keeps(
    servers: map<UnitId, ServerUnitConfig>, dq: seq<DaemonEvent>,
    servers': map<UnitId, ServerUnitConfig>, dq': seq<DaemonEvent>)
  {
    && servers.Keys <= servers'.Keys
    && forall id :: Soon(servers, dq, |dq|, id) ==> Soon(servers', dq', |dq'|, id)
  }

  lemma KeepsRest(
    servers: map<UnitId, ServerUnitConfig>, dq: seq<DaemonEvent>,
    servers': map<UnitId, ServerUnitConfig>, dq': seq<DaemonEvent>,
    m: Manager, threads: seq<Thread>, streams: map<ClientId, seq<DaemonResponse>>)
    requires Keeps(servers, dq, servers', dq')
    requires BackedManager(servers, dq, m) && BackedThreads(servers, dq, threads) && StoredStreams(servers, streams)
    ensures BackedManager(servers', dq', m) && BackedThreads(servers', dq', threads) && StoredStreams(servers', streams)
  {
    forall t | 0 <= t < |threads| ensures BackedThread(servers', dq', threads[t]) {
      assert BackedThread(servers, dq, threads[t]);
    }
  }

  lemma PushedKeeps(servers: map<UnitId, ServerUnitConfig>, dq: seq<DaemonEvent>, e: DaemonEvent)
    ensures Keeps(servers, dq, servers, dq + [e])
  {
    forall id | Soon(servers, dq, |dq|, id) ensures Soon(servers, dq + [e], |dq + [e]|, id) {
      if id !in servers {
        var i :| 0 <= i < |dq| && dq[i].AddServerUnit? && dq[i].config.unit.id == id;
        assert (dq + [e])[i] == dq[i];
      }
    }
  }

  /** A later position in a longer queue. */
  lemma SoonLater(servers: map<UnitId, ServerUnitConfig>, dq: seq<DaemonEvent>, e: DaemonEvent, n: nat, id: UnitId)
    requires n <= |dq| && Soon(servers, dq, n, id)
    ensures Soon(servers, dq + [e], n, id)
  {
    if id !in servers {
      var i :| 0 <= i < n && dq[i].AddServerUnit? && dq[i].config.unit.id == id;
      assert (dq + [e])[i] == dq[i];
    }
  }

  lemma PushDaemonRegistered(s: State, e: DaemonEvent)
    requires Registered(s)
    requires e.SendEvent? ==> Backed(s.daemon.servers, s.daemon.dq, |s.daemon.dq|, e.event)
    requires e.AddServerUnit? ==> e.config.server.typeName == "paper"
    ensures Registered(PushDaemon(s, e))
  {
    var servers, dq := s.daemon.servers, s.daemon.dq;
    PushedKeeps(servers, dq, e);
    KeepsRest(servers, dq, servers, dq + [e], s.manager, s.threads, s.clients.streams);
    forall j | 0 <= j < |dq + [e]| && (dq + [e])[j].SendEvent?
      ensures Backed(servers, dq + [e], j, (dq + [e])[j].event)
    {
      var event := (dq + [e])[j].event;
      if event.Completion() {
        assert Backed(servers, dq, j, event);
        SoonLater(servers, dq, e, j, event.serverId);
      }
    }
  }

  lemma PushManagerRegistered(s: State, cmd: ManagerCmd)
    requires Registered(s)
    requires cmd.DispatchEvent? ==> Backed(s.daemon.servers, s.daemon.dq, |s.daemon.dq|, cmd.event)
    ensures Registered(PushManager(s, cmd))
  {
  }

  /** Dropping the head of the queue, where a unit at the head has been stored. */
  lemma PoppedSoon(
    servers: map<UnitId, ServerUnitConfig>, dq: seq<DaemonEvent>, servers': map<UnitId, ServerUnitConfig>, n: nat, id: UnitId)
    requires 1 <= n <= |dq| && servers.Keys <= servers'.Keys
    requires dq[0].AddServerUnit? ==> dq[0].config.unit.id in servers'
    requires Soon(servers, dq, n, id)
    ensures Soon(servers', dq[1..], n - 1, id)
  {
    if id !in servers {
      var i :| 0 <= i < n && dq[i].AddServerUnit? && dq[i].config.unit.id == id;
      if i > 0 {
        assert dq[1..][i - 1] == dq[i];
      }
    }
  }

  lemma PoppedRegistered(s: State, servers': map<UnitId, ServerUnitConfig>)
    requires Registered(s) && s.daemon.dq != [] && s.daemon.servers.Keys <= servers'.Keys && Units(servers')
    requires s.daemon.dq[0].AddServerUnit? ==> s.daemon.dq[0].config.unit.id in servers'
    ensures Registered(s.(daemon := Popped(s).daemon.(servers := servers')))
  {
    var servers, dq := s.daemon.servers, s.daemon.dq;
    forall id | Soon(servers, dq, |dq|, id) ensures Soon(servers', dq[1..], |dq[1..]|, id) {
      PoppedSoon(servers, dq, servers', |dq|, id);
    }
    KeepsRest(servers, dq, servers', dq[1..], s.manager, s.threads, s.clients.streams);
    forall j | 0 <= j < |dq[1..]| && dq[1..][j].SendEvent? ensures Backed(servers', dq[1..], j, dq[1..][j].event) {
      var event := dq[j + 1].event;
      assert Backed(servers, dq, j + 1, event);
      if event.Completion() {
        PoppedSoon(servers, dq, servers', j + 1, event.serverId);
      }
    }
  }

  lemma SendToRegistered(s: State, c: ClientId, r: DaemonResponse)
    requires Registered(s)
    requires r.Notice? && r.event.Completion() ==> r.event.serverId in s.daemon.servers
    ensures Registered(SendTo(s, c, r))
  {
    PushManagerRegistered(s, RemoveAllSubscriptions(c));
  }

  lemma BroadcastRegistered(s: State)
    requires Registered(s)
    ensures Registered(Broadcast(s))
  {
  }

  /** Only these fields matter. */
  lemma SameRegistered(s: State, s': State)
    requires Registered(s)
    requires s'.daemon.servers == s.daemon.servers && s'.daemon.dq == s.daemon.dq
    requires s'.manager.mq == s.manager.mq && s'.manager.sending == s.manager.sending
    requires s'.threads == s.threads && s'.clients.streams == s.clients.streams && SafeHandler(s'.daemon.handler)
    ensures Registered(s')
  {
  }

  lemma TakeStoreRegistered(s: State, choice: Choice)
    requires Registered(s) && s.daemon.dq != [] && s.daemon.dq[0].AddServerUnit?
    ensures Registered(DoTake(s, choice))
  {
    var config := s.daemon.dq[0].config;
    PoppedRegistered(s, s.daemon.servers[config.unit.id := config]);
  }

  lemma TakeEventRegistered(s: State, choice: Choice)
    requires Registered(s) && s.daemon.dq != [] && s.daemon.dq[0].SendEvent?
    ensures Registered(DoTake(s, choice))
  {
    var d := Delivery(s.daemon.dq[0].clientId, s.daemon.dq[0].event);
    assert Backed(s.daemon.servers, s.daemon.dq, 0, d.event);
    PoppedRegistered(s, s.daemon.servers);
    SameRegistered(s.(daemon := Popped(s).daemon.(servers := s.daemon.servers)), Noted(Popped(s), d));
    SendToRegistered(Noted(Popped(s), d), d.client, Notice(d.event));
  }

  lemma {:induction false} BeginSafe(s: State, id: ClientId, cmd: DaemonCmd, choice: Choice)
    requires Units(s.daemon.servers) && Plausible(s.daemon.servers, cmd, choice.script)
    ensures SafeHandler(Some(Begin(s, id, cmd, choice)))
  {
    if cmd.Start? || cmd.InstallServer? || (cmd.UpdateServer? && cmd.unitId in s.daemon.servers) {
      PlausibleRegistersFirst(s.daemon.servers, cmd, choice.script);
    }
    ProgramSafe(s.daemon.servers, cmd, choice);
  }

  lemma {:induction false} TakeCommandRegistered(s: State, choice: Choice)
    requires Registered(s) && s.daemon.dq != [] && s.daemon.dq[0].IncomingCmd?
    requires Plausible(s.daemon.servers, s.daemon.dq[0].cmd, choice.script)
    ensures Registered(DoTake(s, choice))
  {
    var id, cmd := s.daemon.dq[0].id, s.daemon.dq[0].cmd;
    BeginSafe(s, id, cmd, choice);
    PoppedRegistered(s, s.daemon.servers);
    SameRegistered(s.(daemon := Popped(s).daemon.(servers := s.daemon.servers)), DoTake(s, choice));
  }

  lemma TakeStopRegistered(s: State, choice: Choice)
    requires Registered(s) && s.daemon.dq != [] && (s.daemon.dq[0].StopRequested? || s.daemon.dq[0].SendStopped?)
    ensures Registered(DoTake(s, choice))
  {
    PoppedRegistered(s, s.daemon.servers);
    SameRegistered(s.(daemon := Popped(s).daemon.(servers := s.daemon.servers)), Popped(s));
    if s.daemon.dq[0].StopRequested? {
      PushDaemonRegistered(Popped(s), SendStopped);
    } else {
      BroadcastRegistered(Popped(s));
    }
  }

  lemma AnswerRegistered(s: State, h: Handler)
    requires Registered(s) && s.daemon.handler == Some(h) && h.pc >= |h.actions|
    ensures Registered(DoWork(s))
  {
    SameRegistered(s, Closed(s, h));
    SendToRegistered(Closed(s, h), h.client, h.response);
  }

  lemma LaunchRegistered(s: State, h: Handler)
    requires Registered(s) && s.daemon.handler == Some(h) && h.pc < |h.actions| && h.actions[h.pc].Launch?
    ensures Registered(DoLaunch(s, h, h.actions[h.pc].script))
  {
    assert SafeAction(h.actions[h.pc]);
  }

  lemma ActRegistered(s: State, h: Handler)
    requires Registered(s) && s.daemon.handler == Some(h) && h.pc < |h.actions| && !h.actions[h.pc].Launch?
    ensures Registered(DoWork(s))
  {
    assert SafeAction(h.actions[h.pc]);
    match h.actions[h.pc]
    case Subscribe(unit, eventType) =>
      SameRegistered(s, WithHandler(s, Sending(s, h)));
      PushManagerRegistered(WithHandler(s, Sending(s, h)), AddSubscription(unit, eventType, h.client));
    case Announce(unit, event) =>
      SameRegistered(s, WithHandler(s, Sending(s, h)));
      PushManagerRegistered(WithHandler(s, Sending(s, h)), Raise(unit, event));
    case RequestStop =>
      SameRegistered(s, WithHandler(s, Some(h.(pc := h.pc + 1))));
      PushDaemonRegistered(WithHandler(s, Some(h.(pc := h.pc + 1))), StopRequested);
  }

  lemma {:induction false} FanoutEvents(list: seq<ClientId>, event: ServerEvent)
    ensures forall i :: 0 <= i < |Fanout(list, event)| ==> Fanout(list, event)[i].event == event
  {
    if list != [] {
      FanoutEvents(list[1..], event);
    }
  }

  lemma ManageRegistered(keep: Keep, s: State)
    requires Registered(s) && s.manager.mq != []
    ensures Registered(DoManage(keep, s))
  {
    var m := s.manager;
    if m.mq[0].DispatchEvent? {
      FanoutEvents(Listeners(m.subs, (m.mq[0].serverId, EventType(m.mq[0].event))), m.mq[0].event);
      assert forall j :: 0 <= j < |DoManage(keep, s).manager.sending| ==>
        DoManage(keep, s).manager.sending[j].event == m.mq[0].event;
    }
  }

  lemma EmitRegistered(s: State)
    requires Registered(s) && s.manager.sending != []
    ensures Registered(DoEmit(s))
  {
    var d := s.manager.sending[0];
    assert Backed(s.daemon.servers, s.daemon.dq, |s.daemon.dq|, d.event);
    PushDaemonRegistered(s.(manager := s.manager.(sending := s.manager.sending[1..])), SendEvent(d.client, d.event));
  }

  /** A thread hands a unit over: from then on it is about to be stored. */
  lemma HandOverRegistered(s: State, t: nat)
    requires Registered(s) && t < |s.threads| && s.threads[t].pc < |s.threads[t].actions|
    requires s.threads[t].actions[s.threads[t].pc].Register?
    ensures Registered(DoRun(s, t))
  {
    var thread := s.threads[t];
    var config := thread.actions[thread.pc].config;
    var e := AddServerUnit(config);
    var servers, dq := s.daemon.servers, s.daemon.dq;
    assert BackedThread(servers, dq, thread) && StorableAction(thread.actions[thread.pc]);
    PushDaemonRegistered(s, e);
    var s' := PushDaemon(s, e);
    assert BackedThread(servers, s'.daemon.dq, thread);
    assert s'.daemon.dq[|dq|] == e;
    assert Soon(servers, s'.daemon.dq, |s'.daemon.dq|, config.unit.id);
    assert BackedThread(servers, s'.daemon.dq, thread.(pc := thread.pc + 1));
  }

  lemma RaiseRegistered(s: State, t: nat)
    requires Registered(s) && t < |s.threads| && s.threads[t].pc < |s.threads[t].actions|
    requires s.threads[t].actions[s.threads[t].pc].RaiseEvent?
    ensures Registered(DoRun(s, t))
  {
    var thread := s.threads[t];
    var action := thread.actions[thread.pc];
    assert BackedThread(s.daemon.servers, s.daemon.dq, thread);
    PushManagerRegistered(s, Raise(action.unit, action.event));
  }

  lemma RegisteredStep(keep: Keep, s: State, step: Step)
    requires Registered(s) && Enabled(s, step) && Faithful(s, step)
    ensures Registered(Apply(keep, s, step))
  {
    match step
    case Take(choice) =>
      if s.daemon.dq[0].IncomingCmd? {
        TakeCommandRegistered(s, choice);
      } else if s.daemon.dq[0].SendEvent? {
        TakeEventRegistered(s, choice);
      } else if s.daemon.dq[0].AddServerUnit? {
        TakeStoreRegistered(s, choice);
      } else {
        TakeStopRegistered(s, choice);
      }
    case Work =>
      var h := s.daemon.handler.value;
      if h.pc >= |h.actions| {
        AnswerRegistered(s, h);
      } else if h.actions[h.pc].Launch? {
        LaunchRegistered(s, h);
      } else {
        ActRegistered(s, h);
      }
    case Manage => ManageRegistered(keep, s);
    case EmitNext => EmitRegistered(s);
    case Forward(at) =>
      PushDaemonRegistered(Unsent(s, at), IncomingCmd(s.clients.outbox[at].client, s.clients.outbox[at].cmd));
    case RunThread(t) =>
      if s.threads[t].actions[s.threads[t].pc].Register? {
        HandOverRegistered(s, t);
      } else {
        RaiseRegistered(s, t);
      }
    case HangUp(client) => PushManagerRegistered(s, RemoveAllSubscriptions(client));
    case _ =>
  }
}
