/** The daemon thread's receive loop: handling one message at a time amounts to the steps the
    transition system takes for it. */
module DaemonLoop {
  import opened Sequences
  import opened Protocol
  import opened Subscriptions
  import opened Channels
  import opened Workers
  import opened Senders
  import opened DaemonThread
  import System
  import Lifecycle

  // ---------- The steps for one command ----------

  /** The command at hand, worked off to its end. */
  function WorkedOff(s: System.State): System.State
    decreases match s.daemon.handler case None => 0 case Some(h) => 1 + if h.pc < |h.actions| then |h.actions| - h.pc else 0
  {
    if s.daemon.handler.None? then s else WorkedOff(System.DoWork(s))
  }

  /** It takes one step for each action, and one for the response. */
  lemma {:induction false} WorkedOffIsARun(keep: Keep, s: System.State, h: System.Handler) returns (steps: seq<System.Step>)
    requires s.daemon.handler == Some(h) && h.pc <= |h.actions| && !s.daemon.exited && !s.daemon.crashed
    ensures |steps| == |h.actions| - h.pc + 1 && forall i :: 0 <= i < |steps| ==> steps[i] == System.Work
    ensures System.Possible(keep, s, steps) && System.Exec(keep, s, steps) == WorkedOff(s)
    decreases |h.actions| - h.pc
  {
    var s' := System.DoWork(s);
    if h.pc < |h.actions| {
      ActKeeps(s, h);
      var rest := WorkedOffIsARun(keep, s', s'.daemon.handler.value);
      steps := [System.Work] + rest;
      assert steps[1..] == rest;
    } else {
      steps := [System.Work];
      assert steps[1..] == [];
    }
  }

  lemma ActKeeps(s: System.State, h: System.Handler)
    requires s.daemon.handler == Some(h) && h.pc < |h.actions|
    ensures var d' := System.DoWork(s).daemon;
            && !d'.handler.None? && d'.exited == s.daemon.exited && d'.crashed == s.daemon.crashed && d'.servers == s.daemon.servers
            && d'.handler.value.client == h.client && d'.handler.value.response == h.response
            && d'.handler.value.actions == h.actions && d'.handler.value.pc == h.pc + 1
    ensures System.DoWork(s).manager.hist == s.manager.hist + System.PushedAction(h.client)(h.actions[h.pc])
    ensures System.DoWork(s).daemon.arrivals == s.daemon.arrivals + StopsIn(h.actions[h.pc])
    ensures System.DoWork(s).clients == s.clients
  {
  }

  /** What the daemon thread has sent and stored. */
  datatype Effects = Effects(
    streams: Streams, dead: set<ClientId>, hist: seq<ManagerCmd>, arrivals: seq<DaemonEvent>, servers: map<UnitId, ServerUnitConfig>)

  function EffectsOf(s: System.State): Effects {
    Effects(s.clients.streams, s.clients.dead, s.manager.hist, s.daemon.arrivals, s.daemon.servers)
  }

  /** A message to a client. */
  function Told(e: Effects, client: ClientId, response: DaemonResponse): Effects
    requires client in e.streams
  {
    if client in e.dead then e.(hist := e.hist + [RemoveAllSubscriptions(client)])
    else e.(streams := e.streams[client := e.streams[client] + [response]])
  }

  function Sent(e: Effects, client: ClientId, actions: seq<System.HandlerAction>): Effects {
    e.(hist := e.hist + System.PushedBy(client, actions), arrivals := e.arrivals + Collect(actions, StopsIn))
  }

  lemma ReplyEffects(s: System.State, h: System.Handler)
    requires s.daemon.handler == Some(h) && h.pc >= |h.actions| && h.client in s.clients.streams
    ensures System.DoWork(s).daemon.handler.None?
    ensures EffectsOf(System.DoWork(s)) == Told(EffectsOf(s), h.client, h.response)
  {
  }

  lemma MoreSent(e: Effects, client: ClientId, a: System.HandlerAction, rest: seq<System.HandlerAction>)
    ensures Sent(e, client, [a] + rest)
         == Sent(e.(hist := e.hist + System.PushedAction(client)(a), arrivals := e.arrivals + StopsIn(a)), client, rest)
    ensures Sent(e, client, []) == e
  {
    assert ([a] + rest)[1..] == rest;
    var f := System.PushedAction(client);
    assert e.hist + f(a) + Collect(rest, f) == e.hist + (f(a) + Collect(rest, f));
    assert e.arrivals + StopsIn(a) + Collect(rest, StopsIn) == e.arrivals + (StopsIn(a) + Collect(rest, StopsIn));
  }

  lemma {:induction false} WorkedOffEffects(s: System.State, h: System.Handler)
    requires s.daemon.handler == Some(h) && h.pc <= |h.actions| && h.client in s.clients.streams
    ensures EffectsOf(WorkedOff(s)) == Told(Sent(EffectsOf(s), h.client, h.actions[h.pc..]), h.client, h.response)
    decreases |h.actions| - h.pc
  {
    var s' := System.DoWork(s);
    if h.pc < |h.actions| {
      ActKeeps(s, h);
      WorkedOffEffects(s', s'.daemon.handler.value);
      MoreSent(EffectsOf(s), h.client, h.actions[h.pc], h.actions[h.pc + 1..]);
      assert h.actions[h.pc..] == [h.actions[h.pc]] + h.actions[h.pc + 1..];
    } else {
      ReplyEffects(s, h);
      MoreSent(EffectsOf(s), h.client, System.RequestStop, []);
      assert h.actions[h.pc..] == [];
    }
  }

  /** Taking a command and working it off makes its sends and then its response. */
  lemma CommandEffects(s: System.State, client: ClientId, cmd: DaemonCmd, choice: System.Choice)
    requires s.daemon.dq != [] && s.daemon.dq[0] == IncomingCmd(client, cmd) && client in s.clients.streams
    ensures EffectsOf(WorkedOff(System.DoTake(s, choice)))
         == Told(Sent(EffectsOf(s), client, System.Program(s.daemon.servers, cmd, choice)), client,
                 System.Answer(s.daemon.servers, cmd, choice))
  {
    var s' := System.DoTake(s, choice);
    var h := s'.daemon.handler.value;
    assert h == System.Begin(s, client, cmd, choice) && h.actions[0..] == h.actions;
    assert EffectsOf(s') == EffectsOf(s);
    WorkedOffEffects(s', h);
  }

  // ---------- The loop ----------

  /** The daemon thread: its servers and the senders it answers through. */
  class Loop {
    const daemon: Daemon
    const senders: SenderMap

    constructor (daemon: Daemon, senders: SenderMap)
      ensures this.daemon == daemon && this.senders == senders
    {
      this.daemon, this.senders := daemon, senders;
    }

    ghost predicate Valid()
      reads daemon, daemon.os, daemon.repr
    {
      daemon.Valid() && senders !in daemon.repr
    }

    ghost function Now(): Effects
      reads daemon, senders, daemon.outbox.eventManager, daemon.outbox.queueSender
    {
      Effects(senders.streams, senders.dead, daemon.outbox.eventManager.items, daemon.outbox.queueSender.items, Configs(daemon.views))
    }

    method Answer(client: ClientId, response: DaemonResponse)
      requires Valid() && client in senders.streams
      modifies daemon.outbox.eventManager, senders`streams
      ensures Valid() && Now() == Told(old(Now()), client, response)
      ensures daemon.Fleet(Lifecycle.Serving) == old(daemon.Fleet(Lifecycle.Serving))
    {
      senders.Reply(client, response, daemon.outbox.eventManager);
      assert daemon.outbox.eventManager.items + [] == daemon.outbox.eventManager.items;
    }

    method Handle(client: ClientId, cmd: DaemonCmd, ghost script: seq<ThreadAction>) returns (response: DaemonResponse)
      requires Valid()
      modifies daemon`views, daemon`jobs, daemon.outbox, daemon.outbox.eventManager, daemon.outbox.queueSender,
               daemon.os`processes, daemon.repr
      ensures Valid() && senders.streams == old(senders.streams)
      ensures var choice := ChoiceFor(old(daemon.os.processes), old(daemon.views), cmd, script);
              && Now() == Sent(old(Now()), client, System.Program(old(Now()).servers, cmd, choice))
              && response == System.Answer(old(Now()).servers, cmd, choice)
      ensures daemon.Fleet(Lifecycle.Serving) == FleetAfter(old(daemon.Fleet(Lifecycle.Serving)), cmd)
    {
      ghost var log := daemon.outbox.Now();
      FleetConfigs(daemon.Fleet(Lifecycle.Serving), cmd);
      response := daemon.HandleCmd(cmd, client, script, log);
    }

    /** A command: what is sent and stored is what the steps for it send and store. */
    method TakeCommand(client: ClientId, cmd: DaemonCmd, ghost script: seq<ThreadAction>, ghost s: System.State)
      requires Valid() && client in senders.streams
      requires EffectsOf(s) == Now() && s.daemon.dq != [] && s.daemon.dq[0] == IncomingCmd(client, cmd)
      modifies daemon`views, daemon`jobs, daemon.outbox, daemon.outbox.eventManager, daemon.outbox.queueSender,
               daemon.os`processes, daemon.repr, senders`streams
      ensures Valid()
      ensures Now() == EffectsOf(WorkedOff(System.DoTake(s, ChoiceFor(old(daemon.os.processes), old(daemon.views), cmd, script))))
      ensures daemon.Fleet(Lifecycle.Serving) == FleetAfter(old(daemon.Fleet(Lifecycle.Serving)), cmd)
    {
      CommandEffects(s, client, cmd, ChoiceFor(daemon.os.processes, daemon.views, cmd, script));
      var response := Handle(client, cmd, script);
      Answer(client, response);
    }

    /** Stops the servers and then asks for the last message; stuck if a server never gets to
        the point. */
    method TakeStop() returns (done: bool, ghost steps: seq<Lifecycle.Step>, ghost end: Lifecycle.State)
      requires Valid()
      modifies daemon`views, daemon.outbox.queueSender, daemon.os, daemon.repr
      ensures Valid() && Now() == old(Now()).(arrivals := old(Now()).arrivals + if done then [SendStopped] else [])
      ensures Lifecycle.RunsTo(old(daemon.Fleet(Lifecycle.Serving)), steps, end) && daemon.At(end)
      ensures if done then end.phase.Ended? else daemon.os.coming == []
    {
      daemon.ConfigsShown();
      done, steps, end := daemon.StopServers();
      daemon.ConfigsShown();
      assert daemon.outbox.queueSender.items + [] == daemon.outbox.queueSender.items;
      if done {
        daemon.outbox.queueSender.Send(SendStopped);
      }
    }

    method TakeUnit(config: ServerUnitConfig)
      requires Valid()
      modifies daemon`servers, daemon`repr, daemon`views
      ensures Valid() && fresh(daemon.repr - old(daemon.repr))
      ensures Now() == Stored(old(Now()), config)
      ensures daemon.Fleet(Lifecycle.Serving) == Lifecycle.DoAdd(old(daemon.Fleet(Lifecycle.Serving)), config)
    {
      AddConfigs(daemon.Fleet(Lifecycle.Serving), config);
      daemon.AddServerUnit(config);
    }

    /** One message of the queue. What is sent and stored is what the steps for the message
        send and store; `done` is false only if the servers can not be stopped. */
    method Take(event: DaemonEvent, ghost script: seq<ThreadAction>, ghost s: System.State) returns (done: bool)
      requires Valid() && EffectsOf(s) == Now() && s.daemon.handler.None? && s.daemon.dq != [] && s.daemon.dq[0] == event
      requires event.IncomingCmd? ==> event.id in senders.streams
      requires event.SendEvent? ==> event.clientId in senders.streams
      modifies daemon`servers, daemon`repr, daemon`views, daemon`jobs, daemon.outbox, daemon.outbox.eventManager,
               daemon.outbox.queueSender, daemon.os, daemon.repr, senders`streams
      ensures Valid() && (!done ==> event.StopRequested? && daemon.os.coming == [])
      ensures done ==> Now() == EffectsOf(WorkedOff(System.DoTake(s, ChoiceOf(old(daemon.os.processes), old(daemon.views), event, script))))
    {
      done := true;
      match event
      case IncomingCmd(client, cmd) => TakeCommand(client, cmd, script, s);
      case SendEvent(client, serverEvent) =>
        EventEffects(s, client, serverEvent, ChoiceOf(daemon.os.processes, daemon.views, event, script));
        Answer(client, Notice(serverEvent));
      case AddServerUnit(config) =>
        OtherEffects(s, ChoiceOf(daemon.os.processes, daemon.views, event, script));
        TakeUnit(config);
      case StopRequested =>
        OtherEffects(s, ChoiceOf(daemon.os.processes, daemon.views, event, script));
        ghost var steps, end;
        done, steps, end := TakeStop();
      case SendStopped =>
        OtherEffects(s, ChoiceOf(daemon.os.processes, daemon.views, event, script));
        senders.Broadcast(DaemonStopped);
    }
  }

  function ChoiceOf(
    processes: seq<Lifecycle.Process>, views: map<UnitId, Lifecycle.Entry>, event: DaemonEvent, script: seq<ThreadAction>): System.Choice
  {
    ChoiceFor(processes, views, if event.IncomingCmd? then event.cmd else StopDaemon, script)
  }

  function Stored(e: Effects, config: ServerUnitConfig): Effects {
    if config.server.typeName == "paper" then e.(servers := e.servers[config.unit.id := config]) else e
  }

  lemma EventEffects(s: System.State, client: ClientId, event: ServerEvent, choice: System.Choice)
    requires s.daemon.dq != [] && s.daemon.dq[0] == SendEvent(client, event) && client in s.clients.streams && s.daemon.handler.None?
    ensures EffectsOf(WorkedOff(System.DoTake(s, choice))) == Told(EffectsOf(s), client, Notice(event))
  {
  }

  lemma OtherEffects(s: System.State, choice: System.Choice)
    requires s.daemon.dq != [] && s.daemon.handler.None?
    ensures var e, e' := EffectsOf(s), EffectsOf(WorkedOff(System.DoTake(s, choice)));
            match s.daemon.dq[0]
            case AddServerUnit(config) => e' == Stored(e, config)
            case StopRequested => e' == e.(arrivals := e.arrivals + [SendStopped])
            case SendStopped =>
              e' == e.(streams := map id | id in e.streams :: if id in e.dead then e.streams[id] else e.streams[id] + [DaemonStopped])
            case _ => true
  {
  }

  lemma AddConfigs(s: Lifecycle.State, config: ServerUnitConfig)
    ensures Configs(Lifecycle.DoAdd(s, config).servers)
         == if config.server.typeName == "paper" then Configs(s.servers)[config.unit.id := config] else Configs(s.servers)
  {
  }

  /** Handling a command changes no configuration. */
  lemma FleetConfigs(s: Lifecycle.State, cmd: DaemonCmd)
    requires Lifecycle.AllLinked(s) && s.phase.Serving?
    ensures Configs(FleetAfter(s, cmd).servers) == Configs(s.servers)
  {
  }
}
