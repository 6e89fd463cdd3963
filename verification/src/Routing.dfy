/** Every event is dispatched under the id of the unit it is about, which is the id that
    subscriptions name. */
module Routing {
  import opened Sequences
  import opened Protocol
  import opened Subscriptions
  import opened System
  import opened Workers
  import opened Answers
  import opened Replies
  import opened Provenance
  import opened Hearing
  import Semver
  import Installer
  import Updater
  import LogParser

  predicate RoutedCmd(m: ManagerCmd) {
    m.DispatchEvent? ==> m.event.serverId == m.serverId
  }

  ghost predicate RoutedScript(script: seq<ThreadAction>) {
    forall j :: 0 <= j < |script| && script[j].RaiseEvent? ==> script[j].event.serverId == script[j].unit
  }

  ghost predicate RoutedThreads(threads: seq<Thread>) {
    forall t :: 0 <= t < |threads| ==> RoutedScript(threads[t].actions)
  }

  ghost predicate RoutedHistory(hist: seq<ManagerCmd>) {
    forall i :: 0 <= i < |hist| ==> RoutedCmd(hist[i])
  }

  ghost predicate Routed(s: State) {
    RoutedHistory(s.manager.hist) && RoutedHistory(s.manager.mq) && RoutedThreads(s.threads)
  }

  lemma JobRouted<E>(install: bool, unit: UnitId, run: Run<ServerUnitConfig, E>, describe: E -> string)
    requires run.outcome.Finished? ==> run.outcome.value.unit.id == unit
    ensures RoutedScript(JobScript(install, unit, run, describe))
  {
    var script := JobScript(install, unit, run, describe);
    forall j | 0 <= j < |script| && script[j].RaiseEvent? ensures script[j].event.serverId == script[j].unit {
      JobScriptAt(install, unit, run, describe, j);
    }
  }

  lemma LogRouted(unit: UnitId, lines: seq<LogParser.Line>)
    ensures RoutedScript(LogParser.Script(unit, lines))
  {
  }

  lemma InstallRouted(request: InstallRequest, env: Installer.InstallEnv)
    ensures RoutedScript(Installer.InstallScript(request, env))
  {
    Installer.InstallOutcome(request, env);
    JobRouted(true, request.unitId, Installer.PerformRun(request, env), env.describe);
  }

  lemma UpdateRouted(requested: Option<Semver.Version>, config: ServerUnitConfig, env: Updater.UpdateEnv)
    ensures RoutedScript(Updater.UpdateScript(requested, config, env))
  {
    Updater.UpdateOutcome(requested, config, env);
    JobRouted(false, config.unit.id, Updater.PerformRun(requested, config, env), env.describe);
  }

  lemma PlausibleRouted(servers: map<UnitId, ServerUnitConfig>, cmd: DaemonCmd, script: seq<ThreadAction>)
    requires Plausible(servers, cmd, script)
    ensures cmd.Start? || cmd.InstallServer? || (cmd.UpdateServer? && cmd.unitId in servers) ==> RoutedScript(script)
  {
    match cmd
    case Start(id, _) =>
      var lines :| script == LogParser.Script(id, lines);
      LogRouted(id, lines);
    case InstallServer(request) =>
      var env :| script == Installer.InstallScript(request, env);
      InstallRouted(request, env);
    case UpdateServer(id, requested) =>
      if id in servers {
        var env :| script == Updater.UpdateScript(requested, servers[id], env);
        UpdateRouted(requested, servers[id], env);
      }
    case _ =>
  }

  ghost predicate RoutedAction(a: HandlerAction) {
    match a
    case Announce(unit, event) => event.serverId == unit
    case Launch(script) => RoutedScript(script)
    case _ => true
  }

  lemma ProgramRouted(servers: map<UnitId, ServerUnitConfig>, cmd: DaemonCmd, choice: Choice, i: nat)
    requires cmd.Start? || cmd.InstallServer? || (cmd.UpdateServer? && cmd.unitId in servers) ==> RoutedScript(choice.script)
    requires i < |Program(servers, cmd, choice)|
    ensures RoutedAction(Program(servers, cmd, choice)[i])
  {
  }

  lemma {:induction false} ProperRouted(h: Handler, i: nat)
    requires Proper(h) && i < |h.actions|
    ensures RoutedAction(h.actions[i])
  {
    var choice :| ProperFor(h, choice);
    PlausibleRouted(h.seen, h.cmd, choice.script);
    ProgramRouted(h.seen, h.cmd, choice, i);
  }

  lemma PushRouted(s: State, m: ManagerCmd)
    requires Routed(s) && RoutedCmd(m)
    ensures Routed(PushManager(s, m))
  {
  }

  lemma SendToRouted(s: State, c: ClientId, r: DaemonResponse)
    requires Routed(s)
    ensures Routed(SendTo(s, c, r))
  {
    PushRouted(s, RemoveAllSubscriptions(c));
  }

  lemma WorkRouted(s: State, h: Handler)
    requires Routed(s) && s.daemon.handler == Some(h)
    requires h.pc < |h.actions| ==> RoutedAction(h.actions[h.pc])
    ensures Routed(DoWork(s))
  {
    if h.pc >= |h.actions| {
      SendToRouted(Closed(s, h), h.client, h.response);
    } else {
      match h.actions[h.pc]
      case Subscribe(unit, eventType) => PushRouted(WithHandler(s, Sending(s, h)), AddSubscription(unit, eventType, h.client));
      case Announce(unit, event) => PushRouted(WithHandler(s, Sending(s, h)), Raise(unit, event));
      case _ =>
    }
  }

  lemma RunRouted(s: State, t: nat)
    requires Routed(s) && t < |s.threads| && s.threads[t].pc < |s.threads[t].actions|
    ensures Routed(DoRun(s, t))
  {
    var thread := s.threads[t];
    assert RoutedThreads(DoRun(s, t).threads);
    assert thread.actions[thread.pc].RaiseEvent? ==> RoutedCmd(Raise(thread.actions[thread.pc].unit, thread.actions[thread.pc].event));
  }

  lemma {:induction false} RoutedStep(keep: Keep, s: State, step: Step)
    requires Routed(s) && AllProper(s.daemon) && Enabled(s, step)
    ensures Routed(Apply(keep, s, step))
  {
    match step
    case Take(choice) =>
      if s.daemon.dq[0].SendEvent? {
        SendToRouted(Noted(Popped(s), Delivery(s.daemon.dq[0].clientId, s.daemon.dq[0].event)),
                     s.daemon.dq[0].clientId, Notice(s.daemon.dq[0].event));
      }
    case Work =>
      var h := s.daemon.handler.value;
      if h.pc < |h.actions| {
        ProperRouted(h, h.pc);
      }
      WorkRouted(s, h);
    case HangUp(client) => PushRouted(s.(clients := s.clients.(open := s.clients.open - {client})), RemoveAllSubscriptions(client));
    case RunThread(t) => RunRouted(s, t);
    case _ =>
  }

  /** Whoever subscribed for one unit only hears of that unit only. */
  lemma {:induction false} HeardOfUnit(hist: seq<ManagerCmd>, c: ClientId, id: UnitId)
    requires RoutedHistory(hist) && forall key :: key in KeysAdded(hist, c) ==> key.0 == id
    ensures forall event :: event in Heard(hist, c) ==> event.serverId == id
  {
    if hist != [] {
      var front, cmd := hist[..|hist| - 1], hist[|hist| - 1];
      assert hist == front + [cmd];
      CollectSnoc(front, cmd, AddedBy(c));
      HeardOfUnit(front, c, id);
    }
  }
}
