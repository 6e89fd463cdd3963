/** The lookups in worker threads: a build where one is expected, a path where one is needed. */
module Builds {
  import opened Sequences
  import opened Protocol
  import opened Subscriptions
  import opened System
  import opened Workers
  import Semver
  import Config
  import Installer
  import Updater
  import LogParser
  import Jars

  /** Apart from the download and the patch command, an update panics exactly if
      the installed version has no build and does not precede the target; and the target
      always has one. */
  lemma UpdatePanicsExactlyWhen(requested: Option<Semver.Version>, config: ServerUnitConfig, env: Updater.UpdateEnv)
    requires !env.download.DownloadPanics? && !env.patch.PatchPanics?
    ensures Updater.PerformRun(requested, config, env).outcome.Panicked?
        <==> var target := Updater.Target(requested, env.repo);
             && target.Success? && target.value.version.build != []
             && config.server.version.build == [] && Semver.AtLeast(config.server.version, target.value.version)
  {
  }

  /** An installation that succeeds was given a path for its unit file; it never panics
      except for the download and the patch command. */
  lemma InstallNeedsPath(request: InstallRequest, env: Installer.InstallEnv)
    ensures Installer.PerformRun(request, env).outcome.Finished? ==> request.unitFilePath.Some?
    ensures Installer.PerformRun(request, env).outcome.Panicked? ==> env.download.DownloadPanics? || env.patch.PatchPanics?
  {
  }

  // ---------- Every unit is as it was loaded, or has a build and its jar ----------

  ghost predicate Written(script: seq<ThreadAction>) {
    forall j :: 0 <= j < |script| && script[j].Register? ==> Updater.Coherent(script[j].config.server)
  }

  ghost predicate WrittenActions(actions: seq<HandlerAction>) {
    forall i :: 0 <= i < |actions| && actions[i].Launch? ==> Written(actions[i].script)
  }

  ghost predicate WrittenQueue(dq: seq<DaemonEvent>) {
    forall i :: 0 <= i < |dq| && dq[i].AddServerUnit? ==> Updater.Coherent(dq[i].config.server)
  }

  /** The unit is the one loaded at the start, unchanged. */
  predicate AsLoaded(loaded: map<UnitId, ServerUnitConfig>, id: UnitId, config: ServerUnitConfig) {
    id in loaded && loaded[id] == config
  }

  ghost predicate LoadedOrWritten(loaded: map<UnitId, ServerUnitConfig>, servers: map<UnitId, ServerUnitConfig>) {
    forall id :: id in servers ==>
      servers[id].server.typeName == "paper" && (AsLoaded(loaded, id, servers[id]) || Updater.Coherent(servers[id].server))
  }

  ghost predicate AllWritten(loaded: map<UnitId, ServerUnitConfig>, s: State) {
    && LoadedOrWritten(loaded, s.daemon.servers) && WrittenQueue(s.daemon.dq)
    && (forall t :: 0 <= t < |s.threads| ==> Written(s.threads[t].actions))
    && (s.daemon.handler.Some? ==> WrittenActions(s.daemon.handler.value.actions))
  }

  lemma JobWrites<E>(install: bool, unit: UnitId, run: Run<ServerUnitConfig, E>, describe: E -> string)
    requires run.outcome.Finished? ==> Updater.Coherent(run.outcome.value.server)
    ensures Written(JobScript(install, unit, run, describe))
  {
    var script := JobScript(install, unit, run, describe);
    forall j | 0 <= j < |script| && script[j].Register? ensures Updater.Coherent(script[j].config.server) {
      JobScriptAt(install, unit, run, describe, j);
    }
  }

  lemma InstallWrites(request: InstallRequest, env: Installer.InstallEnv)
    ensures Written(Installer.InstallScript(request, env))
  {
    Installer.InstallOutcome(request, env);
    JobWrites(true, request.unitId, Installer.PerformRun(request, env), env.describe);
  }

  lemma UpdateWrites(requested: Option<Semver.Version>, config: ServerUnitConfig, env: Updater.UpdateEnv)
    requires config.server.typeName == "paper"
    ensures Written(Updater.UpdateScript(requested, config, env))
  {
    Updater.UpdateOutcome(requested, config, env);
    JobWrites(false, config.unit.id, Updater.PerformRun(requested, config, env), env.describe);
  }

  lemma {:induction false} PlausibleWrites(
    loaded: map<UnitId, ServerUnitConfig>, servers: map<UnitId, ServerUnitConfig>, cmd: DaemonCmd, script: seq<ThreadAction>)
    requires LoadedOrWritten(loaded, servers) && Plausible(servers, cmd, script)
    requires cmd.Start? || cmd.InstallServer? || (cmd.UpdateServer? && cmd.unitId in servers)
    ensures Written(script)
  {
    match cmd
    case Start(id, _) => var lines :| script == LogParser.Script(id, lines);
    case InstallServer(request) =>
      var env :| script == Installer.InstallScript(request, env);
      InstallWrites(request, env);
    case UpdateServer(id, requested) =>
      var env :| script == Updater.UpdateScript(requested, servers[id], env);
      UpdateWrites(requested, servers[id], env);
  }

  lemma ProgramWrites(servers: map<UnitId, ServerUnitConfig>, cmd: DaemonCmd, choice: Choice)
    requires cmd.Start? || cmd.InstallServer? || (cmd.UpdateServer? && cmd.unitId in servers) ==> Written(choice.script)
    ensures WrittenActions(Program(servers, cmd, choice))
  {
  }

  lemma SameWritten(loaded: map<UnitId, ServerUnitConfig>, s: State, s': State)
    requires AllWritten(loaded, s) && LoadedOrWritten(loaded, s'.daemon.servers) && WrittenQueue(s'.daemon.dq)
    requires s'.threads == s.threads
    requires s'.daemon.handler.Some? ==> WrittenActions(s'.daemon.handler.value.actions)
    ensures AllWritten(loaded, s')
  {
  }

  lemma {:induction false} BeginWritten(loaded: map<UnitId, ServerUnitConfig>, s: State, choice: Choice)
    requires AllWritten(loaded, s) && s.daemon.dq != [] && s.daemon.dq[0].IncomingCmd?
    requires Plausible(s.daemon.servers, s.daemon.dq[0].cmd, choice.script)
    ensures WrittenActions(Begin(s, s.daemon.dq[0].id, s.daemon.dq[0].cmd, choice).actions)
  {
    var servers, cmd := s.daemon.servers, s.daemon.dq[0].cmd;
    if cmd.Start? || cmd.InstallServer? || (cmd.UpdateServer? && cmd.unitId in servers) {
      PlausibleWrites(loaded, servers, cmd, choice.script);
    }
    ProgramWrites(servers, cmd, choice);
  }

  lemma TakeChanges(s: State, choice: Choice)
    requires s.daemon.dq != [] && s.daemon.handler.None?
    ensures var first, s' := s.daemon.dq[0], DoTake(s, choice);
            && s'.threads == s.threads
            && s'.daemon.dq == s.daemon.dq[1..] + (if first.StopRequested? then [SendStopped] else [])
            && s'.daemon.servers == (if first.AddServerUnit? then Store(s, first.config).daemon.servers else s.daemon.servers)
            && s'.daemon.handler == if first.IncomingCmd? then Some(Begin(s, first.id, first.cmd, choice)) else None
  {
    AppendNothing(s.daemon.dq[1..]);
    match s.daemon.dq[0]
    case SendEvent(client, event) => SendToChanges(Noted(Popped(s), Delivery(client, event)), client, Notice(event));
    case _ =>
  }

  /** A send to a client stores and launches nothing. */
  lemma SendToChanges(s: State, client: ClientId, response: DaemonResponse)
    ensures var d, s' := s.daemon, SendTo(s, client, response);
            && s'.threads == s.threads && s'.daemon.dq == d.dq && s'.daemon.servers == d.servers && s'.daemon.handler == d.handler
  {
  }

  lemma StoreWritten(loaded: map<UnitId, ServerUnitConfig>, s: State, config: ServerUnitConfig)
    requires LoadedOrWritten(loaded, s.daemon.servers) && Updater.Coherent(config.server)
    ensures LoadedOrWritten(loaded, Store(s, config).daemon.servers)
  {
  }

  lemma TakeWritten(loaded: map<UnitId, ServerUnitConfig>, s: State, choice: Choice)
    requires AllWritten(loaded, s) && s.daemon.dq != [] && s.daemon.handler.None?
    requires s.daemon.dq[0].IncomingCmd? ==> WrittenActions(Begin(s, s.daemon.dq[0].id, s.daemon.dq[0].cmd, choice).actions)
    ensures AllWritten(loaded, DoTake(s, choice))
  {
    TakeChanges(s, choice);
    if s.daemon.dq[0].AddServerUnit? {
      StoreWritten(loaded, s, s.daemon.dq[0].config);
    }
    SameWritten(loaded, s, DoTake(s, choice));
  }

  lemma LaunchChanges(s: State, h: Handler)
    requires s.daemon.handler == Some(h) && h.pc < |h.actions| && h.actions[h.pc].Launch?
    ensures var s' := DoWork(s);
            && s'.daemon.servers == s.daemon.servers && s'.daemon.dq == s.daemon.dq
            && |s'.threads| == |s.threads| + 1 && s'.threads[|s.threads|].actions == h.actions[h.pc].script
            && (forall t :: 0 <= t < |s.threads| ==> s'.threads[t] == s.threads[t])
            && s'.daemon.handler.Some? && s'.daemon.handler.value.actions == h.actions
  {
  }

  lemma OtherWorkChanges(s: State, h: Handler)
    requires s.daemon.handler == Some(h) && !(h.pc < |h.actions| && h.actions[h.pc].Launch?)
    ensures var s' := DoWork(s);
            && s'.daemon.servers == s.daemon.servers && s'.threads == s.threads
            && (s'.daemon.dq == s.daemon.dq || s'.daemon.dq == s.daemon.dq + [StopRequested])
            && (s'.daemon.handler.Some? ==> s'.daemon.handler.value.actions == h.actions)
  {
  }

  lemma WorkWritten(loaded: map<UnitId, ServerUnitConfig>, s: State, h: Handler)
    requires AllWritten(loaded, s) && s.daemon.handler == Some(h)
    ensures AllWritten(loaded, DoWork(s))
  {
    if h.pc < |h.actions| && h.actions[h.pc].Launch? {
      LaunchChanges(s, h);
    } else {
      OtherWorkChanges(s, h);
      SameWritten(loaded, s, DoWork(s));
    }
  }

  lemma RunWritten(loaded: map<UnitId, ServerUnitConfig>, s: State, t: nat)
    requires AllWritten(loaded, s) && t < |s.threads| && s.threads[t].pc < |s.threads[t].actions|
    ensures AllWritten(loaded, DoRun(s, t))
  {
    var s', action := DoRun(s, t), s.threads[t].actions[s.threads[t].pc];
    assert forall i :: 0 <= i < |s'.threads| ==> s'.threads[i].actions == s.threads[i].actions;
    assert action.Register? ==> Updater.Coherent(action.config.server);
  }

  lemma {:induction false} WrittenStep(loaded: map<UnitId, ServerUnitConfig>, keep: Keep, s: State, step: Step)
    requires AllWritten(loaded, s) && Enabled(s, step) && Faithful(s, step)
    ensures AllWritten(loaded, Apply(keep, s, step))
  {
    match step
    case Take(choice) =>
      if s.daemon.dq[0].IncomingCmd? {
        BeginWritten(loaded, s, choice);
      }
      TakeWritten(loaded, s, choice);
    case Work => WorkWritten(loaded, s, s.daemon.handler.value);
    case RunThread(t) => RunWritten(loaded, s, t);
    case _ => SameWritten(loaded, s, Apply(keep, s, step));
  }

  lemma {:induction false} WrittenRun(loaded: map<UnitId, ServerUnitConfig>, keep: Keep, s: State, steps: seq<Step>)
    requires AllWritten(loaded, s) && Possible(keep, s, steps)
    ensures AllWritten(loaded, Exec(keep, s, steps))
    decreases |steps|
  {
    if steps != [] {
      WrittenStep(loaded, keep, s, steps[0]);
      WrittenRun(loaded, keep, Apply(keep, s, steps[0]), steps[1..]);
    }
  }

  lemma InitWritten(files: seq<Config.UnitFile>, logs: seq<seq<ThreadAction>>)
    requires LogScripts(logs)
    ensures AllWritten(Config.Servers(files), Init(files, logs))
  {
    Config.ServersAreCoherent(files);
    var threads := Init(files, logs).threads;
    forall t | 0 <= t < |threads| ensures Written(threads[t].actions) {
      var unit, lines :| logs[t] == LogParser.Script(unit, lines);
    }
  }

  /** In every run, every stored unit is one that was loaded at the start, unchanged, or has a
      build and the jar that belongs to its version. */
  lemma StoredUnits(keep: Keep, files: seq<Config.UnitFile>, logs: seq<seq<ThreadAction>>, steps: seq<Step>, id: UnitId)
    requires LogScripts(logs) && Possible(keep, Init(files, logs), steps)
    requires id in Exec(keep, Init(files, logs), steps).daemon.servers
    ensures var config := Exec(keep, Init(files, logs), steps).daemon.servers[id];
            AsLoaded(Config.Servers(files), id, config) || Updater.Coherent(config.server)
  {
    InitWritten(files, logs);
    WrittenRun(Config.Servers(files), keep, Init(files, logs), steps);
    assert LoadedOrWritten(Config.Servers(files), Exec(keep, Init(files, logs), steps).daemon.servers);
  }

  /** Apart from the download and the patch command, an update of a stored unit panics exactly
      if the unit is as it was loaded, without a build, and does not precede the target. */
  lemma StoredUnitPanicsExactlyWhen(
    keep: Keep, files: seq<Config.UnitFile>, logs: seq<seq<ThreadAction>>, steps: seq<Step>, id: UnitId,
    requested: Option<Semver.Version>, env: Updater.UpdateEnv)
    requires LogScripts(logs) && Possible(keep, Init(files, logs), steps)
    requires id in Exec(keep, Init(files, logs), steps).daemon.servers
    requires !env.download.DownloadPanics? && !env.patch.PatchPanics?
    ensures var config, target := Exec(keep, Init(files, logs), steps).daemon.servers[id], Updater.Target(requested, env.repo);
            Updater.PerformRun(requested, config, env).outcome.Panicked?
            <==> && AsLoaded(Config.Servers(files), id, config) && config.server.version.build == []
                 && target.Success? && Semver.AtLeast(config.server.version, target.value.version)
  {
    StoredUnits(keep, files, logs, steps, id);
    UpdatePanicsExactlyWhen(requested, Exec(keep, Init(files, logs), steps).daemon.servers[id], env);
  }

  /** An update that gets to its download writes over the jar of a stored unit at most if that
      unit is as it was loaded, with a jar of another name, or if pre-releases with hyphens
      are involved. */
  lemma StoredJarIsSafe(
    keep: Keep, files: seq<Config.UnitFile>, logs: seq<seq<ThreadAction>>, steps: seq<Step>, id: UnitId,
    requested: Option<Semver.Version>, env: Updater.UpdateEnv)
    requires LogScripts(logs) && Possible(keep, Init(files, logs), steps)
    requires id in Exec(keep, Init(files, logs), steps).daemon.servers
    ensures var config := Exec(keep, Init(files, logs), steps).daemon.servers[id];
            && NamesApart(config.server, requested, env) && Downloading in Updater.UpdateRun(requested, config.server, env).progress
            && (AsLoaded(Config.Servers(files), id, config) ==> Updater.Coherent(config.server))
            ==> Jars.JarName(Updater.Target(requested, env.repo).value.version) != config.server.jar
  {
    StoredUnits(keep, files, logs, steps, id);
    var config := Exec(keep, Init(files, logs), steps).daemon.servers[id];
    if NamesApart(config.server, requested, env) && Downloading in Updater.UpdateRun(requested, config.server, env).progress
       && Updater.Coherent(config.server) {
      Updater.DownloadKeepsCurrentJar(requested, config.server, env);
    }
  }

  /** The jar of a stored unit with the jar of its version is written over by an update that gets
      to its download exactly if the target, another version, is printed alike; and every stored
      unit has the jar of its version unless it is as it was loaded. */
  lemma StoredJarOverwrittenExactlyWhen(
    keep: Keep, files: seq<Config.UnitFile>, logs: seq<seq<ThreadAction>>, steps: seq<Step>, id: UnitId,
    requested: Option<Semver.Version>, env: Updater.UpdateEnv)
    requires LogScripts(logs) && Possible(keep, Init(files, logs), steps)
    requires id in Exec(keep, Init(files, logs), steps).daemon.servers
    requires Semver.WellFormed(Exec(keep, Init(files, logs), steps).daemon.servers[id].server.version)
    requires Updater.Target(requested, env.repo).Success? && Semver.WellFormed(Updater.Target(requested, env.repo).value.version)
    requires Downloading in Updater.UpdateRun(requested, Exec(keep, Init(files, logs), steps).daemon.servers[id].server, env).progress
    ensures var config, target := Exec(keep, Init(files, logs), steps).daemon.servers[id], Updater.Target(requested, env.repo).value.version;
            && (Updater.Coherent(config.server) || AsLoaded(Config.Servers(files), id, config))
            && (Updater.Coherent(config.server) ==>
                  && target != config.server.version
                  && (Jars.JarName(target) == config.server.jar <==> Jars.PrintedAlike(config.server.version, target)))
  {
    StoredUnits(keep, files, logs, steps, id);
    var config := Exec(keep, Init(files, logs), steps).daemon.servers[id];
    if Updater.Coherent(config.server) {
      Updater.DownloadOverwritesExactlyWhen(requested, config.server, env);
    }
  }

  /** Both versions are well formed, and either no pre-releases or free of hyphens. */
  ghost predicate NamesApart(config: ServerConfig, requested: Option<Semver.Version>, env: Updater.UpdateEnv) {
    && Updater.Target(requested, env.repo).Success?
    && var current, target := config.version, Updater.Target(requested, env.repo).value.version;
       && Semver.WellFormed(current) && Semver.WellFormed(target)
       && ((current.pre == [] && target.pre == []) || (Jars.HyphenFree(current) && Jars.HyphenFree(target)))
  }
}
