/** The threads that install and update: the work, then the unit for the daemon thread, and
    only then the event that says so. */
module Jobs {
  import opened Sequences
  import opened Protocol
  import opened Channels
  import opened Workers
  import Semver
  import Installer
  import Updater

  function Registered(a: ThreadAction): seq<DaemonEvent> {
    match a
    case RaiseEvent(_, _) => []
    case Register(config) => [AddServerUnit(config)]
  }

  /** The two queues hold, since the job began, what the actions send. */
  ghost predicate Did(
    handler: EventHandler, queue: Channel<DaemonEvent>, events: seq<ManagerCmd>, units: seq<DaemonEvent>, done: seq<ThreadAction>)
    reads handler.dispatcher, queue
  {
    handler.dispatcher.items == events + Collect(done, RaisedCmd) && queue.items == units + Collect(done, Registered)
  }

  lemma ProgressTail(unit: UnitId, stages: seq<Stage>)
    requires stages != []
    ensures var actions := Raises(unit, ProgressEvents(unit, stages));
            && actions != [] && actions[0] == RaiseEvent(unit, ProgressEvent(unit, stages[0]))
            && actions[1..] == Raises(unit, ProgressEvents(unit, stages[1..]))
    ensures ProgressCmds(unit, stages) == [Raise(unit, ProgressEvent(unit, stages[0]))] + ProgressCmds(unit, stages[1..])
  {
    assert ProgressEvents(unit, stages)[1..] == ProgressEvents(unit, stages[1..]);
  }

  lemma {:induction false} ProgressCollected(unit: UnitId, stages: seq<Stage>)
    ensures Collect(Raises(unit, ProgressEvents(unit, stages)), RaisedCmd) == ProgressCmds(unit, stages)
    ensures Collect(Raises(unit, ProgressEvents(unit, stages)), Registered) == []
  {
    if stages != [] {
      ProgressCollected(unit, stages[1..]);
      ProgressTail(unit, stages);
      AppendNothing(Collect(Raises(unit, ProgressEvents(unit, stages[1..])), Registered));
    }
  }

  method RaiseNext(
    handler: EventHandler, queue: Channel<DaemonEvent>, unit: UnitId, event: ServerEvent,
    ghost events: seq<ManagerCmd>, ghost units: seq<DaemonEvent>, ghost done: seq<ThreadAction>)
    requires (handler.dispatcher as object) != queue && Did(handler, queue, events, units, done)
    modifies handler.dispatcher
    ensures Did(handler, queue, events, units, done + [RaiseEvent(unit, event)])
  {
    handler.RaiseEvent(unit, event);
    CollectSnoc(done, RaiseEvent(unit, event), RaisedCmd);
    CollectSnoc(done, RaiseEvent(unit, event), Registered);
  }

  method RegisterNext(
    handler: EventHandler, queue: Channel<DaemonEvent>, config: ServerUnitConfig,
    ghost events: seq<ManagerCmd>, ghost units: seq<DaemonEvent>, ghost done: seq<ThreadAction>)
    requires (handler.dispatcher as object) != queue && Did(handler, queue, events, units, done)
    modifies queue
    ensures Did(handler, queue, events, units, done + [Register(config)])
  {
    queue.Send(AddServerUnit(config));
    CollectSnoc(done, Register(config), RaisedCmd);
    CollectSnoc(done, Register(config), Registered);
  }

  /** The end of a job: the unit, if there is one, and then the final event. */
  method Conclude<E>(
    handler: EventHandler, queue: Channel<DaemonEvent>, install: bool, unit: UnitId, result: Outcome<ServerUnitConfig, E>, describe: E -> string,
    ghost events: seq<ManagerCmd>, ghost units: seq<DaemonEvent>, ghost done: seq<ThreadAction>)
    requires (handler.dispatcher as object) != queue && Did(handler, queue, events, units, done)
    modifies handler.dispatcher, queue
    ensures Did(handler, queue, events, units, done + JobEnd(install, unit, result, describe))
  {
    assert done + [] == done;
    match result
    case Panicked =>
    case Failed(e) => RaiseNext(handler, queue, unit, FailedEvent(install, unit, describe(e)), events, units, done);
    case Finished(config) =>
      RegisterNext(handler, queue, config, events, units, done);
      RaiseNext(handler, queue, config.unit.id, CompleteEvent(install, config.unit.id), events, units, done + [Register(config)]);
      assert done + [Register(config)] + [RaiseEvent(config.unit.id, CompleteEvent(install, config.unit.id))]
          == done + JobEnd(install, unit, result, describe);
  }

  method PerformInstallation(handler: EventHandler, request: InstallRequest, env: Installer.InstallEnv)
    returns (r: Outcome<ServerUnitConfig, Installer.InstallError>)
    modifies handler.dispatcher
    ensures r == Installer.PerformRun(request, env).outcome
    ensures handler.dispatcher.items
         == old(handler.dispatcher.items) + ProgressCmds(request.unitId, Installer.PerformRun(request, env).progress)
  {
    assert ProgressCmds(request.unitId, []) == [];
    if !request.serverType.Paper? {
      return Failed(Installer.UnsupportedServerType(request.serverType));
    }
    if request.unitFilePath.None? {
      return Failed(Installer.DirExists);
    }
    var installer := new Installer.PaperServerInstaller(handler, request.unitId);
    var server := installer.InstallServer(request, env);
    match server
    case Panicked => r := Panicked;
    case Failed(e) => r := Failed(e);
    case Finished(config) =>
      var unit := ServerUnitConfig(UnitConfig(request.unitId, "server"), config);
      r := if env.writeUnit.Some? then Failed(Installer.WriteUnitFile(env.writeUnit.value)) else Finished(unit);
  }

  /** Does exactly what an installation's script says, in its order. */
  method RunInstallation(handler: EventHandler, queue: Channel<DaemonEvent>, request: InstallRequest, env: Installer.InstallEnv)
    requires (handler.dispatcher as object) != queue
    modifies handler.dispatcher, queue
    ensures Did(handler, queue, old(handler.dispatcher.items), old(queue.items), Installer.InstallScript(request, env))
  {
    ghost var events, units, unit := handler.dispatcher.items, queue.items, request.unitId;
    ghost var done := Raises(unit, ProgressEvents(unit, Installer.PerformRun(request, env).progress));
    ProgressCollected(unit, Installer.PerformRun(request, env).progress);
    var result := PerformInstallation(handler, request, env);
    assert units + [] == units;
    Conclude(handler, queue, true, request.unitId, result, env.describe, events, units, done);
  }

  method PerformUpdate(handler: EventHandler, requested: Option<Semver.Version>, config: ServerUnitConfig, env: Updater.UpdateEnv)
    returns (r: Outcome<ServerUnitConfig, Updater.UpdateError>)
    modifies handler.dispatcher
    ensures r == Updater.PerformRun(requested, config, env).outcome
    ensures handler.dispatcher.items
         == old(handler.dispatcher.items) + ProgressCmds(config.unit.id, Updater.PerformRun(requested, config, env).progress)
  {
    var updater := new Updater.PaperServerUpdater(config.unit.id, handler);
    var server := updater.UpdateServer(requested, config.server, env);
    match server
    case Panicked => r := Panicked;
    case Failed(e) => r := Failed(e);
    case Finished(updated) =>
      r := if env.writeUnit.Some? then Failed(Updater.WriteUnitFile(env.writeUnit.value)) else Finished(config.(server := updated));
  }

  /** Does exactly what an update's script says, in its order. */
  method RunUpdate(
    handler: EventHandler, queue: Channel<DaemonEvent>, requested: Option<Semver.Version>, config: ServerUnitConfig, env: Updater.UpdateEnv)
    requires (handler.dispatcher as object) != queue
    modifies handler.dispatcher, queue
    ensures Did(handler, queue, old(handler.dispatcher.items), old(queue.items), Updater.UpdateScript(requested, config, env))
  {
    ghost var events, units, unit := handler.dispatcher.items, queue.items, config.unit.id;
    ghost var done := Raises(unit, ProgressEvents(unit, Updater.PerformRun(requested, config, env).progress));
    ProgressCollected(unit, Updater.PerformRun(requested, config, env).progress);
    var result := PerformUpdate(handler, requested, config, env);
    assert units + [] == units;
    Conclude(handler, queue, false, config.unit.id, result, env.describe, events, units, done);
  }
}
