/** What installing and updating have in common. */
module Workers {
  import opened Sequences
  import opened Protocol
  import opened Channels

  /** `Panicked`: the worker thread ends on the spot. */
  datatype Outcome<+T, +E> = Finished(value: T) | Failed(error: E) | Panicked

  /** A step of an installation or update, as it is announced. */
  datatype Stage = Creating | Configuring | Checking | Downloading | Patching

  function ActionText(stage: Stage): string {
    match stage
    case Creating => "creating server directory"
    case Configuring => "creating initial server configuration"
    case Checking => "checking for update"
    case Downloading => "downloading jar"
    case Patching => "patching jar"
  }

  /** The steps announced, in order, and how the work ended. */
  datatype Run<+T, +E> = Run(progress: seq<Stage>, outcome: Outcome<T, E>)

  datatype DownloadResult = DownloadPanics | DownloadFails(cause: string) | Downloaded

  datatype PatchResult = PatchPanics | PatchFails(stderr: string) | Patched

  function ProgressEvent(unit: UnitId, stage: Stage): ServerEvent {
    ActionProgress(unit, ActionText(stage), None, None, 1)
  }

  function ProgressEvents(unit: UnitId, progress: seq<Stage>): (events: seq<ServerEvent>)
    ensures |events| == |progress|
    ensures forall i :: 0 <= i < |progress| ==> events[i] == ProgressEvent(unit, progress[i])
  {
    seq(|progress|, i requires 0 <= i < |progress| => ProgressEvent(unit, progress[i]))
  }

  /** The progress events as they are raised. */
  function ProgressCmds(unit: UnitId, progress: seq<Stage>): (cmds: seq<ManagerCmd>)
    ensures |cmds| == |progress|
    ensures forall i :: 0 <= i < |progress| ==> cmds[i] == Raise(unit, ProgressEvent(unit, progress[i]))
  {
    seq(|progress|, i requires 0 <= i < |progress| => Raise(unit, ProgressEvent(unit, progress[i])))
  }

  /** Announces one more stage; `before` was sent earlier, `done` has been announced since. */
  method Announce(handler: EventHandler, unit: UnitId, stage: Stage, ghost before: seq<ManagerCmd>, ghost done: seq<Stage>)
    requires handler.dispatcher.items == before + ProgressCmds(unit, done)
    modifies handler.dispatcher
    ensures handler.dispatcher.items == before + ProgressCmds(unit, done + [stage])
  {
    handler.RaiseEvent(unit, ActionProgress(unit, ActionText(stage), None, None, 1));
  }

  /** What a worker thread does to the two queues. */
  datatype ThreadAction = RaiseEvent(unit: UnitId, event: ServerEvent) | Register(config: ServerUnitConfig)

  function Raises(unit: UnitId, events: seq<ServerEvent>): (actions: seq<ThreadAction>)
    ensures |actions| == |events|
    ensures forall i :: 0 <= i < |events| ==> actions[i] == RaiseEvent(unit, events[i])
  {
    seq(|events|, i requires 0 <= i < |events| => RaiseEvent(unit, events[i]))
  }

  function FailedEvent(install: bool, unit: UnitId, text: string): ServerEvent {
    if install then InstallationFailed(unit, text) else UpdateFailed(unit, text)
  }

  function CompleteEvent(install: bool, unit: UnitId): ServerEvent {
    if install then InstallationComplete(unit) else UpdateComplete(unit)
  }

  /** How a job ends: with the unit for the daemon thread and then the event that says so, or
      with the event that says why not; a panic ends it without a word. */
  function JobEnd<E>(install: bool, unit: UnitId, outcome: Outcome<ServerUnitConfig, E>, describe: E -> string): seq<ThreadAction> {
    match outcome
    case Panicked => []
    case Failed(e) => [RaiseEvent(unit, FailedEvent(install, unit, describe(e)))]
    case Finished(config) => [Register(config), RaiseEvent(config.unit.id, CompleteEvent(install, config.unit.id))]
  }

  /** Everything an installation or an update sends, in order. */
  function JobScript<E>(install: bool, unit: UnitId, run: Run<ServerUnitConfig, E>, describe: E -> string): seq<ThreadAction> {
    Raises(unit, ProgressEvents(unit, run.progress)) + JobEnd(install, unit, run.outcome, describe)
  }

  lemma JobScriptAt<E>(install: bool, unit: UnitId, run: Run<ServerUnitConfig, E>, describe: E -> string, j: nat)
    requires j < |JobScript(install, unit, run, describe)|
    ensures var script, n := JobScript(install, unit, run, describe), |run.progress|;
            script[j] == if j < n then RaiseEvent(unit, ProgressEvent(unit, run.progress[j]))
                         else JobEnd(install, unit, run.outcome, describe)[j - n]
  {
  }

  /** What announcing a stage says. */
  ghost predicate Announces(event: ServerEvent, unit: UnitId, stage: Stage) {
    && event.ActionProgress? && event.serverId == unit
    && event.progress == None && event.maximum == None && event.actionNumber == 1
    && match stage
       case Creating => event.action == "creating server directory"
       case Configuring => event.action == "creating initial server configuration"
       case Checking => event.action == "checking for update"
       case Downloading => event.action == "downloading jar"
       case Patching => event.action == "patching jar"
  }

  lemma StageIsAnnounced(unit: UnitId, stage: Stage)
    ensures Announces(ProgressEvent(unit, stage), unit, stage)
  {
  }

  /** The end of a job, told by its outcome: the unit and the completion, or the failure with
      the text of its error, or nothing. */
  ghost predicate EndsWith<E>(install: bool, unit: UnitId, outcome: Outcome<ServerUnitConfig, E>, describe: E -> string, end: seq<ThreadAction>) {
    match outcome
    case Panicked => end == []
    case Failed(e) =>
      end == [RaiseEvent(unit, if install then InstallationFailed(unit, describe(e)) else UpdateFailed(unit, describe(e)))]
    case Finished(config) =>
      && |end| == 2 && end[0] == Register(config)
      && end[1] == RaiseEvent(config.unit.id, if install then InstallationComplete(config.unit.id) else UpdateComplete(config.unit.id))
  }

  /** A job announces each of its steps under its unit, and then its end. */
  lemma JobTells<E>(install: bool, unit: UnitId, run: Run<ServerUnitConfig, E>, describe: E -> string)
    ensures var script, n := JobScript(install, unit, run, describe), |run.progress|;
            && |script| >= n
            && (forall j :: 0 <= j < n ==>
                  script[j].RaiseEvent? && script[j].unit == unit && Announces(script[j].event, unit, run.progress[j]))
            && EndsWith(install, unit, run.outcome, describe, script[n..])
  {
    var script, n := JobScript(install, unit, run, describe), |run.progress|;
    assert script[n..] == JobEnd(install, unit, run.outcome, describe);
    forall j | 0 <= j < n ensures Announces(script[j].event, unit, run.progress[j]) {
      JobScriptAt(install, unit, run, describe, j);
      StageIsAnnounced(unit, run.progress[j]);
    }
  }

  function RaisedBy(action: ThreadAction): seq<ServerEvent> {
    match action
    case RaiseEvent(_, event) => [event]
    case Register(_) => []
  }

  function RaisedCmd(a: ThreadAction): seq<ManagerCmd> {
    match a
    case RaiseEvent(unit, event) => [Raise(unit, event)]
    case Register(_) => []
  }

  /** Progress events, then one final event and nothing more. */
  ghost predicate Session(unit: UnitId, events: seq<ServerEvent>) {
    && events != []
    && events[|events| - 1].Final()
    && (forall i :: 0 <= i < |events| ==> events[i].serverId == unit)
    && (forall i :: 0 <= i < |events| - 1 ==> events[i].ActionProgress?)
  }
}
