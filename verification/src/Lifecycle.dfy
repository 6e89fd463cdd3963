/** Server processes and the daemon's hold on them, as a transition system: processes print
    and exit whenever they like, between any two steps of the daemon. */
module Lifecycle {
  import opened Sequences
  import opened Protocol
  import opened LogParser
  import Config

  type Pid = nat

  datatype Exit = Succeeded | FailedWith(code: Option<int>)

  /** A spawned process, whether or not the daemon still knows it. Its log thread keeps
      `output`; `stopSeen` records whether that ever was `Stopped`. */
  datatype Process = Process(
    unit: UnitId, stdin: seq<string>, output: OutputState, stopSeen: bool, exit: Option<Exit>, reaped: bool)

  /** A server of the daemon: the child it tracks, the shared state it reads and the standard
      input it writes to, each named by the process it belongs to. */
  datatype Entry = Entry(
    serverId: UnitId, config: ServerUnitConfig, process: Option<Pid>, status: Option<Pid>, input: Option<Pid>)

  /** What the shutdown found when it came to a server: the child it tracked, how that had
      exited if it had, and the output it had recorded. */
  datatype Found = Found(process: Option<Pid>, exit: Option<Exit>, output: Option<OutputState>)

  datatype Phase =
    | Booting(rest: seq<UnitId>)
    | Serving
    | Visiting
    | AwaitingStart(id: UnitId)
    | Reaping(pid: Pid)
    | Ended

  datatype State = State(
    processes: seq<Process>,            // a process's pid is its index
    servers: map<UnitId, Entry>,
    phase: Phase,
    todo: set<UnitId>,                  // servers the shutdown has not come to
    found: map<UnitId, Found>,          // what it found at the others
    before: seq<Process>)               // the processes when it began

  // ---------- Operations on one server ----------

  predicate InRange(processes: seq<Process>, pid: Option<Pid>) {
    pid.Some? ==> pid.value < |processes|
  }

  predicate Linked(processes: seq<Process>, e: Entry) {
    InRange(processes, e.process) && InRange(processes, e.status) && InRange(processes, e.input)
  }

  /** The exit status of the tracked child decides; while it runs, its output does. */
  function StatusOf(processes: seq<Process>, e: Entry): ServerStatus
    requires Linked(processes, e)
  {
    match e.process
    case None => ServerStatus.Down
    case Some(p) =>
      match processes[p].exit
      case Some(Succeeded) => ServerStatus.Down
      case Some(FailedWith(code)) => ServerStatus.Errored(code)
      case None =>
        match e.status
        case None => ServerStatus.Unknown
        case Some(q) =>
          match processes[q].output
          case Unknown => ServerStatus.Unknown
          case Starting => ServerStatus.Starting
          case Started => ServerStatus.Running
          case Errored => ServerStatus.Errored(None)
          case Stopped => ServerStatus.Down
          case Stopping => ServerStatus.Stopping
  }

  /** The server tracks a process that has not exited, and has this as its recorded output. */
  predicate RunsWith(processes: seq<Process>, e: Entry, output: OutputState)
    requires Linked(processes, e)
  {
    && e.process.Some? && processes[e.process.value].exit.None?
    && e.status.Some? && processes[e.status.value].output == output
  }

  /** The server is to be reported with this status. */
  predicate Looks(processes: seq<Process>, e: Entry, status: ServerStatus)
    requires Linked(processes, e)
  {
    var child := if e.process.Some? then Some(processes[e.process.value]) else None;
    match status
    case Unknown => child.Some? && child.value.exit.None? && (e.status.None? || RunsWith(processes, e, OutputState.Unknown))
    case Starting => RunsWith(processes, e, OutputState.Starting)
    case Running => RunsWith(processes, e, OutputState.Started)
    case Stopping => RunsWith(processes, e, OutputState.Stopping)
    case Down => child.None? || child.value.exit == Some(Succeeded) || RunsWith(processes, e, OutputState.Stopped)
    case Errored(code) =>
      || (child.Some? && child.value.exit == Some(FailedWith(code)))
      || (code.None? && RunsWith(processes, e, OutputState.Errored))
    case Updating => false
    case Lockdown => false
  }

  /** Exactly one status is the one to report, and it is the one that is found. */
  lemma StatusMeans(processes: seq<Process>, e: Entry, status: ServerStatus)
    requires Linked(processes, e)
    ensures StatusOf(processes, e) == status <==> Looks(processes, e, status)
  {
  }

  function Fresh(unit: UnitId): Process {
    Process(unit, [], OutputState.Unknown, false, None, false)
  }

  function WriteTo(processes: seq<Process>, input: Option<Pid>, text: string): (written: seq<Process>)
    requires InRange(processes, input)
    ensures |written| == |processes|
  {
    match input
    case None => processes
    case Some(p) => processes[p := processes[p].(stdin := processes[p].stdin + [text])]
  }

  /** The entry after a start; the new process comes last. */
  function Spawned(processes: seq<Process>, e: Entry): Entry {
    var p := Some(|processes|);
    e.(process := p, status := p, input := p)
  }

  function StopLine(): string {
    "stop"
  }

  // ---------- The world ----------

  datatype Happening = Prints(pid: Pid, line: string) | Exits(pid: Pid, how: Exit)

  function Happened(processes: seq<Process>, h: Happening): (later: seq<Process>)
    ensures |later| == |processes|
  {
    if h.pid >= |processes| then processes
    else
      var p := processes[h.pid];
      match h
      case Prints(pid, line) =>
        (match Recognise(line)
         case None => processes
         case Some(state) => processes[pid := p.(output := state, stopSeen := p.stopSeen || state.Stopped?)])
      case Exits(pid, how) => if p.exit.None? then processes[pid := p.(exit := Some(how))] else processes
  }

  // ---------- Steps ----------

  datatype Step =
    | World(h: Happening)
    | BootNext
    | BootDone
    | StartCmd(id: UnitId)
    | StopCmd(id: UnitId)
    | Write(id: UnitId, text: string)
    | AddUnit(config: ServerUnitConfig)
    | BeginShutdown
    | Visit(id: UnitId)
    | StartSeen
    | Reap
    | Finish

  ghost predicate AllLinked(s: State) {
    && (forall id :: id in s.servers ==> Linked(s.processes, s.servers[id]))
    && (s.phase.AwaitingStart? ==> s.phase.id in s.servers)
    && (s.phase.Reaping? ==> s.phase.pid < |s.processes|)
  }

  ghost predicate Enabled(s: State, step: Step)
    requires AllLinked(s)
  {
    match step
    case World(_) => true
    case BootNext => s.phase.Booting? && s.phase.rest != []
    case BootDone => s.phase.Booting? && s.phase.rest == []
    case StartCmd(_) => s.phase.Serving?
    case StopCmd(_) => s.phase.Serving?
    case Write(_, _) => s.phase.Serving?
    case AddUnit(_) => s.phase.Serving?
    case BeginShutdown => s.phase.Serving?
    case Visit(id) => s.phase.Visiting? && id in s.todo && id in s.servers
    case StartSeen => s.phase.AwaitingStart? && !StatusOf(s.processes, s.servers[s.phase.id]).Starting?
    case Reap => s.phase.Reaping? && s.processes[s.phase.pid].exit.Some?
    case Finish => s.phase.Visiting? && s.todo == {}
  }

  /** `start`: whatever was tracked before is no longer tracked. */
  function DoStart(s: State, id: UnitId): State
    requires id in s.servers
  {
    var e := s.servers[id];
    s.(processes := s.processes + [Fresh(e.config.unit.id)], servers := s.servers[id := Spawned(s.processes, e)])
  }

  /** `stop`: the tracked child is told to stop and handed to the caller. */
  function DoStop(s: State, id: UnitId): State
    requires id in s.servers && Linked(s.processes, s.servers[id])
  {
    var e := s.servers[id];
    if e.process.None? then s
    else s.(processes := WriteTo(s.processes, e.input, StopLine()), servers := s.servers[id := e.(process := None)])
  }

  function NewEntry(config: ServerUnitConfig): Entry {
    Entry(config.unit.id, config, None, None, None)
  }

  function DoAdd(s: State, config: ServerUnitConfig): State {
    if config.server.typeName == "paper" then s.(servers := s.servers[config.unit.id := NewEntry(config)]) else s
  }

  /** After a stop, the child is waited for if there is one. */
  function WaitFor(s: State, child: Option<Pid>): State {
    s.(phase := if child.Some? then Reaping(child.value) else Visiting)
  }

  function StopAndWait(s: State, id: UnitId): State
    requires id in s.servers && Linked(s.processes, s.servers[id])
  {
    WaitFor(DoStop(s, id), s.servers[id].process)
  }

  function FoundAt(processes: seq<Process>, e: Entry): Found
    requires Linked(processes, e)
  {
    Found(e.process, if e.process.Some? then processes[e.process.value].exit else None,
          if e.status.Some? then Some(processes[e.status.value].output) else None)
  }

  function DoVisit(s: State, id: UnitId): State
    requires id in s.servers && Linked(s.processes, s.servers[id])
  {
    var e := s.servers[id];
    var status := StatusOf(s.processes, e);
    var s' := s.(todo := s.todo - {id}, found := s.found[id := FoundAt(s.processes, e)]);
    match status
    case Starting => s'.(phase := AwaitingStart(id))
    case Running => StopAndWait(s', id)
    case _ => s'
  }

  function DoReap(s: State, p: Pid): State
    requires p < |s.processes|
  {
    s.(processes := s.processes[p := s.processes[p].(reaped := true)], phase := Visiting)
  }

  ghost function Apply(s: State, step: Step): State
    requires AllLinked(s) && Enabled(s, step)
  {
    match step
    case World(h) => s.(processes := Happened(s.processes, h))
    case BootNext =>
      var id, s' := s.phase.rest[0], s.(phase := Booting(s.phase.rest[1..]));
      if id in s.servers then DoStart(s', id) else s'
    case BootDone => s.(phase := Serving)
    case StartCmd(id) => if id in s.servers && StatusOf(s.processes, s.servers[id]).Down? then DoStart(s, id) else s
    case StopCmd(id) => if id in s.servers && StatusOf(s.processes, s.servers[id]).Running? then DoStop(s, id) else s
    case Write(id, text) => if id in s.servers then s.(processes := WriteTo(s.processes, s.servers[id].input, text)) else s
    case AddUnit(config) => DoAdd(s, config)
    case BeginShutdown => s.(phase := Visiting, todo := s.servers.Keys, found := map[], before := s.processes)
    case Visit(id) => DoVisit(s, id)
    case StartSeen => StopAndWait(s, s.phase.id)
    case Reap => DoReap(s, s.phase.pid)
    case Finish => s.(phase := Ended)
  }

  /** The daemon as it is configured, before the autostart. */
  function Init(files: seq<Config.UnitFile>, autostart: seq<UnitId>): State {
    var servers := Config.Servers(files);
    State([], map id | id in servers :: NewEntry(servers[id]), Booting(autostart), {}, map[], [])
  }

  // ---------- Runs ----------

  ghost predicate Possible(s: State, steps: seq<Step>)
    decreases |steps|
  {
    AllLinked(s) && (steps != [] ==> Enabled(s, steps[0]) && Possible(Apply(s, steps[0]), steps[1..]))
  }

  ghost function Exec(s: State, steps: seq<Step>): State
    requires Possible(s, steps)
    decreases |steps|
  {
    if steps == [] then s else Exec(Apply(s, steps[0]), steps[1..])
  }

  lemma {:induction false} RunSnoc(s: State, steps: seq<Step>, step: Step)
    requires Possible(s, steps) && AllLinked(Exec(s, steps)) && Enabled(Exec(s, steps), step)
    requires AllLinked(Apply(Exec(s, steps), step))
    ensures Possible(s, steps + [step]) && Exec(s, steps + [step]) == Apply(Exec(s, steps), step)
    decreases |steps|
  {
    if steps == [] {
      assert [step][1..] == [] && [] + [step] == [step];
    } else {
      RunSnoc(Apply(s, steps[0]), steps[1..], step);
      assert (steps + [step])[1..] == steps[1..] + [step] && (steps + [step])[0] == steps[0];
    }
  }

  /** `steps` lead from one state to the other. */
  ghost predicate RunsTo(s: State, steps: seq<Step>, s': State) {
    Possible(s, steps) && Exec(s, steps) == s'
  }

  lemma RunsOn(s: State, steps: seq<Step>, s': State, step: Step, s'': State)
    requires RunsTo(s, steps, s') && AllLinked(s') && Enabled(s', step) && s'' == Apply(s', step) && AllLinked(s'')
    ensures RunsTo(s, steps + [step], s'')
  {
    RunSnoc(s, steps, step);
  }

  // ---------- Each handle belongs to the process it should ----------

  ghost predicate CoherentEntry(processes: seq<Process>, id: UnitId, e: Entry) {
    && Linked(processes, e)
    && e.serverId == id && e.config.unit.id == id
    && (e.input.Some? ==> processes[e.input.value].unit == id)
    && (e.process.Some? ==> e.input == e.process && e.status == e.process)
  }

  /** Keys, server ids and unit ids agree, and a tracked process, the standard input and the
      state that are stored with it are of one and the same process, started for that unit. */
  ghost predicate Coherent(s: State) {
    && (forall id :: id in s.servers ==> CoherentEntry(s.processes, id, s.servers[id]))
    && (s.phase.AwaitingStart? ==> s.phase.id in s.servers && s.servers[s.phase.id].process.Some?)
    && (s.phase.Reaping? ==> s.phase.pid < |s.processes|)
  }

  /** The processes may move on and new ones may come, but none changes its unit. */
  ghost predicate Later(processes: seq<Process>, processes': seq<Process>) {
    |processes| <= |processes'| && forall p :: 0 <= p < |processes| ==> processes'[p].unit == processes[p].unit
  }

  lemma LaterCoherent(processes: seq<Process>, processes': seq<Process>, servers: map<UnitId, Entry>)
    requires Later(processes, processes')
    requires forall id :: id in servers ==> CoherentEntry(processes, id, servers[id])
    ensures forall id :: id in servers ==> CoherentEntry(processes', id, servers[id])
  {
    forall id | id in servers ensures CoherentEntry(processes', id, servers[id]) {
      assert CoherentEntry(processes, id, servers[id]);
    }
  }

  lemma StartCoherent(s: State, id: UnitId)
    requires Coherent(s) && id in s.servers && (s.phase.AwaitingStart? ==> s.phase.id != id)
    ensures Coherent(DoStart(s, id))
  {
    LaterCoherent(s.processes, DoStart(s, id).processes, s.servers);
  }

  lemma StopCoherent(s: State, id: UnitId, phase: Phase)
    requires Coherent(s) && id in s.servers && (phase.Reaping? ==> phase.pid < |s.processes|) && !phase.AwaitingStart?
    ensures Coherent(DoStop(s, id).(phase := phase))
  {
    LaterCoherent(s.processes, DoStop(s, id).processes, s.servers);
  }

  lemma {:induction false} CoherentStep(s: State, step: Step)
    requires Coherent(s) && AllLinked(s) && Enabled(s, step)
    ensures Coherent(Apply(s, step)) && AllLinked(Apply(s, step))
  {
    var s' := Apply(s, step);
    match step
    case World(h) => LaterCoherent(s.processes, s'.processes, s.servers);
    case BootNext =>
      if s.phase.rest[0] in s.servers {
        StartCoherent(s.(phase := Booting(s.phase.rest[1..])), s.phase.rest[0]);
      }
    case StartCmd(id) =>
      if s' != s {
        StartCoherent(s, id);
      }
    case StopCmd(id) =>
      if s' != s {
        StopCoherent(s, id, s.phase);
      }
    case Write(_, _) => LaterCoherent(s.processes, s'.processes, s.servers);
    case Visit(id) => VisitCoherent(s, id);
    case StartSeen => StopCoherent(s, s.phase.id, s'.phase);
    case Reap => LaterCoherent(s.processes, s'.processes, s.servers);
    case _ =>
  }

  lemma VisitCoherent(s: State, id: UnitId)
    requires Coherent(s) && id in s.servers && s.phase.Visiting?
    ensures Coherent(DoVisit(s, id))
  {
    var e := s.servers[id];
    assert CoherentEntry(s.processes, id, e);
    var s0 := s.(todo := s.todo - {id}, found := s.found[id := FoundAt(s.processes, e)]);
    if StatusOf(s.processes, e).Running? {
      StopCoherent(s0, id, DoVisit(s, id).phase);
    }
  }

  lemma InitCoherent(files: seq<Config.UnitFile>, autostart: seq<UnitId>)
    ensures Coherent(Init(files, autostart)) && AllLinked(Init(files, autostart))
  {
    Config.ServersAreCoherent(files);
  }

  lemma {:induction false} CoherentRun(s: State, steps: seq<Step>)
    requires Coherent(s) && Possible(s, steps)
    ensures Coherent(Exec(s, steps)) && AllLinked(Exec(s, steps))
    decreases |steps|
  {
    if steps != [] {
      CoherentStep(s, steps[0]);
      CoherentRun(Apply(s, steps[0]), steps[1..]);
    }
  }

  // ---------- What each step does to a process ----------

  /** Printing a line sets the recorded output to what the line shows, if it shows anything. */
  lemma PrintShows(processes: seq<Process>, pid: Pid, line: string)
    requires pid < |processes|
    ensures var later := Happened(processes, Prints(pid, line));
            && |later| == |processes|
            && (forall p :: 0 <= p < |processes| && p != pid ==> later[p] == processes[p])
            && (Tells(line) ==> Shows(line, later[pid].output))
            && later[pid] == processes[pid].(output := later[pid].output, stopSeen := later[pid].stopSeen)
            && (later[pid].stopSeen <==> processes[pid].stopSeen || SaysStopped(line))
            && (!Tells(line) ==> later == processes)
  {
    RecogniseMeans(line);
    SaysFirst(line);
  }

  /** The server's process is that one, it has not exited, and the last its log thread
      recognised is this. */
  predicate Running(s: State, id: UnitId, p: Pid, output: OutputState) {
    && id in s.servers && s.servers[id].process == Some(p) && p < |s.processes|
    && s.processes[p].exit.None? && s.processes[p].output == output
  }

  /** The only change to the processes is this line, if any, in the standard input of `p`. */
  predicate Writes(before: seq<Process>, after: seq<Process>, p: Pid, lines: seq<string>) {
    && |before| == |after| && p < |before|
    && after[p] == before[p].(stdin := before[p].stdin + lines)
    && forall q :: 0 <= q < |before| && q != p ==> after[q] == before[q]
  }

  /** `p` is the server's process, runs, and has reported that it started. */
  lemma RunsIsRunning(s: State, id: UnitId, output: OutputState)
    requires Coherent(s) && id in s.servers
    ensures CoherentEntry(s.processes, id, s.servers[id])
    ensures RunsWith(s.processes, s.servers[id], output)
        <==> s.servers[id].process.Some? && Running(s, id, s.servers[id].process.value, output)
  {
  }

  /** Stopping writes one line to the server's process and lets go of it exactly if that process
      runs and has last reported that it started; otherwise nothing changes. */
  lemma StopCmdWrites(s: State, id: UnitId)
    requires Coherent(s) && AllLinked(s) && Enabled(s, StopCmd(id))
    ensures var s' := Apply(s, StopCmd(id));
            if id in s.servers && s.servers[id].process.Some? && Running(s, id, s.servers[id].process.value, OutputState.Started) then
              && Writes(s.processes, s'.processes, s.servers[id].process.value, ["stop"])
              && s'.servers == s.servers[id := s.servers[id].(process := None)]
            else s' == s
  {
    if id in s.servers {
      RunsIsRunning(s, id, OutputState.Started);
      StatusMeans(s.processes, s.servers[id], ServerStatus.Running);
    }
  }

  /** Starting spawns a process of the unit, which from then on is the server's, exactly if the
      server tracks none, or one that ended well, or one that has last reported that it
      stopped; otherwise nothing changes. */
  lemma StartCmdStarts(s: State, id: UnitId)
    requires Coherent(s) && AllLinked(s) && Enabled(s, StartCmd(id))
    ensures var s', n := Apply(s, StartCmd(id)), |s.processes|;
            if id in s.servers && MayStart(s, id) then
              && s'.processes == s.processes + [Process(id, [], OutputState.Unknown, false, None, false)]
              && s'.servers == s.servers[id := s.servers[id].(process := Some(n), status := Some(n), input := Some(n))]
            else s' == s
  {
    if id in s.servers {
      RunsIsRunning(s, id, OutputState.Stopped);
      StatusMeans(s.processes, s.servers[id], ServerStatus.Down);
    }
  }

  predicate MayStart(s: State, id: UnitId)
    requires id in s.servers
  {
    var process := s.servers[id].process;
    process.Some? && process.value < |s.processes| ==>
      s.processes[process.value].exit == Some(Succeeded) || Running(s, id, process.value, OutputState.Stopped)
  }

  /** A line for a server goes to the process it started last, whatever became of that. */
  lemma WriteWrites(s: State, id: UnitId, text: string)
    requires Coherent(s) && AllLinked(s) && Enabled(s, Write(id, text))
    ensures var s' := Apply(s, Write(id, text));
            && s'.servers == s.servers
            && if id in s.servers && s.servers[id].input.Some?
               then Writes(s.processes, s'.processes, s.servers[id].input.value, [text])
               else s' == s
  {
  }

  /** Storing a unit of a known type puts a server without a process in the place of the one with
      its id; nothing else changes, and other units change nothing. */
  lemma AddUnitStores(s: State, config: ServerUnitConfig)
    requires AllLinked(s) && Enabled(s, AddUnit(config))
    ensures var s' := Apply(s, AddUnit(config));
            if config.server.typeName == "paper"
            then s' == s.(servers := s.servers[config.unit.id := Entry(config.unit.id, config, None, None, None)])
            else s' == s
  {
  }

  /** The shutdown tells a server to stop when it comes to it exactly if its process runs and
      has last reported that it started; it waits for it to start exactly if it has last
      reported that it is starting. */
  lemma VisitWrites(s: State, id: UnitId)
    requires Coherent(s) && AllLinked(s) && Enabled(s, Visit(id))
    ensures var s', process := Apply(s, Visit(id)), s.servers[id].process;
            if process.Some? && Running(s, id, process.value, OutputState.Started) then
              && Writes(s.processes, s'.processes, process.value, ["stop"])
              && s'.servers == s.servers[id := s.servers[id].(process := None)] && s'.phase == Reaping(process.value)
            else
              && s'.processes == s.processes && s'.servers == s.servers
              && s'.phase == if process.Some? && Running(s, id, process.value, OutputState.Starting) then AwaitingStart(id) else Visiting
  {
    RunsIsRunning(s, id, OutputState.Started);
    RunsIsRunning(s, id, OutputState.Starting);
    StatusMeans(s.processes, s.servers[id], ServerStatus.Running);
    StatusMeans(s.processes, s.servers[id], ServerStatus.Starting);
  }

  /** A server that was waited for is told to stop as soon as it is no longer starting. */
  lemma StartSeenWrites(s: State)
    requires Coherent(s) && AllLinked(s) && s.phase.AwaitingStart?
    ensures Enabled(s, StartSeen) <==> !Running(s, s.phase.id, s.servers[s.phase.id].process.value, OutputState.Starting)
    ensures Enabled(s, StartSeen) ==>
      var s', p := Apply(s, StartSeen), s.servers[s.phase.id].process.value;
      && Writes(s.processes, s'.processes, p, ["stop"])
      && s'.servers == s.servers[s.phase.id := s.servers[s.phase.id].(process := None)] && s'.phase == Reaping(p)
  {
    RunsIsRunning(s, s.phase.id, OutputState.Starting);
    StatusMeans(s.processes, s.servers[s.phase.id], ServerStatus.Starting);
  }
}
