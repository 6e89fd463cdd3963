/** When the daemon loses track of a process that still runs and was not told to stop. */
module Abandonment {
  import opened Sequences
  import opened Protocol
  import opened LogParser
  import opened Lifecycle
  import Config

  /** It may be let go: it has ended, was told to stop, or said that it had stopped. */
  predicate Excused(p: Process) {
    p.exit.Some? || StopLine() in p.stdin || p.stopSeen
  }

  ghost predicate Tracked(servers: map<UnitId, Entry>, p: Pid) {
    exists id :: id in servers && servers[id].process == Some(p)
  }

  /** No process was abandoned: whoever is not tracked may be let go. */
  ghost predicate Accounted(s: State) {
    forall p: Pid :: p < |s.processes| ==> Tracked(s.servers, p) || Excused(s.processes[p])
  }

  /** An output of `Stopped` has been noted. */
  ghost predicate StopsNoted(processes: seq<Process>) {
    forall p :: 0 <= p < |processes| && processes[p].output.Stopped? ==> processes[p].stopSeen
  }

  /** The server tracks no process, or one that may be let go. */
  ghost predicate Replaceable(s: State, id: UnitId)
    requires AllLinked(s)
  {
    id in s.servers && s.servers[id].process.Some? ==> Excused(s.processes[s.servers[id].process.value])
  }

  /** Only two steps replace what a server tracks without looking at it: starting it
      automatically, and storing a unit under its id. */
  ghost predicate Harmless(s: State, step: Step)
    requires AllLinked(s) && Enabled(s, step)
  {
    match step
    case BootNext => Replaceable(s, s.phase.rest[0])
    case AddUnit(config) => config.server.typeName == "paper" ==> Replaceable(s, config.unit.id)
    case _ => true
  }

  // ---------- One step ----------

  ghost predicate MoreExcused(processes: seq<Process>, processes': seq<Process>) {
    && |processes| <= |processes'|
    && forall p :: 0 <= p < |processes| && Excused(processes[p]) ==> Excused(processes'[p])
  }

  lemma HappenedExcuses(processes: seq<Process>, h: Happening)
    requires StopsNoted(processes)
    ensures MoreExcused(processes, Happened(processes, h)) && |Happened(processes, h)| == |processes|
    ensures StopsNoted(Happened(processes, h))
  {
  }

  lemma WrittenExcuses(processes: seq<Process>, input: Option<Pid>, text: string)
    requires InRange(processes, input)
    ensures MoreExcused(processes, WriteTo(processes, input, text)) && |WriteTo(processes, input, text)| == |processes|
    ensures StopsNoted(processes) ==> StopsNoted(WriteTo(processes, input, text))
    ensures input.Some? && text == StopLine() ==> Excused(WriteTo(processes, input, text)[input.value])
  {
    if input.Some? {
      var stdin := processes[input.value].stdin;
      assert (stdin + [text])[|stdin|] == text;
      assert StopLine() in stdin ==> StopLine() in stdin + [text];
    }
  }

  /** Processes that are tracked by the same servers as before stay accounted for. */
  lemma SameServersAccounted(s: State, s': State)
    requires Accounted(s) && s'.servers == s.servers
    requires MoreExcused(s.processes, s'.processes) && |s'.processes| == |s.processes|
    ensures Accounted(s')
  {
  }

  /** Every entry but one tracks what it did. */
  lemma StillTracked(servers: map<UnitId, Entry>, id: UnitId, e: Entry, p: Pid)
    requires Tracked(servers, p) && !(id in servers && servers[id].process == Some(p))
    ensures Tracked(servers[id := e], p)
  {
    var other :| other in servers && servers[other].process == Some(p);
    assert servers[id := e][other] == servers[other];
  }

  /** No other server tracks what one server tracks. */
  lemma TrackedOnce(s: State, id: UnitId, other: UnitId)
    requires Coherent(s) && id in s.servers && other in s.servers && id != other && s.servers[id].process.Some?
    ensures s.servers[other].process != s.servers[id].process
  {
    assert CoherentEntry(s.processes, id, s.servers[id]) && CoherentEntry(s.processes, other, s.servers[other]);
  }

  /** An entry gets another one in its place, which tracks nothing or a process that comes
      with it: exactly what the old one tracked can be lost. */
  lemma ReplacedAccounted(s: State, id: UnitId, e: Entry, more: seq<Process>)
    requires Coherent(s) && Accounted(s)
    requires more == [] || (|more| == 1 && e.process == Some(|s.processes|))
    requires e.process.Some? ==> |more| == 1 && e.process.value == |s.processes|
    ensures Accounted(s.(processes := s.processes + more, servers := s.servers[id := e]))
        <==> (id in s.servers && s.servers[id].process.Some? ==> Excused(s.processes[s.servers[id].process.value]))
  {
    var s' := s.(processes := s.processes + more, servers := s.servers[id := e]);
    if id in s.servers && s.servers[id].process.Some? && !Excused(s.processes[s.servers[id].process.value]) {
      var p := s.servers[id].process.value;
      forall other | other in s'.servers ensures s'.servers[other].process != Some(p) {
        if other != id {
          TrackedOnce(s, id, other);
        }
      }
      assert s'.processes[p] == s.processes[p];
    } else {
      forall p: Pid | p < |s'.processes| ensures Tracked(s'.servers, p) || Excused(s'.processes[p]) {
        if p < |s.processes| {
          if !Excused(s.processes[p]) {
            StillTracked(s.servers, id, e, p);
          }
        } else {
          assert s'.servers[id].process == Some(p);
        }
      }
    }
  }

  lemma StartAccounted(s: State, id: UnitId)
    requires Coherent(s) && AllLinked(s) && Accounted(s) && id in s.servers
    ensures Accounted(DoStart(s, id)) <==> Replaceable(s, id)
  {
    ReplacedAccounted(s, id, Spawned(s.processes, s.servers[id]), [Fresh(s.servers[id].config.unit.id)]);
  }

  lemma StopAccounted(s: State, id: UnitId)
    requires Coherent(s) && AllLinked(s) && Accounted(s) && id in s.servers && StopsNoted(s.processes)
    ensures Accounted(DoStop(s, id)) && StopsNoted(DoStop(s, id).processes)
  {
    var e := s.servers[id];
    if e.process.Some? {
      assert CoherentEntry(s.processes, id, e);
      WrittenExcuses(s.processes, e.input, StopLine());
      var told := s.(processes := WriteTo(s.processes, e.input, StopLine()));
      SameServersAccounted(s, told);
      LaterCoherent(s.processes, told.processes, s.servers);
      assert Coherent(told) && told.processes + [] == told.processes;
      ReplacedAccounted(told, id, e.(process := None), []);
    }
  }

  lemma DownIsReplaceable(s: State, id: UnitId)
    requires Coherent(s) && AllLinked(s) && StopsNoted(s.processes) && id in s.servers
    requires StatusOf(s.processes, s.servers[id]).Down?
    ensures Replaceable(s, id)
  {
    assert CoherentEntry(s.processes, id, s.servers[id]);
  }

  lemma AddAccounted(s: State, config: ServerUnitConfig)
    requires Coherent(s) && AllLinked(s) && Accounted(s)
    ensures Accounted(DoAdd(s, config)) <==> (config.server.typeName == "paper" ==> Replaceable(s, config.unit.id))
  {
    if config.server.typeName == "paper" {
      assert s.processes + [] == s.processes;
      ReplacedAccounted(s, config.unit.id, NewEntry(config), []);
    }
  }

  lemma SameAccounted(s: State, s': State)
    requires s'.processes == s.processes && s'.servers == s.servers
    ensures Accounted(s) <==> Accounted(s')
  {
  }

  lemma ShutdownAccounted(s: State, step: Step)
    requires Coherent(s) && AllLinked(s) && Accounted(s) && StopsNoted(s.processes) && Enabled(s, step)
    requires step.Visit? || step.StartSeen? || step.Reap?
    ensures Accounted(Apply(s, step)) && StopsNoted(Apply(s, step).processes)
  {
    match step
    case Visit(id) =>
      var status := StatusOf(s.processes, s.servers[id]);
      if status.Running? {
        StopAccounted(s, id);
        SameAccounted(DoStop(s, id), Apply(s, step));
      } else {
        SameAccounted(s, Apply(s, step));
      }
    case StartSeen =>
      StopAccounted(s, s.phase.id);
      SameAccounted(DoStop(s, s.phase.id), Apply(s, step));
    case Reap => SameServersAccounted(s, Apply(s, step));
  }

  /** A step abandons a process exactly if it is not harmless. */
  lemma AccountedStep(s: State, step: Step)
    requires Coherent(s) && AllLinked(s) && Accounted(s) && StopsNoted(s.processes) && Enabled(s, step)
    ensures Accounted(Apply(s, step)) <==> Harmless(s, step)
    ensures StopsNoted(Apply(s, step).processes)
  {
    match step
    case World(h) =>
      HappenedExcuses(s.processes, h);
      SameServersAccounted(s, Apply(s, step));
    case BootNext =>
      var id, s' := s.phase.rest[0], s.(phase := Booting(s.phase.rest[1..]));
      SameAccounted(s, s');
      if id in s.servers {
        StartAccounted(s', id);
      }
    case StartCmd(id) =>
      if id in s.servers && StatusOf(s.processes, s.servers[id]).Down? {
        DownIsReplaceable(s, id);
        StartAccounted(s, id);
      }
    case StopCmd(id) =>
      if id in s.servers && StatusOf(s.processes, s.servers[id]).Running? {
        StopAccounted(s, id);
      }
    case Write(id, text) =>
      if id in s.servers {
        WrittenExcuses(s.processes, s.servers[id].input, text);
        SameServersAccounted(s, Apply(s, step));
      }
    case AddUnit(config) => AddAccounted(s, config);
    case BootDone => SameAccounted(s, Apply(s, step));
    case BeginShutdown => SameAccounted(s, Apply(s, step));
    case Finish => SameAccounted(s, Apply(s, step));
    case _ => ShutdownAccounted(s, step);
  }

  // ---------- Whole runs ----------

  ghost predicate AlwaysAccounted(s: State, steps: seq<Step>)
    requires Possible(s, steps)
    decreases |steps|
  {
    Accounted(s) && (steps != [] ==> AlwaysAccounted(Apply(s, steps[0]), steps[1..]))
  }

  ghost predicate AllHarmless(s: State, steps: seq<Step>)
    requires Possible(s, steps)
    decreases |steps|
  {
    steps != [] ==> Harmless(s, steps[0]) && AllHarmless(Apply(s, steps[0]), steps[1..])
  }

  /** No process is ever abandoned in a run exactly if all its steps are harmless. */
  lemma {:induction false} AccountedRun(s: State, steps: seq<Step>)
    requires Coherent(s) && Accounted(s) && StopsNoted(s.processes) && Possible(s, steps)
    ensures AlwaysAccounted(s, steps) <==> AllHarmless(s, steps)
    decreases |steps|
  {
    if steps != [] {
      AccountedStep(s, steps[0]);
      if Harmless(s, steps[0]) {
        CoherentStep(s, steps[0]);
        AccountedRun(Apply(s, steps[0]), steps[1..]);
      } else {
        assert !Accounted(Apply(s, steps[0]));
      }
    }
  }

  /** The daemon, from its configuration on: a process is abandoned exactly if a step was not
      harmless. */
  lemma NoAbandonedProcess(files: seq<Config.UnitFile>, autostart: seq<UnitId>, steps: seq<Step>)
    requires Possible(Init(files, autostart), steps)
    ensures AlwaysAccounted(Init(files, autostart), steps) <==> AllHarmless(Init(files, autostart), steps)
  {
    InitCoherent(files, autostart);
    AccountedRun(Init(files, autostart), steps);
  }

  // ---------- The autostart list ----------

  /** No known server is listed twice. */
  ghost predicate DuplicateFree(list: seq<UnitId>, servers: map<UnitId, Entry>) {
    forall i, j :: 0 <= i < j < |list| && list[i] in servers ==> list[i] != list[j]
  }

  /** The servers still to be started automatically track nothing yet. */
  ghost predicate Untouched(s: State) {
    s.phase.Booting? ==>
      && DuplicateFree(s.phase.rest, s.servers)
      && forall i :: 0 <= i < |s.phase.rest| && s.phase.rest[i] in s.servers ==> s.servers[s.phase.rest[i]].process.None?
  }

  lemma UntouchedStep(s: State, step: Step)
    requires Untouched(s) && AllLinked(s) && Enabled(s, step)
    ensures Untouched(Apply(s, step))
    ensures step.BootNext? ==> Harmless(s, step)
  {
    if step.BootNext? {
      var rest := s.phase.rest;
      assert forall i :: 0 <= i < |rest[1..]| ==> rest[1..][i] == rest[i + 1] && (rest[0] in s.servers ==> rest[i + 1] != rest[0]);
    }
  }

  /** A run in which no unit is stored over a process that should not be let go. */
  ghost predicate AddsHarmless(s: State, steps: seq<Step>)
    requires Possible(s, steps)
    decreases |steps|
  {
    steps != [] ==> (steps[0].AddUnit? ==> Harmless(s, steps[0])) && AddsHarmless(Apply(s, steps[0]), steps[1..])
  }

  lemma {:induction false} BootHarmless(s: State, steps: seq<Step>)
    requires Untouched(s) && Possible(s, steps) && AddsHarmless(s, steps)
    ensures AllHarmless(s, steps)
    decreases |steps|
  {
    if steps != [] {
      UntouchedStep(s, steps[0]);
      BootHarmless(Apply(s, steps[0]), steps[1..]);
    }
  }

  /** With an autostart list that names no known server twice, only storing a unit over a
      process can abandon it. */
  lemma DuplicateFreeAutostart(files: seq<Config.UnitFile>, autostart: seq<UnitId>, steps: seq<Step>)
    requires DuplicateFree(autostart, Init(files, autostart).servers)
    requires Possible(Init(files, autostart), steps) && AddsHarmless(Init(files, autostart), steps)
    ensures AlwaysAccounted(Init(files, autostart), steps)
  {
    BootHarmless(Init(files, autostart), steps);
    NoAbandonedProcess(files, autostart, steps);
  }

  ghost predicate Pristine(processes: seq<Process>) {
    forall p :: 0 <= p < |processes| ==> !Excused(processes[p])
  }

  /** A start that is still to come hits a server that tracks a process by then. */
  ghost predicate StartsTwice(s: State, i: nat) {
    && s.phase.Booting? && i < |s.phase.rest| && s.phase.rest[i] in s.servers
    && (s.servers[s.phase.rest[i]].process.Some? || exists j :: 0 <= j < i && s.phase.rest[j] == s.phase.rest[i])
  }

  lemma BootNextKeeps(s: State, i: nat)
    requires Coherent(s) && AllLinked(s) && Pristine(s.processes) && StartsTwice(s, i) && i > 0
    ensures var s' := Apply(s, BootNext);
            Coherent(s') && AllLinked(s') && Pristine(s'.processes) && StartsTwice(s', i - 1)
  {
    CoherentStep(s, BootNext);
    var s', rest := Apply(s, BootNext), s.phase.rest;
    assert s'.phase.rest == rest[1..] && rest[1..][i - 1] == rest[i];
    if rest[0] != rest[i] && s.servers[rest[i]].process.None? {
      var j :| 0 <= j < i && rest[j] == rest[i];
      assert rest[1..][j - 1] == rest[j];
    }
  }

  /** If nothing happens meanwhile, the second start abandons what the first one started. */
  lemma {:induction false} BootAbandons(s: State, i: nat) returns (steps: seq<Step>)
    requires Coherent(s) && AllLinked(s) && Pristine(s.processes) && StartsTwice(s, i)
    ensures Possible(s, steps) && AddsHarmless(s, steps) && !AllHarmless(s, steps)
    decreases i
  {
    CoherentStep(s, BootNext);
    if i == 0 {
      steps := [BootNext];
      assert steps[1..] == [];
    } else {
      BootNextKeeps(s, i);
      var rest := BootAbandons(Apply(s, BootNext), i - 1);
      steps := [BootNext] + rest;
      assert steps[1..] == rest;
    }
  }

  /** The autostart never leads to an abandoned process exactly if its list names no known
      server twice. */
  lemma AutostartSafeExactlyWhen(files: seq<Config.UnitFile>, autostart: seq<UnitId>)
    ensures DuplicateFree(autostart, Init(files, autostart).servers)
        <==> forall steps :: Possible(Init(files, autostart), steps) && AddsHarmless(Init(files, autostart), steps)
               ==> AlwaysAccounted(Init(files, autostart), steps)
  {
    var s := Init(files, autostart);
    if DuplicateFree(autostart, s.servers) {
      forall steps | Possible(s, steps) && AddsHarmless(s, steps) ensures AlwaysAccounted(s, steps) {
        DuplicateFreeAutostart(files, autostart, steps);
      }
    } else {
      var i, j :| 0 <= i < j < |autostart| && autostart[i] in s.servers && autostart[i] == autostart[j];
      InitCoherent(files, autostart);
      var steps := BootAbandons(s, j);
      NoAbandonedProcess(files, autostart, steps);
    }
  }
}
