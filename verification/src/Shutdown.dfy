/** Shutting down: each server found starting or running is told to stop, once, and waited
    for; the others are left as they are. */
module Shutdown {
  import opened Sequences
  import opened Protocol
  import opened LogParser
  import opened Lifecycle
  import Config

  /** The server was found with a process that had not exited and that had last reported that
      it was starting or had started. */
  predicate Active(f: Found) {
    f.process.Some? && f.exit.None? && (f.output == Some(OutputState.Starting) || f.output == Some(OutputState.Started))
  }

  predicate ShuttingDown(phase: Phase) {
    phase.Visiting? || phase.AwaitingStart? || phase.Reaping? || phase.Ended?
  }

  /** The two statuses for which there is no strategy never occur. */
  lemma NoStrategyNeeded(processes: seq<Process>, e: Entry)
    requires Linked(processes, e)
    ensures !StatusOf(processes, e).Updating? && !StatusOf(processes, e).Lockdown?
    ensures Active(FoundAt(processes, e)) <==> StatusOf(processes, e).Starting? || StatusOf(processes, e).Running?
  {
    StatusMeans(processes, e, ServerStatus.Starting);
    StatusMeans(processes, e, ServerStatus.Running);
  }

  /** The process is the one a server was found with, and that server has been told. */
  predicate Told(found: map<UnitId, Found>, phase: Phase, unit: UnitId, p: Pid) {
    unit in found && Active(found[unit]) && found[unit].process == Some(p) && phase != AwaitingStart(unit)
  }

  function Lines(told: bool): seq<string> {
    if told then [StopLine()] else []
  }

  ghost predicate StdinAsTold(s: State) {
    && |s.before| == |s.processes|
    && forall p :: 0 <= p < |s.processes| ==>
         s.processes[p].stdin == s.before[p].stdin + Lines(Told(s.found, s.phase, s.processes[p].unit, p))
  }

  predicate Gone(processes: seq<Process>, p: Pid) {
    p < |processes| && processes[p].exit.Some? && processes[p].reaped
  }

  /** A server that has been visited. */
  ghost predicate Settled(s: State, id: UnitId)
    requires id in s.found && id in s.servers
  {
    var f, tracked := s.found[id], s.servers[id].process;
    if Active(f) then
      && f.process.Some? && f.process.value < |s.processes| && s.processes[f.process.value].unit == id
      && if s.phase == AwaitingStart(id) then tracked == f.process
         else tracked == None && (s.phase == Reaping(f.process.value) || Gone(s.processes, f.process.value))
    else tracked == f.process && s.phase != AwaitingStart(id)
  }

  ghost predicate Visited(s: State) {
    && s.todo <= s.servers.Keys && s.found.Keys == s.servers.Keys - s.todo
    && (s.phase.Ended? ==> s.todo == {})
    && (s.phase.AwaitingStart? ==> s.phase.id in s.found)
    && forall id :: id in s.found ==> Settled(s, id)
  }

  ghost predicate InShutdown(s: State) {
    ShuttingDown(s.phase) ==> Visited(s) && StdinAsTold(s)
  }

  lemma WorldShutdown(s: State, h: Happening)
    requires AllLinked(s) && InShutdown(s)
    ensures InShutdown(s.(processes := Happened(s.processes, h)))
  {
    var s' := s.(processes := Happened(s.processes, h));
    if ShuttingDown(s.phase) {
      forall id | id in s'.found ensures Settled(s', id) {
        assert Settled(s, id);
      }
    }
  }

  /** Telling a server to stop and waiting for it. */
  lemma StopShutdown(s: State, id: UnitId)
    requires Coherent(s) && AllLinked(s) && Visited(s) && StdinAsTold(s) && s.phase == AwaitingStart(id)
    ensures Visited(StopAndWait(s, id)) && StdinAsTold(StopAndWait(s, id))
  {
    var s' := StopAndWait(s, id);
    assert CoherentEntry(s.processes, id, s.servers[id]) && Settled(s, id);
    var p := s.servers[id].process.value;
    assert s'.processes[p].stdin == s.before[p].stdin + [] + [StopLine()] == s.before[p].stdin + [StopLine()];
    forall other | other in s'.found ensures Settled(s', other) {
      assert Settled(s, other);
    }
  }

  /** Coming to a server, as if it still had to start. */
  function Met(s: State, id: UnitId): State
    requires id in s.servers && Linked(s.processes, s.servers[id])
  {
    var f := FoundAt(s.processes, s.servers[id]);
    s.(todo := s.todo - {id}, found := s.found[id := f], phase := if Active(f) then AwaitingStart(id) else Visiting)
  }

  lemma MetShutdown(s: State, id: UnitId)
    requires Coherent(s) && AllLinked(s) && Visited(s) && StdinAsTold(s) && s.phase.Visiting? && id in s.todo
    ensures Visited(Met(s, id)) && StdinAsTold(Met(s, id))
    ensures Coherent(Met(s, id)) && AllLinked(Met(s, id))
  {
    assert CoherentEntry(s.processes, id, s.servers[id]);
    MetStdin(s, id);
    forall other | other in Met(s, id).found ensures Settled(Met(s, id), other) {
      if other != id {
        assert Settled(s, other);
      }
    }
  }

  /** Nothing has been written yet. */
  lemma MetStdin(s: State, id: UnitId)
    requires Coherent(s) && AllLinked(s) && StdinAsTold(s) && s.phase.Visiting? && id in s.todo && id in s.servers
    requires id !in s.found
    ensures StdinAsTold(Met(s, id))
  {
  }

  lemma {:induction false} VisitShutdown(s: State, id: UnitId)
    requires Coherent(s) && AllLinked(s) && Visited(s) && StdinAsTold(s) && s.phase.Visiting? && id in s.todo
    ensures Visited(DoVisit(s, id)) && StdinAsTold(DoVisit(s, id))
  {
    var status := StatusOf(s.processes, s.servers[id]);
    NoStrategyNeeded(s.processes, s.servers[id]);
    MetShutdown(s, id);
    if status.Running? {
      StopShutdown(Met(s, id), id);
    }
  }

  lemma ReapShutdown(s: State)
    requires AllLinked(s) && Visited(s) && StdinAsTold(s) && s.phase.Reaping? && s.processes[s.phase.pid].exit.Some?
    ensures Visited(DoReap(s, s.phase.pid)) && StdinAsTold(DoReap(s, s.phase.pid))
  {
    var s' := DoReap(s, s.phase.pid);
    forall id | id in s'.found ensures Settled(s', id) {
      assert Settled(s, id);
    }
  }

  lemma {:induction false} ShutdownStep(s: State, step: Step)
    requires Coherent(s) && AllLinked(s) && InShutdown(s) && Enabled(s, step)
    ensures InShutdown(Apply(s, step))
  {
    match step
    case World(h) => WorldShutdown(s, h);
    case BeginShutdown =>
      forall p | 0 <= p < |s.processes| ensures s.processes[p].stdin == s.processes[p].stdin + [] {
      }
    case Visit(id) => VisitShutdown(s, id);
    case StartSeen => StopShutdown(s, s.phase.id);
    case Reap => ReapShutdown(s);
    case Finish =>
      forall id | id in s.found ensures Settled(Apply(s, step), id) {
        assert Settled(s, id);
      }
    case _ =>
  }

  lemma {:induction false} ShutdownRun(s: State, steps: seq<Step>)
    requires Coherent(s) && InShutdown(s) && Possible(s, steps)
    ensures InShutdown(Exec(s, steps))
    decreases |steps|
  {
    if steps != [] {
      ShutdownStep(s, steps[0]);
      CoherentStep(s, steps[0]);
      ShutdownRun(Apply(s, steps[0]), steps[1..]);
    }
  }

  /** How the shutdown leaves a server. */
  ghost predicate LeftAs(s: State, id: UnitId, f: Found) {
    && id in s.servers
    && (f.process.Some? ==> f.process.value < |s.before| == |s.processes|)
    && if Active(f) then
         && f.process.Some? && s.servers[id].process == None
         && var p := f.process.value;
            && s.processes[p].unit == id && s.processes[p].exit.Some? && s.processes[p].reaped
            && s.processes[p].stdin == s.before[p].stdin + [StopLine()]
       else
         && s.servers[id].process == f.process
         && (f.process.Some? ==> s.processes[f.process.value].stdin == s.before[f.process.value].stdin)
  }

  /** When the shutdown is over, it has come to every server. Each one found starting or
      running has its own process told to stop, once, and reaped, and tracks none; each other
      one is as it was found, with nothing written to its process. */
  lemma ShutdownStopsServers(files: seq<Config.UnitFile>, autostart: seq<UnitId>, steps: seq<Step>, id: UnitId)
    requires Possible(Init(files, autostart), steps)
    requires Exec(Init(files, autostart), steps).phase.Ended? && id in Exec(Init(files, autostart), steps).servers
    ensures var s := Exec(Init(files, autostart), steps); id in s.found && LeftAs(s, id, s.found[id])
  {
    InitCoherent(files, autostart);
    ShutdownRun(Init(files, autostart), steps);
    CoherentRun(Init(files, autostart), steps);
    EndedLeaves(Exec(Init(files, autostart), steps), id);
  }

  lemma EndedLeaves(s: State, id: UnitId)
    requires Coherent(s) && InShutdown(s) && s.phase.Ended? && id in s.servers
    ensures id in s.found && LeftAs(s, id, s.found[id])
  {
    assert Settled(s, id);
    assert CoherentEntry(s.processes, id, s.servers[id]);
    var f := s.found[id];
    if f.process.Some? {
      var p := f.process.value;
      assert s.before[p].stdin + [] == s.before[p].stdin;
    }
  }

  // ---------- What the shutdown waits for ----------

  predicate OfShutdown(step: Step) {
    step.Visit? || step.StartSeen? || step.Reap? || step.Finish?
  }

  /** The shutdown is held up exactly by a server that goes on starting, or by a child that
      does not exit. */
  lemma HeldUpExactlyWhen(s: State)
    requires Coherent(s) && AllLinked(s) && InShutdown(s) && ShuttingDown(s.phase) && !s.phase.Ended?
    ensures (forall step :: OfShutdown(step) ==> !Enabled(s, step))
        <==> || (s.phase.AwaitingStart? && RunsWith(s.processes, s.servers[s.phase.id], OutputState.Starting))
             || (s.phase.Reaping? && s.processes[s.phase.pid].exit.None?)
  {
    if s.phase.AwaitingStart? {
      StatusMeans(s.processes, s.servers[s.phase.id], ServerStatus.Starting);
    }
    if s.phase.Visiting? {
      if s.todo == {} {
        assert Enabled(s, Finish) && OfShutdown(Finish);
      } else {
        var id :| id in s.todo;
        assert Enabled(s, Visit(id)) && OfShutdown(Visit(id));
      }
    } else {
      assert OfShutdown(StartSeen) && OfShutdown(Reap);
    }
  }

  function Left(s: State): nat {
    3 * |s.todo| + match s.phase
                   case AwaitingStart(_) => 3
                   case Reaping(_) => 2
                   case Visiting => 1
                   case _ => 0
  }

  /** Every step of the shutdown brings it nearer to its end, and what happens meanwhile does
      not set it back. */
  lemma ShutdownAdvances(s: State, step: Step)
    requires AllLinked(s) && Enabled(s, step) && ShuttingDown(s.phase)
    ensures OfShutdown(step) ==> Left(Apply(s, step)) < Left(s)
    ensures !OfShutdown(step) ==> Left(Apply(s, step)) == Left(s)
  {
    if step.Visit? {
      assert s.todo == (s.todo - {step.id}) + {step.id};
    }
  }
}
