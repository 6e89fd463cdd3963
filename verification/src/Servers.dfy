/** The objects behind a server: its process as the operating system has it, the PaperMC
    server that spawns it and writes to it, and the daemon's record of both. */
module Servers {
  import opened Sequences
  import opened Protocol
  import opened LogParser
  import opened Lifecycle

  /** What the processes are after some happenings. */
  function After(processes: seq<Process>, happenings: seq<Happening>): (later: seq<Process>)
    ensures |later| == |processes|
    decreases |happenings|
  {
    if happenings == [] then processes else After(Happened(processes, happenings[0]), happenings[1..])
  }

  lemma {:induction false} AfterSnoc(processes: seq<Process>, happenings: seq<Happening>, h: Happening)
    ensures After(processes, happenings + [h]) == Happened(After(processes, happenings), h)
    decreases |happenings|
  {
    if happenings == [] {
      assert [h][1..] == [];
    } else {
      AfterSnoc(Happened(processes, happenings[0]), happenings[1..], h);
      assert (happenings + [h])[1..] == happenings[1..] + [h];
    }
  }

  /** The processes, and what is going to happen to them, one thing at a time, while the
      daemon sleeps or waits. A process is referred to by its pid; so are its standard input
      and the state its log thread keeps. */
  class Os {
    var processes: seq<Process>
    var coming: seq<Happening>

    constructor (coming: seq<Happening>)
      ensures processes == [] && this.coming == coming
    {
      processes, this.coming := [], coming;
    }

    method Spawn(unit: UnitId) returns (pid: Pid)
      modifies `processes
      ensures pid == |old(processes)| && processes == old(processes) + [Fresh(unit)]
    {
      pid := |processes|;
      processes := processes + [Process(unit, [], OutputState.Unknown, false, None, false)];
    }

    method WriteLine(pid: Pid, text: string)
      requires pid < |processes|
      modifies `processes
      ensures processes == WriteTo(old(processes), Some(pid), text)
    {
      processes := processes[pid := processes[pid].(stdin := processes[pid].stdin + [text])];
    }

    /** Time passes; the flag says whether anything is still to come. */
    method Sleep() returns (more: bool)
      modifies this
      ensures more <==> old(coming) != []
      ensures if old(coming) == [] then processes == old(processes) && coming == []
              else processes == Happened(old(processes), old(coming)[0]) && coming == old(coming)[1..]
    {
      more := coming != [];
      if more {
        processes, coming := Happened(processes, coming[0]), coming[1..];
      }
    }

    /** Waits for a child and reaps it; without result if the child never exits. */
    method Wait(pid: Pid) returns (exit: Option<Exit>)
      requires pid < |processes|
      modifies this
      ensures exists n: nat :: Waited(pid, exit.Some?, old(processes), old(coming), processes, coming, n)
      ensures exit.Some? ==> pid < |processes| && processes[pid].exit == exit
    {
      ghost var n := 0;
      assert coming[..0] == [] && coming[0..] == coming;
      while processes[pid].exit.None?
        invariant StillRan(pid, old(processes), old(coming), processes, coming, n)
        decreases |coming|
      {
        if coming == [] {
          exit := None;
          assert Waited(pid, exit.Some?, old(processes), old(coming), processes, coming, n);
          return;
        }
        WaitOn(pid, old(processes), old(coming), processes, coming, n);
        var _ := Sleep();
        n := n + 1;
      }
      exit := processes[pid].exit;
      processes := processes[pid := processes[pid].(reaped := true)];
      assert Waited(pid, exit.Some?, old(processes), old(coming), processes, coming, n);
    }
  }

  /** `n` happenings went by, and before each of them the child was running. */
  ghost predicate StillRan(
    pid: Pid, before: seq<Process>, coming: seq<Happening>, after: seq<Process>, left: seq<Happening>, n: nat)
    requires pid < |before|
  {
    && n <= |coming| && left == coming[n..] && after == After(before, coming[..n])
    && forall k: nat :: k < n ==> After(before, coming[..k])[pid].exit.None?
  }

  /** One thing more happens while the child is running. */
  lemma WaitOn(pid: Pid, before: seq<Process>, coming: seq<Happening>, after: seq<Process>, left: seq<Happening>, n: nat)
    requires pid < |before| && StillRan(pid, before, coming, after, left, n) && left != [] && after[pid].exit.None?
    ensures StillRan(pid, before, coming, Happened(after, left[0]), left[1..], n + 1)
  {
    AfterSnoc(before, coming[..n], left[0]);
    assert coming[..n + 1] == coming[..n] + [left[0]];
  }

  /** After `n` happenings the child had exited, for the first time, and was reaped; or nothing
      more was to come and it had not. */
  ghost predicate Waited(
    pid: Pid, done: bool, before: seq<Process>, coming: seq<Happening>, after: seq<Process>, left: seq<Happening>, n: nat)
    requires pid < |before|
  {
    && n <= |coming|
    && var last := After(before, coming[..n]);
       && StillRan(pid, before, coming, last, left, n)
       && if done then last[pid].exit.Some? && after == last[pid := last[pid].(reaped := true)]
       else last[pid].exit.None? && after == last && left == []
  }

  class PaperServer {
    const config: ServerConfig
    const unitConfig: UnitConfig
    var input: Option<Pid>

    constructor Create(unitConfig: UnitConfig, config: ServerConfig)
      ensures this.unitConfig == unitConfig && this.config == config && input == None
    {
      this.unitConfig, this.config, input := unitConfig, config, None;
    }

    /** The new process, and the state its log thread keeps. */
    method Spawn(os: Os) returns (child: Pid, status: Pid)
      modifies `input, os`processes
      ensures child == status == |old(os.processes)| && input == Some(child)
      ensures os.processes == old(os.processes) + [Fresh(unitConfig.id)]
    {
      child := os.Spawn(unitConfig.id);
      input := Some(child);
      status := child;
    }

    method SendCommand(os: Os, command: string)
      requires InRange(os.processes, input)
      modifies os`processes
      ensures os.processes == WriteTo(old(os.processes), input, command)
    {
      if input.Some? {
        os.WriteLine(input.value, command);
      }
    }
  }

  class DaemonServer {
    var process: Option<Pid>
    const server: PaperServer
    var status: Option<Pid>
    const serverId: UnitId

    constructor (server: PaperServer, serverId: UnitId)
      ensures this.server == server && this.serverId == serverId && process == None && status == None
    {
      this.server, this.serverId, process, status := server, serverId, None, None;
    }

    function Config(): ServerUnitConfig {
      ServerUnitConfig(server.unitConfig, server.config)
    }

    function View(): Entry
      reads this, server
    {
      Entry(serverId, Config(), process, status, server.input)
    }

    method Start(os: Os)
      modifies `process, `status, server`input, os`processes
      ensures View() == Spawned(old(os.processes), old(View()))
      ensures os.processes == old(os.processes) + [Fresh(server.unitConfig.id)]
    {
      var child, state := server.Spawn(os);
      process := Some(child);
      status := Some(state);
    }

    method Status(os: Os) returns (s: ServerStatus)
      requires Linked(os.processes, View())
      ensures s == StatusOf(os.processes, View()) && Looks(os.processes, View(), s)
    {
      if process.Some? {
        match os.processes[process.value].exit
        case Some(how) =>
          match how {
            case Succeeded => s := ServerStatus.Down;
            case FailedWith(code) => s := ServerStatus.Errored(code);
          }
        case None =>
          if status.Some? {
            match os.processes[status.value].output {
              case Unknown => s := ServerStatus.Unknown;
              case Starting => s := ServerStatus.Starting;
              case Started => s := ServerStatus.Running;
              case Errored => s := ServerStatus.Errored(None);
              case Stopped => s := ServerStatus.Down;
              case Stopping => s := ServerStatus.Stopping;
            }
          } else {
            s := ServerStatus.Unknown;
          }
      } else {
        s := ServerStatus.Down;
      }
    }

    method SendCommand(os: Os, command: string)
      requires InRange(os.processes, server.input)
      modifies os`processes
      ensures os.processes == WriteTo(old(os.processes), server.input, command)
    {
      server.SendCommand(os, command);
    }

    method Say(os: Os, message: string)
      requires InRange(os.processes, server.input)
      modifies os`processes
      ensures os.processes == WriteTo(old(os.processes), server.input, "say " + message)
    {
      SendCommand(os, "say " + message);
    }

    /** A tracked child is told to stop and handed over. */
    method Stop(os: Os) returns (child: Option<Pid>)
      requires Linked(os.processes, View())
      modifies `process, os`processes
      ensures child == old(process) && process == None && status == old(status)
      ensures os.processes == if child.Some? then WriteTo(old(os.processes), server.input, StopLine()) else old(os.processes)
    {
      if process.Some? {
        SendCommand(os, "stop");
        child := process;
        process := None;
      } else {
        child := None;
      }
    }

    /** Polls until the server is no longer starting; without success if it never leaves that
        state. */
    method HasStarted(os: Os) returns (started: bool)
      requires Linked(os.processes, View())
      modifies os
      ensures |os.processes| == |old(os.processes)| && (started <==> !RunsWith(os.processes, View(), OutputState.Starting))
      ensures !started ==> os.coming == []
      ensures exists n: nat :: Polled(View(), old(os.processes), old(os.coming), os.processes, os.coming, n)
    {
      ghost var n := 0;
      assert os.coming[..0] == [] && os.coming[0..] == os.coming;
      var s := Status(os);
      while s.Starting?
        invariant Polled(View(), old(os.processes), old(os.coming), os.processes, os.coming, n)
        invariant s == StatusOf(os.processes, View())
        decreases |os.coming|
      {
        if os.coming == [] {
          return false;
        }
        PollOn(View(), old(os.processes), old(os.coming), os.processes, os.coming, n);
        var _ := os.Sleep();
        n := n + 1;
        s := Status(os);
      }
      return true;
    }
  }

  /** `n` happenings went by, and before each of them the server was starting. */
  ghost predicate Polled(
    e: Entry, before: seq<Process>, coming: seq<Happening>, after: seq<Process>, left: seq<Happening>, n: nat)
    requires Linked(before, e)
  {
    && n <= |coming| && left == coming[n..] && after == After(before, coming[..n])
    && forall k: nat :: k < n ==> StatusOf(After(before, coming[..k]), e).Starting?
  }

  /** One thing more happens while the server is starting. */
  lemma PollOn(e: Entry, before: seq<Process>, coming: seq<Happening>, after: seq<Process>, left: seq<Happening>, n: nat)
    requires Linked(before, e) && Polled(e, before, coming, after, left, n) && left != [] && StatusOf(after, e).Starting?
    ensures Polled(e, before, coming, Happened(after, left[0]), left[1..], n + 1)
  {
    AfterSnoc(before, coming[..n], left[0]);
    assert coming[..n + 1] == coming[..n] + [left[0]];
  }
}
