/** The log service: the lines a server process prints, folded into a state and events. */
module LogParser {
  import opened Sequences
  import opened Protocol
  import opened Channels
  import opened Workers

  datatype OutputState = Unknown | Starting | Started | Errored | Stopping | Stopped

  /** `None`: the line could not be read. */
  type Line = Option<string>

  predicate Contains(line: string, part: string) {
    part <= line || (line != "" && Contains(line[1..], part))
  }

  /** Containing a part is having it somewhere. */
  lemma {:induction false} ContainsMeans(line: string, part: string)
    ensures Contains(line, part) <==> exists i: nat :: i <= |line| && part <= line[i..]
  {
    if part <= line {
      assert line[0..] == line;
    } else if line == "" {
      assert forall i: nat :: i <= |line| ==> line[i..] == "";
    } else {
      ContainsMeans(line[1..], part);
      forall i: nat | i <= |line[1..]| ensures line[1..][i..] == line[i + 1..] {
      }
      if i: nat :| i <= |line| && part <= line[i..] {
        assert i > 0 && line[1..][i - 1..] == line[i..];
      }
    }
  }

  /** The states that are looked for, the first come first. */
  const Sought: seq<OutputState> :=
    [OutputState.Starting, OutputState.Started, OutputState.Stopping, OutputState.Stopped, OutputState.Errored]

  /** The line carries the marker of the state. */
  predicate Marks(state: OutputState, line: string) {
    match state
    case Unknown => false
    case Starting => "Loading libraries" <= line
    case Started => Contains(line, "Done (") && Contains(line, "s)! For help")
    case Stopping => Contains(line, "Stopping the server")
    case Stopped => Contains(line, "Closing Server")
    case Errored => Contains(line, "Failed to load eula.txt")
  }

  /** The first state from the `k`-th on whose marker the line carries. */
  function FirstMarked(line: string, k: nat): (next: Option<OutputState>)
    requires k <= |Sought|
    ensures next.Some? ==> exists i :: k <= i < |Sought| && FirstAt(line, k, i) && Sought[i] == next.value
    ensures next.None? ==> forall i :: k <= i < |Sought| ==> !Marks(Sought[i], line)
    decreases |Sought| - k
  {
    if k == |Sought| then None
    else if Marks(Sought[k], line) then Some(Sought[k])
    else FirstMarked(line, k + 1)
  }

  /** From `k` on, `at` is the first of the sought states that the line marks. */
  predicate FirstAt(line: string, k: nat, at: nat)
    requires k <= at < |Sought|
  {
    Marks(Sought[at], line) && forall j :: k <= j < at ==> !Marks(Sought[j], line)
  }

  lemma {:induction false} FirstMarkedIs(line: string, k: nat, at: nat)
    requires k <= at < |Sought| && FirstAt(line, k, at)
    ensures FirstMarked(line, k) == Some(Sought[at])
    decreases at - k
  {
    if k < at {
      FirstMarkedIs(line, k + 1, at);
    }
  }

  /** The state a line leads to, if it is one of those that are recognised. */
  function Recognise(line: string): (next: Option<OutputState>)
    ensures next.Some? ==> Marks(next.value, line) && !next.value.Unknown?
  {
    FirstMarked(line, 0)
  }

  /** The event raised on entering a state. */
  function EventFor(unit: UnitId, state: OutputState): ServerEvent
    requires !state.Unknown?
  {
    match state
    case Starting => ServerStarting(unit)
    case Started => ServerStarted(unit)
    case Stopping => ServerStopping(unit)
    case Stopped => ServerStopped(unit)
    case Errored => ServerFailed(unit, "EULA not accepted")
  }

  /** How many lines are read: reading ends at the first that fails. */
  function Readable(lines: seq<Line>): (n: nat)
    ensures n <= |lines|
    ensures forall i :: 0 <= i < n ==> lines[i].Some?
    ensures n < |lines| ==> lines[n].None?
  {
    if lines == [] || lines[0].None? then 0 else 1 + Readable(lines[1..])
  }

  function StatesOf(line: Line): seq<OutputState> {
    match line
    case None => []
    case Some(text) =>
      match Recognise(text)
      case None => []
      case Some(state) => [state]
  }

  /** The recognised states among the lines that are read, in order. */
  function Recognised(lines: seq<Line>): seq<OutputState> {
    Collect(lines[..Readable(lines)], StatesOf)
  }

  lemma {:induction false} CollectedStates(lines: seq<Line>)
    ensures forall state :: state in Collect(lines, StatesOf) ==> !state.Unknown?
  {
    if lines != [] {
      CollectedStates(lines[1..]);
    }
  }

  function EventsFor(unit: UnitId, states: seq<OutputState>): (events: seq<ServerEvent>)
    requires forall state :: state in states ==> !state.Unknown?
    ensures |events| == |states|
    ensures forall i :: 0 <= i < |states| ==> events[i] == EventFor(unit, states[i])
  {
    seq(|states|, i requires 0 <= i < |states| => EventFor(unit, states[i]))
  }

  lemma EventsForSnoc(unit: UnitId, states: seq<OutputState>, state: OutputState)
    requires !state.Unknown? && forall s :: s in states ==> !s.Unknown?
    ensures EventsFor(unit, states + [state]) == EventsFor(unit, states) + [EventFor(unit, state)]
  {
  }

  /** The state after some lines: as the last recognised one left it. */
  function LastOf(from: OutputState, states: seq<OutputState>): OutputState {
    if states == [] then from else states[|states| - 1]
  }

  /** The events a log thread raises. */
  function Events(unit: UnitId, lines: seq<Line>): seq<ServerEvent> {
    CollectedStates(lines[..Readable(lines)]);
    EventsFor(unit, Recognised(lines))
  }

  function Script(unit: UnitId, lines: seq<Line>): seq<ThreadAction> {
    Raises(unit, Events(unit, lines))
  }

  // ---------- What the lines report ----------

  /** The part occurs somewhere in the line. */
  ghost predicate Has(line: string, part: string) {
    exists i: nat :: i <= |line| && part <= line[i..]
  }

  ghost predicate SaysStarting(line: string) {
    "Loading libraries" <= line
  }

  ghost predicate SaysStarted(line: string) {
    Has(line, "Done (") && Has(line, "s)! For help") && !SaysStarting(line)
  }

  ghost predicate SaysStopping(line: string) {
    Has(line, "Stopping the server") && !SaysStarting(line) && !SaysStarted(line)
  }

  ghost predicate SaysStopped(line: string) {
    Has(line, "Closing Server") && !SaysStarting(line) && !SaysStarted(line) && !SaysStopping(line)
  }

  ghost predicate SaysFailed(line: string) {
    && Has(line, "Failed to load eula.txt")
    && !SaysStarting(line) && !SaysStarted(line) && !SaysStopping(line) && !SaysStopped(line)
  }

  /** The state that a line reports. */
  ghost predicate Shows(line: string, state: OutputState) {
    match state
    case Unknown => false
    case Starting => SaysStarting(line)
    case Started => SaysStarted(line)
    case Stopping => SaysStopping(line)
    case Stopped => SaysStopped(line)
    case Errored => SaysFailed(line)
  }

  /** The line reports something. */
  ghost predicate Tells(line: string) {
    SaysStarting(line) || SaysStarted(line) || SaysStopping(line) || SaysStopped(line) || SaysFailed(line)
  }

  /** The event is the one to raise for a line of the unit's process. */
  ghost predicate Reports(line: string, unit: UnitId, event: ServerEvent) {
    event.serverId == unit
    && match event
       case ServerStarting(_) => SaysStarting(line)
       case ServerStarted(_) => SaysStarted(line)
       case ServerStopping(_) => SaysStopping(line)
       case ServerStopped(_) => SaysStopped(line)
       case ServerFailed(_, error) => SaysFailed(line) && error == "EULA not accepted"
       case _ => false
  }

  /** `at` are the lines, among those that are read, that report something. */
  ghost predicate TellingAt(lines: seq<Line>, at: seq<nat>) {
    && Increasing(at)
    && (forall k :: 0 <= k < |at| ==> at[k] < |lines| && lines[at[k]].Some? && Tells(lines[at[k]].value))
    && (forall i: nat :: i < |lines| && lines[i].Some? && Tells(lines[i].value) ==> i in at)
  }

  ghost predicate ReportedAt(unit: UnitId, lines: seq<Line>, events: seq<ServerEvent>, at: seq<nat>) {
    && |events| == |at|
    && forall k :: 0 <= k < |at| ==> at[k] < |lines| && lines[at[k]].Some? && Reports(lines[at[k]].value, unit, events[k])
  }

  /** One event for each of the lines read that reports something, in their order. */
  ghost predicate Reported(unit: UnitId, lines: seq<Line>, events: seq<ServerEvent>) {
    exists at: seq<nat> :: TellingAt(lines[..Readable(lines)], at) && ReportedAt(unit, lines[..Readable(lines)], events, at)
  }

  /** The state is the one that the last line that reports something shows; without such a
      line it is what it was. */
  ghost predicate ShownLast(from: OutputState, lines: seq<Line>, state: OutputState) {
    exists at: seq<nat> ::
      && TellingAt(lines[..Readable(lines)], at)
      && if at == [] then state == from else Shows(lines[at[|at| - 1]].value, state)
  }

  lemma MarksMeans(line: string)
    ensures Marks(OutputState.Starting, line) <==> SaysStarting(line)
    ensures Marks(OutputState.Started, line) <==> Has(line, "Done (") && Has(line, "s)! For help")
    ensures Marks(OutputState.Stopping, line) <==> Has(line, "Stopping the server")
    ensures Marks(OutputState.Stopped, line) <==> Has(line, "Closing Server")
    ensures Marks(OutputState.Errored, line) <==> Has(line, "Failed to load eula.txt")
  {
    ContainsMeans(line, "Done (");
    ContainsMeans(line, "s)! For help");
    ContainsMeans(line, "Stopping the server");
    ContainsMeans(line, "Closing Server");
    ContainsMeans(line, "Failed to load eula.txt");
  }

  /** What a line says is the first thing that it marks. */
  lemma SaysFirst(line: string)
    ensures var starting, started, stopping := Marks(OutputState.Starting, line), Marks(OutputState.Started, line), Marks(OutputState.Stopping, line);
            && (SaysStarting(line) <==> starting)
            && (SaysStarted(line) <==> started && !starting)
            && (SaysStopping(line) <==> stopping && !started && !starting)
            && (SaysStopped(line) <==> Marks(OutputState.Stopped, line) && !stopping && !started && !starting)
            && (SaysFailed(line) <==>
                  Marks(OutputState.Errored, line) && !Marks(OutputState.Stopped, line) && !stopping && !started && !starting)
  {
    MarksMeans(line);
  }

  /** The first state marked, by its place among those sought. */
  lemma RecognisedFirst(line: string) returns (k: nat)
    ensures k <= |Sought|
    ensures k < |Sought| ==> FirstAt(line, 0, k) && Recognise(line) == Some(Sought[k])
    ensures k == |Sought| ==> Recognise(line).None? && forall j :: 0 <= j < |Sought| ==> !Marks(Sought[j], line)
  {
    k := |Sought|;
    if Recognise(line).Some? {
      k :| 0 <= k < |Sought| && FirstAt(line, 0, k) && Sought[k] == Recognise(line).value;
    }
  }

  /** What a line is recognised as is what it reports. */
  lemma RecogniseMeans(line: string)
    ensures Recognise(line).None? <==> !Tells(line)
    ensures Recognise(line).Some? ==> Shows(line, Recognise(line).value)
  {
    SaysFirst(line);
    var k := RecognisedFirst(line);
    assert Sought[0] == OutputState.Starting && Sought[1] == OutputState.Started && Sought[2] == OutputState.Stopping;
    assert Sought[3] == OutputState.Stopped && Sought[4] == OutputState.Errored;
  }

  lemma ShownIsReported(line: string, unit: UnitId, state: OutputState)
    requires Shows(line, state)
    ensures Reports(line, unit, EventFor(unit, state))
  {
  }

  /** The lines `at` are those that report something, and show these states. */
  ghost predicate ShowsAt(lines: seq<Line>, states: seq<OutputState>, at: seq<nat>) {
    && TellingAt(lines, at) && |states| == |at|
    && forall k :: 0 <= k < |at| ==> Shows(lines[at[k]].value, states[k])
  }

  lemma ShowsMore(lines: seq<Line>, line: Line, states: seq<OutputState>, at: seq<nat>)
    requires ShowsAt(lines, states, at)
    ensures line.Some? && Tells(line.value) ==>
      forall state :: Shows(line.value, state) ==> ShowsAt(lines + [line], states + [state], at + [|lines|])
    ensures line.None? || !Tells(line.value) ==> ShowsAt(lines + [line], states, at)
  {
    var all := lines + [line];
    assert forall i :: 0 <= i < |lines| ==> all[i] == lines[i];
    if line.Some? && Tells(line.value) {
      var more := at + [|lines|];
      forall i: nat | i < |all| && all[i].Some? && Tells(all[i].value) ensures i in more {
        if i < |lines| {
          assert i in at;
        } else {
          assert more[|at|] == i;
        }
      }
    }
  }

  /** The states collected from some lines are shown by the lines that report something. */
  lemma {:induction false} CollectedShows(lines: seq<Line>) returns (at: seq<nat>)
    requires forall i :: 0 <= i < |lines| ==> lines[i].Some?
    ensures ShowsAt(lines, Collect(lines, StatesOf), at)
    decreases |lines|
  {
    at := [];
    if lines != [] {
      var front, line := lines[..|lines| - 1], lines[|lines| - 1];
      at := CollectedShows(front);
      LastSplit(lines);
      CollectSnoc(front, line, StatesOf);
      AppendNothing(Collect(front, StatesOf));
      RecogniseMeans(line.value);
      ShowsMore(front, line, Collect(front, StatesOf), at);
      if Tells(line.value) {
        at := at + [|front|];
      }
    }
  }

  /** The log thread's events and state, told by the lines alone. */
  lemma EventsAreReported(unit: UnitId, lines: seq<Line>, from: OutputState)
    ensures Reported(unit, lines, Events(unit, lines))
    ensures ShownLast(from, lines, LastOf(from, Recognised(lines)))
  {
    var read := lines[..Readable(lines)];
    var at := CollectedShows(read);
    CollectedStates(read);
    var states, events := Recognised(lines), Events(unit, lines);
    forall k | 0 <= k < |at| ensures Reports(read[at[k]].value, unit, events[k]) {
      ShownIsReported(read[at[k]].value, unit, states[k]);
    }
    assert ReportedAt(unit, read, events, at);
    assert at != [] ==> read[at[|at| - 1]] == lines[at[|at| - 1]];
  }

  class BasicLogServiceHandler {
    var state: OutputState
    const eventHandler: EventHandler
    const serverId: UnitId

    constructor (eventHandler: EventHandler, serverId: UnitId)
      ensures state == OutputState.Unknown && this.eventHandler == eventHandler && this.serverId == serverId
    {
      this.state := OutputState.Unknown;
      this.eventHandler := eventHandler;
      this.serverId := serverId;
    }

    /** The chain of tests on one line: it finds the first state sought whose marker the line
        carries, and none exactly if the line carries no marker. */
    method Classify(line: string) returns (next: Option<OutputState>)
      ensures next.Some? ==> exists i :: 0 <= i < |Sought| && FirstAt(line, 0, i) && Sought[i] == next.value
      ensures next.None? ==> forall state :: !Marks(state, line)
      ensures next == Recognise(line)
    {
      if "Loading libraries" <= line {
        next := Some(OutputState.Starting);
        FirstMarkedIs(line, 0, 0);
      } else if Contains(line, "Done (") && Contains(line, "s)! For help") {
        next := Some(OutputState.Started);
        FirstMarkedIs(line, 0, 1);
      } else if Contains(line, "Stopping the server") {
        next := Some(OutputState.Stopping);
        FirstMarkedIs(line, 0, 2);
      } else if Contains(line, "Closing Server") {
        next := Some(OutputState.Stopped);
        FirstMarkedIs(line, 0, 3);
      } else if Contains(line, "Failed to load eula.txt") {
        next := Some(OutputState.Errored);
        FirstMarkedIs(line, 0, 4);
      } else {
        next := None;
      }
    }

    /** Enters a state and raises its event. */
    method Enter(next: OutputState, ghost before: seq<ManagerCmd>, ghost done: seq<ServerEvent>)
      requires !next.Unknown?
      requires eventHandler.dispatcher.items == before + Dispatched(done)
      modifies this`state, eventHandler.dispatcher
      ensures state == next
      ensures eventHandler.dispatcher.items == before + Dispatched(done + [EventFor(serverId, next)])
    {
      state := next;
      eventHandler.RaiseEvent(serverId, EventFor(serverId, next));
    }

    ghost function Dispatched(events: seq<ServerEvent>): seq<ManagerCmd> {
      seq(|events|, i requires 0 <= i < |events| => Raise(serverId, events[i]))
    }

    /** Has gone through the given states. */
    ghost predicate WentThrough(states: seq<OutputState>, from: OutputState, before: seq<ManagerCmd>)
      reads this, eventHandler.dispatcher
    {
      && (forall next :: next in states ==> !next.Unknown?)
      && state == LastOf(from, states)
      && eventHandler.dispatcher.items == before + Dispatched(EventsFor(serverId, states))
    }

    method EnterIf(next: Option<OutputState>, ghost states: seq<OutputState>, ghost from: OutputState, ghost before: seq<ManagerCmd>)
      requires WentThrough(states, from, before) && (next.Some? ==> !next.value.Unknown?)
      modifies this`state, eventHandler.dispatcher
      ensures WentThrough(states + if next.Some? then [next.value] else [], from, before)
    {
      AppendNothing(states);
      if next.Some? {
        EventsForSnoc(serverId, states, next.value);
        Enter(next.value, before, EventsFor(serverId, states));
      }
    }

    /** The shared state ends as the last line that reports something shows it, and exactly the
        events that the lines report are raised, in their order. */
    method Run(lines: seq<Line>)
      modifies this`state, eventHandler.dispatcher
      ensures state == LastOf(old(state), Recognised(lines))
      ensures eventHandler.dispatcher.items == old(eventHandler.dispatcher.items) + Dispatched(Events(serverId, lines))
      ensures Reported(serverId, lines, Events(serverId, lines)) && ShownLast(old(state), lines, state)
    {
      ghost var before := eventHandler.dispatcher.items;
      AppendNothing(before);
      var i := 0;
      while i < |lines| && lines[i].Some?
        invariant i <= |lines| && forall j :: 0 <= j < i ==> lines[j].Some?
        invariant WentThrough(Collect(lines[..i], StatesOf), old(state), before)
      {
        var next := Classify(lines[i].value);
        EnterIf(next, Collect(lines[..i], StatesOf), old(state), before);
        SplitAt(lines, i);
        CollectSnoc(lines[..i], lines[i], StatesOf);
        i := i + 1;
      }
      assert i == Readable(lines);
      EventsAreReported(serverId, lines, old(state));
    }
  }

  // ---------- Is an error final? ----------

  /** The state after lines were read. */
  function StateAfter(from: OutputState, lines: seq<Line>): OutputState {
    LastOf(from, Recognised(lines))
  }

  lemma {:induction false} ReadableIs(lines: seq<Line>, n: nat)
    requires n <= |lines| && (n < |lines| ==> lines[n].None?)
    requires forall i :: 0 <= i < n ==> lines[i].Some?
    ensures Readable(lines) == n
  {
  }

  /** Lines after readable ones are read as far as they would be by themselves. */
  lemma {:induction false} ReadableAppend(before: seq<Line>, later: seq<Line>)
    ensures Readable(before + later) == if Readable(before) == |before| then |before| + Readable(later) else Readable(before)
  {
    var all := before + later;
    assert forall i :: 0 <= i < |before| ==> all[i] == before[i];
    assert forall i :: 0 <= i < |later| ==> all[|before| + i] == later[i];
    ReadableIs(all, if Readable(before) == |before| then |before| + Readable(later) else Readable(before));
  }

  lemma {:induction false} RecognisedIs(lines: seq<Line>, taken: seq<Line>)
    requires Readable(lines) == |taken| && lines[..|taken|] == taken
    ensures Recognised(lines) == Collect(taken, StatesOf)
  {
  }

  /** More lines add what they are recognised as, unless reading ended before. */
  lemma {:induction false} RecognisedAppend(before: seq<Line>, later: seq<Line>)
    ensures Recognised(before + later) == Recognised(before) + if Readable(before) == |before| then Recognised(later) else []
  {
    var n, m := Readable(before), Readable(later);
    ReadableAppend(before, later);
    RecognisedIs(before, before[..n]);
    if n == |before| {
      TakenBeyond(before, later, m);
      RecognisedIs(later, later[..m]);
      RecognisedIs(before + later, before + later[..m]);
      CollectAppend(before, later[..m], StatesOf);
    } else {
      TakenWithin(before, later, n);
      RecognisedIs(before + later, before[..n]);
      AppendNothing(Recognised(before));
    }
  }

  lemma TakenBeyond(before: seq<Line>, later: seq<Line>, n: nat)
    requires n <= |later|
    ensures (before + later)[..|before| + n] == before + later[..n] && before[..|before|] == before
  {
  }

  lemma TakenWithin(before: seq<Line>, later: seq<Line>, n: nat)
    requires n <= |before|
    ensures (before + later)[..n] == before[..n]
  {
  }

  lemma {:induction false} OneLine(line: Line)
    ensures Recognised([line]) == StatesOf(line)
  {
    var lines := [line];
    if line.Some? {
      ReadableIs(lines, 1);
      assert lines[..1] == lines;
      CollectOne(line, StatesOf);
    } else {
      ReadableIs(lines, 0);
    }
  }

  /** Whatever more is read, the state is `Errored` all along. */
  ghost predicate StaysErrored(from: OutputState, before: seq<Line>, later: seq<Line>) {
    forall n: nat :: n <= |later| ==> StateAfter(from, before + later[..n]).Errored?
  }

  ghost predicate OnlyErrors(states: seq<OutputState>) {
    forall state :: state in states ==> state.Errored?
  }

  /** What one more line makes of the state. */
  lemma {:induction false} StateAfterSnoc(from: OutputState, lines: seq<Line>, line: Line)
    ensures StateAfter(from, lines + [line])
         == LastOf(StateAfter(from, lines), if Readable(lines) == |lines| then StatesOf(line) else [])
  {
    RecognisedAppend(lines, [line]);
    OneLine(line);
    AppendNothing(Recognised(lines));
  }

  /** An errored state is final exactly if every line read from then on that is recognised at
      all reports the same error, or if nothing more is read. */
  lemma {:induction false} ErroredIsFinalExactlyWhen(from: OutputState, before: seq<Line>, later: seq<Line>)
    requires StateAfter(from, before).Errored?
    ensures StaysErrored(from, before, later) <==> (Readable(before) < |before| || OnlyErrors(Recognised(later)))
    decreases |later|
  {
    if later == [] {
      AppendNothing(before);
      assert forall n: nat :: n <= |later| ==> before + later[..n] == before;
    } else {
      var fewer, line := later[..|later| - 1], later[|later| - 1];
      ErroredIsFinalExactlyWhen(from, before, fewer);
      assert fewer + [line] == later;
      FinalSnoc(from, before, fewer, line);
    }
  }

  lemma {:induction false} FinalSnoc(from: OutputState, before: seq<Line>, later: seq<Line>, line: Line)
    requires StaysErrored(from, before, later) <==> (Readable(before) < |before| || OnlyErrors(Recognised(later)))
    ensures StaysErrored(from, before, later + [line])
        <==> (Readable(before) < |before| || OnlyErrors(Recognised(later + [line])))
  {
    StaysErroredSnoc(from, before, later, line);
    RecognisedAppend(later, [line]);
    OneLine(line);
    Associative(before, later, [line]);
    StateAfterSnoc(from, before + later, line);
    ReadableAppend(before, later);
    if StaysErrored(from, before, later) {
      assert later[..|later|] == later;
      assert StateAfter(from, before + later).Errored?;
    }
  }

  lemma {:induction false} StaysErroredSnoc(from: OutputState, before: seq<Line>, later: seq<Line>, line: Line)
    ensures StaysErrored(from, before, later + [line])
        <==> StaysErrored(from, before, later) && StateAfter(from, before + (later + [line])).Errored?
  {
    var all := later + [line];
    assert all[..|all|] == all;
    forall n: nat | n <= |later| ensures all[..n] == later[..n] {
    }
    if StaysErrored(from, before, all) {
      forall n: nat | n <= |later| ensures StateAfter(from, before + later[..n]).Errored? {
        assert StateAfter(from, before + all[..n]).Errored?;
      }
      assert StateAfter(from, before + all[..|all|]).Errored?;
    }
  }

  lemma {:induction false} ContainsLetters(line: string, part: string, letter: char)
    requires letter in part && letter !in line
    ensures !Contains(line, part)
  {
    if line != "" {
      ContainsLetters(line[1..], part, letter);
    }
  }

  /** The markers of the sought states before the last have letters the line lacks. */
  lemma ErrorMarked(line: string)
    requires Marks(OutputState.Errored, line) && line != "" && line[0] != 'L'
    requires 'D' !in line && 'S' !in line && 'C' !in line
    ensures Recognise(line) == Some(OutputState.Errored)
  {
    ContainsLetters(line, "Done (", 'D');
    ContainsLetters(line, "Stopping the server", 'S');
    ContainsLetters(line, "Closing Server", 'C');
    FirstMarkedIs(line, 0, 4);
  }

  lemma StoppingMarked(line: string)
    requires Marks(OutputState.Stopping, line) && line != "" && line[0] != 'L' && 'D' !in line
    ensures Recognise(line) == Some(OutputState.Stopping)
  {
    ContainsLetters(line, "Done (", 'D');
    FirstMarkedIs(line, 0, 2);
  }

  lemma TwoLines(from: OutputState, first: string, second: string)
    requires Recognise(first).Some? && Recognise(second).Some?
    ensures StateAfter(from, [Some(first)]) == Recognise(first).value
    ensures StateAfter(from, [Some(first), Some(second)]) == Recognise(second).value
  {
    OneLine(Some(first));
    StateAfterSnoc(from, [Some(first)], Some(second));
    ReadableIs([Some(first)], 1);
    assert [Some(first)] + [Some(second)] == [Some(first), Some(second)];
  }

  /** It is not final in general: a server whose licence is not accepted goes on to stop. */
  lemma ErroredIsNotFinal(from: OutputState, error: string, stopping: string)
    requires error == "Failed to load eula.txt" && stopping == "Stopping the server"
    ensures StateAfter(from, [Some(error)]).Errored?
    ensures StateAfter(from, [Some(error), Some(stopping)]).Stopping?
  {
    assert Marks(OutputState.Errored, error);
    ErrorMarked(error);
    assert Marks(OutputState.Stopping, stopping);
    StoppingMarked(stopping);
    TwoLines(from, error, stopping);
  }
}
