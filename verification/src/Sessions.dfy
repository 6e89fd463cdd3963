/** What a client that asks for one installation or one update, and nothing else, is told. */
module Sessions {
  import opened Sequences
  import opened Protocol
  import opened Subscriptions
  import opened System
  import opened Workers
  import opened Hearing
  import opened Provenance
  import Semver
  import Installer
  import Updater
  import Replies
  import Acknowledgement
  import Answers
  import Registration
  import Pipeline
  import Stopping
  import Runs
  import Routing
  import Sources

  /** Nothing is left to do for any thread of the daemon. */
  predicate Idle(s: State) {
    && !s.daemon.exited
    && s.clients.outbox == [] && s.daemon.dq == [] && s.daemon.handler.None?
    && s.manager.mq == [] && s.manager.sending == []
    && forall t :: 0 <= t < |s.threads| ==> s.threads[t].pc >= |s.threads[t].actions|
  }

  /** `own` is found in `heard`, in order. */
  ghost predicate HeardInOrder(own: seq<ServerEvent>, heard: seq<ServerEvent>) {
    exists at :: EmbedsAt(own, heard, at)
  }

  // ---------- What a worker announces ----------

  function EventsIn(script: seq<ThreadAction>): seq<ServerEvent> {
    Collect(script, RaisedBy)
  }

  lemma {:induction false} RaisesCollect(unit: UnitId, events: seq<ServerEvent>)
    ensures EventsIn(Raises(unit, events)) == events
  {
    if events != [] {
      RaisesCollect(unit, events[1..]);
      assert Raises(unit, events)[1..] == Raises(unit, events[1..]);
    }
  }

  lemma TailEvents(unit: UnitId, events: seq<ServerEvent>, tail: seq<ThreadAction>)
    ensures EventsIn(Raises(unit, events) + tail) == events + EventsIn(tail)
  {
    CollectAppend(Raises(unit, events), tail, RaisedBy);
    RaisesCollect(unit, events);
  }

  function InstallEvents(request: InstallRequest, env: Installer.InstallEnv): seq<ServerEvent> {
    EventsIn(Installer.InstallScript(request, env))
  }

  function UpdateEvents(requested: Option<Semver.Version>, config: ServerUnitConfig, env: Updater.UpdateEnv): seq<ServerEvent> {
    EventsIn(Updater.UpdateScript(requested, config, env))
  }

  lemma ProgressOnly(unit: UnitId, stages: seq<Stage>)
    ensures !Session(unit, ProgressEvents(unit, stages))
  {
  }

  lemma ProgressThen(unit: UnitId, stages: seq<Stage>, last: ServerEvent)
    requires last.Final() && last.serverId == unit
    ensures Session(unit, ProgressEvents(unit, stages) + [last])
  {
  }

  /** A worker announces its steps in order; unless it panics, it then ends with exactly one
      final event, which says whether it succeeded. */
  ghost predicate EndsAs(unit: UnitId, stages: seq<Stage>, events: seq<ServerEvent>, finished: bool, panicked: bool) {
    && ProgressEvents(unit, stages) <= events
    && (!panicked <==> Session(unit, events))
    && (finished <==> events != [] && events[|events| - 1].Completion())
    && (panicked ==> events == ProgressEvents(unit, stages))
  }

  predicate EndsInstall(event: ServerEvent) {
    event.InstallationComplete? || event.InstallationFailed?
  }

  predicate EndsUpdate(event: ServerEvent) {
    event.UpdateComplete? || event.UpdateFailed?
  }

  predicate EndingOf(install: bool, event: ServerEvent) {
    if install then EndsInstall(event) else EndsUpdate(event)
  }

  lemma EndEvents<E>(install: bool, unit: UnitId, outcome: Outcome<ServerUnitConfig, E>, describe: E -> string)
    requires outcome.Finished? ==> outcome.value.unit.id == unit
    ensures EventsIn(JobEnd(install, unit, outcome, describe))
         == match outcome
            case Panicked => []
            case Failed(e) => [FailedEvent(install, unit, describe(e))]
            case Finished(_) => [CompleteEvent(install, unit)]
  {
    match outcome
    case Panicked =>
    case Failed(e) => CollectOne(RaiseEvent(unit, FailedEvent(install, unit, describe(e))), RaisedBy);
    case Finished(config) =>
      CollectOne(Register(config), RaisedBy);
      CollectSnoc([Register(config)], RaiseEvent(unit, CompleteEvent(install, unit)), RaisedBy);
      assert [Register(config)] + [RaiseEvent(unit, CompleteEvent(install, unit))] == JobEnd(install, unit, outcome, describe);
  }

  /** An installation or an update announces its steps in order and then, unless the worker
      panics, ends with exactly one final event of its kind. */
  lemma JobEventsEnd<E>(install: bool, unit: UnitId, run: Run<ServerUnitConfig, E>, describe: E -> string)
    requires run.outcome.Finished? ==> run.outcome.value.unit.id == unit
    ensures var events := EventsIn(JobScript(install, unit, run, describe));
            && EndsAs(unit, run.progress, events, run.outcome.Finished?, run.outcome.Panicked?)
            && (Session(unit, events) ==> EndingOf(install, events[|events| - 1]))
  {
    var progress := ProgressEvents(unit, run.progress);
    TailEvents(unit, progress, JobEnd(install, unit, run.outcome, describe));
    EndEvents(install, unit, run.outcome, describe);
    match run.outcome
    case Panicked =>
      assert progress + [] == progress;
      ProgressOnly(unit, run.progress);
    case Failed(e) => ProgressThen(unit, run.progress, FailedEvent(install, unit, describe(e)));
    case Finished(_) => ProgressThen(unit, run.progress, CompleteEvent(install, unit));
  }

  lemma InstallEventsEnd(request: InstallRequest, env: Installer.InstallEnv)
    ensures var run, events := Installer.PerformRun(request, env), InstallEvents(request, env);
            && EndsAs(request.unitId, run.progress, events, run.outcome.Finished?, run.outcome.Panicked?)
            && (Session(request.unitId, events) ==> EndingOf(true, events[|events| - 1]))
  {
    Installer.InstallOutcome(request, env);
    JobEventsEnd(true, request.unitId, Installer.PerformRun(request, env), env.describe);
  }

  lemma {:induction false} UpdateEventsEnd(requested: Option<Semver.Version>, config: ServerUnitConfig, env: Updater.UpdateEnv)
    ensures var run, events := Updater.PerformRun(requested, config, env), UpdateEvents(requested, config, env);
            && EndsAs(config.unit.id, run.progress, events, run.outcome.Finished?, run.outcome.Panicked?)
            && (Session(config.unit.id, events) ==> EndingOf(false, events[|events| - 1]))
  {
    Updater.UpdateOutcome(requested, config, env);
    JobEventsEnd(false, config.unit.id, Updater.PerformRun(requested, config, env), env.describe);
  }

  // ---------- One command, one handler ----------

  lemma {:induction false} KeysOfAnswered(handled: seq<Handler>, c: ClientId, h: Handler)
    requires Acknowledgement.AnsweredTo(handled, c) == [h]
    ensures h in handled && h.client == c
    ensures Collect(handled, KeysHandled(c)) == KeysOf(h.actions)
  {
    if handled[0].client == c {
      var rest := Acknowledgement.AnsweredTo(handled[1..], c);
      assert [handled[0]] + rest == [h];
      assert ([handled[0]] + rest)[0] == h;
      assert rest == [];
      NoneAnswered(handled[1..], c);
      assert KeysOf(h.actions) + [] == KeysOf(h.actions);
    } else {
      assert Acknowledgement.AnsweredTo(handled, c) == [] + Acknowledgement.AnsweredTo(handled[1..], c);
      KeysOfAnswered(handled[1..], c, h);
    }
  }

  lemma {:induction false} NoneAnswered(handled: seq<Handler>, c: ClientId)
    requires Acknowledgement.AnsweredTo(handled, c) == []
    ensures Collect(handled, KeysHandled(c)) == []
  {
    if handled != [] {
      NoneAnswered(handled[1..], c);
    }
  }

  lemma SingleHandler(s: State, c: ClientId, cmd: DaemonCmd) returns (h: Handler)
    requires Idle(s) && Replies.InOrder(s, c) && KeysAccounted(s, c) && Replies.SentBy(s, c) == [cmd]
    ensures h in s.daemon.handled && h.client == c && h.cmd == cmd
    ensures forall other :: other in s.daemon.handled && other.client == c ==> other == h
    ensures KeysAdded(s.manager.hist, c) == KeysOf(h.actions)
    ensures Collect(s.daemon.handled, Replies.ResponseHandled(c)) == [h.response]
  {
    var handled := s.daemon.handled;
    var cmds := Collect(handled, Replies.CommandHandled(c));
    assert cmds == Replies.SentBy(s, c) by {
      assert cmds + [] + [] + [] == cmds;
    }
    Runs.AnsweredParts(handled, c);
    var answered := Acknowledgement.AnsweredTo(handled, c);
    h := answered[0];
    assert answered == [h];
    Acknowledgement.AnsweredSizes(handled, c);
    KeysOfAnswered(handled, c, h);
    assert KeysOf(h.actions) + [] == KeysOf(h.actions);
  }

  // ---------- What the handler and its worker sent is heard ----------

  ghost predicate RaisedFrom(script: seq<ThreadAction>, cmd: ManagerCmd, event: ServerEvent, j: nat) {
    j < |script| && script[j].RaiseEvent? && script[j].event == event && cmd == Raise(script[j].unit, event)
  }

  lemma {:induction false} RaisedSizes(script: seq<ThreadAction>)
    ensures |RaisedCmds(script)| == |EventsIn(script)|
  {
    if script != [] {
      RaisedSizes(script[1..]);
    }
  }

  /** The k-th message of a script and the k-th event belong to one action. */
  lemma {:induction false} RaisedMatch(script: seq<ThreadAction>, k: nat) returns (j: nat)
    requires k < |RaisedCmds(script)| == |EventsIn(script)|
    ensures RaisedFrom(script, RaisedCmds(script)[k], EventsIn(script)[k], j)
  {
    var first := |RaisedCmd(script[0])|;
    if k >= first {
      RaisedSizes(script[1..]);
      j := RaisedMatch(script[1..], k - first);
      j := j + 1;
    } else {
      j := 0;
    }
  }

  /** Everything the script announces is of a kind its audience subscribed to. */
  ghost predicate Audible(script: seq<ThreadAction>, c: ClientId, audience: seq<ManagerCmd>) {
    forall j :: 0 <= j < |script| && script[j].RaiseEvent? ==>
      AddSubscription(script[j].unit, EventType(script[j].event), c) in audience
  }

  lemma WorkerOwn(hist: seq<ManagerCmd>, t: Thread, c: ClientId)
    requires ThreadPlaced(hist, t) && t.pc == |t.actions| && Audible(t.actions, c, t.audience)
    ensures Addressed(RaisedCmds(t.actions), EventsIn(t.actions), hist, t.sentAt, c)
  {
    assert t.actions[..t.pc] == t.actions;
    var cmds, events := RaisedCmds(t.actions), EventsIn(t.actions);
    RaisedSizes(t.actions);
    forall k: nat | k < |cmds| ensures AddressedAt(cmds, events, hist, t.sentAt, c, k) {
      var j := RaisedMatch(t.actions, k);
      var add := AddSubscription(t.actions[j].unit, EventType(events[k]), c);
      assert add in t.audience && add in hist[..t.bornAt];
      var i :| 0 <= i < t.bornAt && hist[i] == add;
      assert hist[..t.sentAt[k]][i] == add;
      KeyIsAdded(hist[..t.sentAt[k]], c, (t.actions[j].unit, EventType(events[k])));
    }
  }

  /** Everything the script announces belongs to one unit and is of the given kinds. */
  ghost predicate OfKinds(script: seq<ThreadAction>, id: UnitId, kinds: set<ServerEventType>) {
    forall j :: 0 <= j < |script| && script[j].RaiseEvent? ==>
      script[j].unit == id && EventType(script[j].event) in kinds
  }

  /** The kinds of events a client that installs, or updates, subscribes to. */
  function Kinds(install: bool): seq<ServerEventType> {
    if install then [TInstallationComplete, TInstallationFailed, TActionProgress]
    else [TUpdateComplete, TUpdateFailed, TActionProgress]
  }

  function KindsOf(install: bool): set<ServerEventType> {
    set kind | kind in Kinds(install)
  }

  /** Three subscriptions, and then the refusal of an installation or a worker for the job. */
  ghost predicate JobActions(h: Handler, install: bool, id: UnitId) {
    && |h.actions| == 4 && h.pc == 4
    && (forall i :: 0 <= i < 3 ==> h.actions[i] == Subscribe(id, Kinds(install)[i]))
    && match h.actions[3]
       case Announce(unit, event) => install && unit == id && event == InstallationFailed(id, ExistsText())
       case Launch(script) => OfKinds(script, id, KindsOf(install))
       case _ => false
  }

  /** The events a job's command leads to: those of the very thread it launched, or the one it
      announced itself. */
  function Own(threads: seq<Thread>, h: Handler): seq<ServerEvent> {
    if |h.actions| != 4 then []
    else
      match h.actions[3]
      case Announce(_, event) => [event]
      case Launch(_) =>
        if h.child.Some? && h.child.value < |threads| then EventsIn(threads[h.child.value].actions) else []
      case _ => []
  }

  lemma FourPushed(client: ClientId, actions: seq<HandlerAction>)
    requires |actions| == 4
    ensures PushedBy(client, actions)
         == PushedAction(client)(actions[0]) + PushedAction(client)(actions[1]) + PushedAction(client)(actions[2]) + PushedAction(client)(actions[3])
    ensures PushedBy(client, actions[..3])
         == PushedAction(client)(actions[0]) + PushedAction(client)(actions[1]) + PushedAction(client)(actions[2])
    ensures KeysOf(actions)
         == SubscribedKey(actions[0]) + SubscribedKey(actions[1]) + SubscribedKey(actions[2]) + SubscribedKey(actions[3])
  {
    var f, g := PushedAction(client), SubscribedKey;
    var one, two, three := [actions[0]], [actions[0]] + [actions[1]], [actions[0]] + [actions[1]] + [actions[2]];
    assert actions == three + [actions[3]] && actions[..3] == three;
    CollectOne(actions[0], f);
    CollectOne(actions[0], g);
    CollectSnoc(one, actions[1], f);
    CollectSnoc(one, actions[1], g);
    CollectSnoc(two, actions[2], f);
    CollectSnoc(two, actions[2], g);
    CollectSnoc(three, actions[3], f);
    CollectSnoc(three, actions[3], g);
  }

  /** What a job's command sends itself. */
  lemma JobPushes(h: Handler, install: bool, id: UnitId)
    requires JobActions(h, install, id)
    ensures var kinds := Kinds(install);
            var adds := [AddSubscription(id, kinds[0], h.client), AddSubscription(id, kinds[1], h.client), AddSubscription(id, kinds[2], h.client)];
            && PushedBy(h.client, h.actions[..3]) == adds
            && PushedBy(h.client, h.actions)
               == (if h.actions[3].Announce? then adds + [Raise(id, h.actions[3].event)] else adds)
    ensures KeysOf(h.actions) == [(id, Kinds(install)[0]), (id, Kinds(install)[1]), (id, Kinds(install)[2])]
  {
    FourPushed(h.client, h.actions);
  }

  lemma {:induction false} OneOwn(cmd: ManagerCmd, event: ServerEvent, hist: seq<ManagerCmd>, n: nat, c: ClientId)
    requires n < |hist| && hist[n] == cmd && Dispatches(cmd, event, KeysAdded(hist[..n], c))
    ensures Addressed([cmd], [event], hist, [n], c)
  {
  }

  /** Of four messages that were sent in order, the second subscribed to what the fourth says. */
  lemma {:induction false} FourthAfterSecond(
    hist: seq<ManagerCmd>, cmds: seq<ManagerCmd>, at: seq<nat>, unit: UnitId, event: ServerEvent, c: ClientId)
    requires EmbedsAt(cmds, hist, at) && |cmds| == 4
    requires cmds[1] == AddSubscription(unit, EventType(event), c) && cmds[3] == Raise(unit, event)
    ensures Addressed([cmds[3]], [event], hist, [at[3]], c)
  {
    assert at[1] < at[3];
    assert hist[..at[3]][at[1]] == cmds[1];
    KeyIsAdded(hist[..at[3]], c, (unit, EventType(event)));
    OneOwn(cmds[3], event, hist, at[3], c);
  }

  /** A refusal is announced after the subscriptions. */
  lemma {:induction false} RefusalOwn(hist: seq<ManagerCmd>, threads: seq<Thread>, h: Handler, install: bool, id: UnitId)
    requires HandlerPlaced(hist, threads, h) && JobActions(h, install, id) && h.actions[3].Announce?
    ensures |h.sentAt| == 4
    ensures Addressed([Raise(id, h.actions[3].event)], Own(threads, h), hist, [h.sentAt[3]], h.client)
  {
    JobPushes(h, install, id);
    assert h.actions[..h.pc] == h.actions;
    FourthAfterSecond(hist, PushedBy(h.client, h.actions), h.sentAt, id, h.actions[3].event, h.client);
  }

  /** A worker announces after the subscriptions of the command that launched it. */
  lemma LaunchOwn(hist: seq<ManagerCmd>, threads: seq<Thread>, h: Handler, install: bool, id: UnitId)
    requires ThreadsPlaced(hist, threads) && HandlerPlaced(hist, threads, h)
    requires forall t :: 0 <= t < |threads| ==> threads[t].pc >= |threads[t].actions|
    requires JobActions(h, install, id) && h.actions[3].Launch?
    ensures h.child.Some? && h.child.value < |threads| && threads[h.child.value].actions == h.actions[3].script
    ensures var t := threads[h.child.value]; Addressed(RaisedCmds(t.actions), Own(threads, h), hist, t.sentAt, h.client)
  {
    JobPushes(h, install, id);
    var t := threads[h.child.value];
    assert t.actions == h.actions[3].script && t.audience == PushedBy(h.client, h.actions[..3]);
    var kinds := Kinds(install);
    assert t.audience[0] in t.audience && t.audience[1] in t.audience && t.audience[2] in t.audience;
    assert ThreadPlaced(hist, t);
    forall j | 0 <= j < |t.actions| && t.actions[j].RaiseEvent?
      ensures AddSubscription(t.actions[j].unit, EventType(t.actions[j].event), h.client) in t.audience
    {
      assert EventType(t.actions[j].event) in kinds;
    }
    WorkerOwn(hist, t, h.client);
  }

  // ---------- Nothing else is heard ----------

  /** No other client has a command for a job on the unit. */
  ghost predicate OnlyJob(handled: seq<Handler>, id: UnitId, c: ClientId) {
    forall i :: 0 <= i < |handled| && Sources.JobOn(handled[i].cmd, id) ==> handled[i].client == c
  }

  lemma {:induction false} PushedMatch(client: ClientId, actions: seq<HandlerAction>, k: nat) returns (j: nat)
    requires k < |PushedBy(client, actions)|
    ensures j < |actions| && PushedAction(client)(actions[j]) == [PushedBy(client, actions)[k]]
  {
    var first := |PushedAction(client)(actions[0])|;
    if k >= first {
      j := PushedMatch(client, actions[1..], k - first);
      j := j + 1;
    } else {
      j := 0;
    }
  }

  /** An event sent by a thread is raised in its script. */
  lemma ThreadRaised(hist: seq<ManagerCmd>, t: Thread, i: nat) returns (j: nat)
    requires ThreadPlaced(hist, t) && i in t.sentAt && i < |hist| && hist[i].DispatchEvent?
    ensures j < |t.actions| && t.actions[j] == RaiseEvent(hist[i].serverId, hist[i].event)
  {
    var k :| 0 <= k < |t.sentAt| && t.sentAt[k] == i;
    RaisedSizes(t.actions[..t.pc]);
    j := RaisedMatch(t.actions[..t.pc], k);
  }

  /** An event sent by a command is announced by it, which then is an installation. */
  lemma CommandAnnounced(hist: seq<ManagerCmd>, threads: seq<Thread>, h: Handler, i: nat)
    requires HandlerPlaced(hist, threads, h) && h.pc == |h.actions| && Answers.Proper(h)
    requires i in h.sentAt && i < |hist| && hist[i].DispatchEvent?
    ensures Sources.JobOn(h.cmd, hist[i].serverId)
  {
    assert h.actions[..h.pc] == h.actions;
    var k :| 0 <= k < |h.sentAt| && h.sentAt[k] == i;
    var j := PushedMatch(h.client, h.actions, k);
    AnnouncesOwn(h, j);
  }

  lemma ProgramAnnounces(servers: map<UnitId, ServerUnitConfig>, cmd: DaemonCmd, choice: Choice, j: nat)
    requires j < |Program(servers, cmd, choice)| && Program(servers, cmd, choice)[j].Announce?
    ensures Sources.JobOn(cmd, Program(servers, cmd, choice)[j].unit)
  {
  }

  lemma AnnouncesOwn(h: Handler, j: nat)
    requires Answers.Proper(h) && j < |h.actions| && h.actions[j].Announce?
    ensures Sources.JobOn(h.cmd, h.actions[j].unit)
  {
    var choice :| Answers.ProperFor(h, choice);
    ProgramAnnounces(h.seen, h.cmd, choice, j);
  }

  lemma JobKey(event: ServerEvent, install: bool, k: nat)
    requires k < 3 && EventType(event) == Kinds(install)[k]
    ensures Sources.JobEvent(event)
  {
  }

  lemma {:induction false} ContributesJob(hist: seq<ManagerCmd>, i: nat, c: ClientId, install: bool, id: UnitId)
    requires i < |hist| && Contributes(hist, i, c)
    requires KeysAdded(hist, c) == [(id, Kinds(install)[0]), (id, Kinds(install)[1]), (id, Kinds(install)[2])]
    ensures hist[i].serverId == id && Sources.JobEvent(hist[i].event)
  {
    KeysGrow(hist, i, c);
    var keys := KeysAdded(hist[..i], c);
    var k :| 0 <= k < |keys| && keys[k] == (hist[i].serverId, EventType(hist[i].event));
    assert keys[k] == KeysAdded(hist, c)[k];
    JobKey(hist[i].event, install, k);
  }

  /** Where the events a job's command leads to are in the history. */
  function OwnPositions(threads: seq<Thread>, h: Handler): seq<nat> {
    if |h.actions| != 4 then []
    else
      match h.actions[3]
      case Announce(_, _) => if |h.sentAt| == 4 then [h.sentAt[3]] else []
      case Launch(_) => if h.child.Some? && h.child.value < |threads| then threads[h.child.value].sentAt else []
      case _ => []
  }

  lemma OwnSent(hist: seq<ManagerCmd>, threads: seq<Thread>, h: Handler, install: bool, id: UnitId, i: nat)
    requires HandlerPlaced(hist, threads, h) && JobActions(h, install, id)
    requires i in h.sentAt && i < |hist| && hist[i].DispatchEvent?
    ensures i in OwnPositions(threads, h)
  {
    JobPushes(h, install, id);
    assert h.actions[..h.pc] == h.actions;
    var k :| 0 <= k < |h.sentAt| && h.sentAt[k] == i;
    assert hist[i] == PushedBy(h.client, h.actions)[k];
  }

  lemma OwnChild(threads: seq<Thread>, h: Handler, install: bool, id: UnitId, t: nat, i: nat)
    requires JobActions(h, install, id) && Sources.ChildAfterLaunch(h) && h.child == Some(t)
    requires t < |threads| && i in threads[t].sentAt
    ensures i in OwnPositions(threads, h)
  {
    if h.actions[3].Announce? {
      assert forall j :: 0 <= j < h.pc && j < |h.actions| ==> !h.actions[j].Launch?;
    }
  }

  /** The only job on the unit is the client's own. */
  ghost predicate OwnAlone(s: State, h: Handler, install: bool, id: UnitId) {
    && h in s.daemon.handled && JobActions(h, install, id) && OnlyJob(s.daemon.handled, id, h.client)
    && forall other :: other in s.daemon.handled && other.client == h.client ==> other == h
  }

  /** Then a thread that announces something about the unit's jobs is the one it launched. */
  lemma {:induction false} OwnThreadContributes(s: State, h: Handler, install: bool, id: UnitId, t: nat, i: nat)
    requires ThreadsPlaced(s.manager.hist, s.threads) && Sources.Fathered(s) && s.daemon.handler.None? && OwnAlone(s, h, install, id)
    requires i < |s.manager.hist| && s.manager.hist[i].DispatchEvent?
    requires s.manager.hist[i].serverId == id && Sources.JobEvent(s.manager.hist[i].event)
    requires t < |s.threads| && i in s.threads[t].sentAt
    ensures i in OwnPositions(s.threads, h)
  {
    var handled := s.daemon.handled;
    var j := ThreadRaised(s.manager.hist, s.threads[t], i);
    assert !Sources.Quiet(s.threads[t].actions);
    var k :| 0 <= k < |handled| && Sources.Fathers(handled[k], t, s.threads[t].actions);
    assert Sources.JobOn(handled[k].cmd, id) && handled[k] in handled;
    OwnChild(s.threads, h, install, id, t, i);
  }

  /** All that the client hears is what its own job announces, if it is the only one. */
  lemma {:induction false} OnlyOwnContributes(s: State, h: Handler, install: bool, id: UnitId, i: nat)
    requires AllPlaced(s) && Sources.Sourced(s) && Sources.Fathered(s) && Answers.AllProper(s.daemon) && s.daemon.handler.None?
    requires OwnAlone(s, h, install, id)
    requires i < |s.manager.hist| && s.manager.hist[i].DispatchEvent?
    requires s.manager.hist[i].serverId == id && Sources.JobEvent(s.manager.hist[i].event)
    ensures i in OwnPositions(s.threads, h)
  {
    var hist, handled := s.manager.hist, s.daemon.handled;
    assert Sources.Sent(s, i);
    if t :| 0 <= t < |s.threads| && i in s.threads[t].sentAt {
      OwnThreadContributes(s, h, install, id, t, i);
    } else {
      var k :| 0 <= k < |handled| && i in handled[k].sentAt;
      CommandAnnounced(hist, s.threads, handled[k], i);
      assert handled[k] in handled;
      OwnSent(hist, s.threads, h, install, id, i);
    }
  }

  // ---------- The sessions ----------

  /** The events in the stream of a listening client that was undisturbed for the first `n`
      messages: all it should have heard of those, and then only some of what came later. */
  lemma StreamIsHeard(keep: Keep, s: State, c: ClientId, n: nat) returns (more: seq<ServerEvent>)
    requires Pipeline.Flowing(keep, s) && Idle(s) && Replies.Paired(s, c)
    requires c in s.clients.streams && c !in s.clients.dead
    requires n <= |s.manager.hist| && OncePerKey(s.manager.hist, c) && Undisturbed(keep, s.manager.hist[..n], c)
    ensures Replies.Noticed(s.clients.streams[c]) == Heard(s.manager.hist[..n], c) + more
    ensures HeardSince(s.manager.hist, n, c, more)
  {
    more := HearsLater(keep, s.manager.hist, n, c);
    AppendNothing(s.daemon.delivered);
  }

  lemma JobKinds<E>(install: bool, unit: UnitId, run: Run<ServerUnitConfig, E>, describe: E -> string)
    requires run.outcome.Finished? ==> run.outcome.value.unit.id == unit
    ensures OfKinds(JobScript(install, unit, run, describe), unit, KindsOf(install))
  {
    var script, kinds := JobScript(install, unit, run, describe), Kinds(install);
    assert kinds[0] in KindsOf(install) && kinds[1] in KindsOf(install) && kinds[2] in KindsOf(install);
    forall j | 0 <= j < |script| && script[j].RaiseEvent?
      ensures script[j].unit == unit && EventType(script[j].event) in KindsOf(install)
    {
      JobScriptAt(install, unit, run, describe, j);
    }
  }

  lemma InstallScriptKinds(request: InstallRequest, env: Installer.InstallEnv)
    ensures OfKinds(Installer.InstallScript(request, env), request.unitId, KindsOf(true))
  {
    Installer.InstallOutcome(request, env);
    JobKinds(true, request.unitId, Installer.PerformRun(request, env), env.describe);
  }

  lemma {:induction false} UpdateScriptKinds(requested: Option<Semver.Version>, config: ServerUnitConfig, env: Updater.UpdateEnv)
    ensures OfKinds(Updater.UpdateScript(requested, config, env), config.unit.id, KindsOf(false))
  {
    Updater.UpdateOutcome(requested, config, env);
    JobKinds(false, config.unit.id, Updater.PerformRun(requested, config, env), env.describe);
  }

  /** The script of an installation of the request. */
  ghost predicate InstallsFor(request: InstallRequest, script: seq<ThreadAction>) {
    exists env :: script == Installer.InstallScript(request, env)
  }

  ghost predicate UpdatesFor(requested: Option<Semver.Version>, config: ServerUnitConfig, script: seq<ThreadAction>) {
    exists env :: script == Updater.UpdateScript(requested, config, env)
  }

  /** How an installation is handled: refused if the unit was stored, or handed to a worker. */
  lemma InstallHandled(h: Handler, request: InstallRequest)
    requires Answers.Proper(h) && h.cmd == InstallServer(request) && h.pc == |h.actions|
    ensures h.response == Ok && JobActions(h, true, request.unitId)
    ensures h.actions[3].Announce? <==> request.unitId in h.seen
    ensures request.unitId !in h.seen ==> h.actions[3].Launch? && InstallsFor(request, h.actions[3].script)
  {
    var choice :| Answers.ProperFor(h, choice);
    assert InstallsFor(request, choice.script);
    var env :| choice.script == Installer.InstallScript(request, env);
    InstallScriptKinds(request, env);
  }

  lemma {:induction false} UpdateProgram(h: Handler, choice: Choice, id: UnitId, requested: Option<Semver.Version>)
    requires Answers.ProperFor(h, choice) && h.cmd == UpdateServer(id, requested)
    ensures h.response == if id in h.seen then Ok else ServerNotFound(id)
    ensures id in h.seen ==> h.actions == UpdateActions(true, id, choice.script) && UpdatesFor(requested, h.seen[id], choice.script)
  {
  }

  lemma {:induction false} UpdateShape(h: Handler, id: UnitId, script: seq<ThreadAction>)
    requires h.actions == UpdateActions(true, id, script) && h.pc == |h.actions| && OfKinds(script, id, KindsOf(false))
    ensures JobActions(h, false, id) && h.actions[3] == Launch(script)
  {
  }

  lemma {:induction false} UpdateHandled(h: Handler, id: UnitId, requested: Option<Semver.Version>)
    requires Answers.Proper(h) && h.cmd == UpdateServer(id, requested) && h.pc == |h.actions|
    ensures h.response == if id in h.seen then Ok else ServerNotFound(id)
    ensures id in h.seen ==> JobActions(h, false, id) && h.actions[3].Launch? && UpdatesFor(requested, h.seen[id], h.actions[3].script)
  {
    var choice :| Answers.ProperFor(h, choice);
    UpdateProgram(h, choice, id, requested);
    if id in h.seen {
      var env :| choice.script == Updater.UpdateScript(requested, h.seen[id], env);
      UpdateScriptKinds(requested, h.seen[id], env);
      UpdateShape(h, id, choice.script);
    }
  }

  lemma DirectOf(s: State, c: ClientId, r: DaemonResponse)
    requires Replies.Paired(s, c) && c in s.clients.streams && c !in s.clients.dead
    requires Collect(s.daemon.handled, Replies.ResponseHandled(c)) == [r]
    ensures Replies.Direct(s.clients.streams[c]) == [SetSender, DaemonVersion, r]
  {
    assert Replies.HANDSHAKE + [r] == [SetSender, DaemonVersion, r];
  }

  /** `h` is how the daemon handled the one command of `c`. */
  ghost predicate OnlyCommandOf(s: State, c: ClientId, h: Handler) {
    && h in s.daemon.handled && h.client == c
    && (forall other :: other in s.daemon.handled && other.client == c ==> other == h)
    && KeysAdded(s.manager.hist, c) == KeysOf(h.actions)
  }

  lemma OnlyCommand(keep: Keep, s: State, c: ClientId, cmd: DaemonCmd) returns (h: Handler)
    requires Runs.Reachable(keep, s) && Idle(s)
    requires c in s.clients.streams && c !in s.clients.dead && Replies.SentBy(s, c) == [cmd]
    ensures OnlyCommandOf(s, c, h) && h.cmd == cmd && Answers.Proper(h)
    ensures Replies.Direct(s.clients.streams[c]) == [SetSender, DaemonVersion, h.response]
  {
    Runs.ReachableClient(keep, s, c);
    Runs.ReachableProper(keep, s);
    h := SingleHandler(s, c, cmd);
    DirectOf(s, c, h.response);
  }

  lemma ReachablePlaced(keep: Keep, s: State)
    requires Runs.Reachable(keep, s)
    ensures AllPlaced(s) && Pipeline.Flowing(keep, s)
  {
    Runs.ReachableInv(keep, s);
  }

  lemma ReachableHeard(keep: Keep, s: State, c: ClientId, n: nat) returns (more: seq<ServerEvent>)
    requires Runs.Reachable(keep, s) && Idle(s) && c in s.clients.streams && c !in s.clients.dead
    requires n <= |s.manager.hist| && OncePerKey(s.manager.hist, c) && Undisturbed(keep, s.manager.hist[..n], c)
    ensures Replies.Noticed(s.clients.streams[c]) == Heard(s.manager.hist[..n], c) + more
    ensures HeardSince(s.manager.hist, n, c, more)
  {
    Runs.ReachableClient(keep, s, c);
    ReachablePlaced(keep, s);
    more := StreamIsHeard(keep, s, c, n);
  }

  /** Every event in the stream is about the unit. */
  ghost predicate AllAbout(id: UnitId, stream: seq<DaemonResponse>) {
    forall event :: event in Replies.Noticed(stream) ==> event.serverId == id
  }

  /** What the commands of `c` and the threads they launched announced was sent among the first
      `n` messages. */
  ghost predicate OwnBefore(s: State, c: ClientId, n: nat) {
    && n <= |s.manager.hist|
    && forall h, i :: h in s.daemon.handled && h.client == c && i in OwnPositions(s.threads, h) ==> i < n
  }

  /** The own messages of a job, placed in the history. */
  lemma OwnMessages(s: State, h: Handler, install: bool, id: UnitId) returns (cmds: seq<ManagerCmd>)
    requires AllPlaced(s) && Idle(s) && h in s.daemon.handled && JobActions(h, install, id)
    ensures Addressed(cmds, Own(s.threads, h), s.manager.hist, OwnPositions(s.threads, h), h.client)
  {
    if h.actions[3].Announce? {
      RefusalOwn(s.manager.hist, s.threads, h, install, id);
      cmds := [Raise(id, h.actions[3].event)];
    } else {
      LaunchOwn(s.manager.hist, s.threads, h, install, id);
      cmds := RaisedCmds(s.threads[h.child.value].actions);
    }
  }

  /** The invariants that say where a job's events come from and go. */
  ghost predicate JobInv(s: State) {
    && AllPlaced(s) && Sources.Sourced(s) && Sources.Fathered(s) && Answers.AllProper(s.daemon) && Routing.Routed(s)
  }

  lemma ReachableJobs(keep: Keep, s: State)
    requires Runs.Reachable(keep, s)
    ensures JobInv(s)
  {
    Runs.ReachableInv(keep, s);
  }

  /** What a job alone on its unit sends is all that its client hears. */
  lemma AloneContributes(s: State, h: Handler, install: bool, id: UnitId, i: nat)
    requires JobInv(s) && Idle(s)
    requires OnlyCommandOf(s, h.client, h) && JobActions(h, install, id) && OnlyJob(s.daemon.handled, id, h.client)
    requires i < |s.manager.hist| && Contributes(s.manager.hist, i, h.client)
    ensures i in OwnPositions(s.threads, h)
  {
    JobPushes(h, install, id);
    ContributesJob(s.manager.hist, i, h.client, install, id);
    OnlyOwnContributes(s, h, install, id, i);
  }

  lemma OwnAmongFirst(s: State, h: Handler, install: bool, id: UnitId, n: nat) returns (cmds: seq<ManagerCmd>)
    requires JobInv(s) && Idle(s) && h in s.daemon.handled && JobActions(h, install, id) && OwnBefore(s, h.client, n)
    ensures Addressed(cmds, Own(s.threads, h), s.manager.hist[..n], OwnPositions(s.threads, h), h.client)
  {
    cmds := OwnMessages(s, h, install, id);
    var own, at := Own(s.threads, h), OwnPositions(s.threads, h);
    forall k | 0 <= k < |at| ensures at[k] < n {
      assert at[k] in at;
    }
    AddressedPrefix(cmds, own, s.manager.hist, at, h.client, |at|, n);
    assert cmds[..|at|] == cmds && own[..|at|] == own && at[..|at|] == at;
  }

  lemma OwnAndNothingElse(s: State, h: Handler, install: bool, id: UnitId, n: nat)
    requires JobInv(s) && Idle(s) && n <= |s.manager.hist|
    requires OnlyCommandOf(s, h.client, h) && JobActions(h, install, id) && OnlyJob(s.daemon.handled, id, h.client)
    ensures NothingElse(s.manager.hist[..n], OwnPositions(s.threads, h), h.client)
  {
    forall i: nat | i < n && Contributes(s.manager.hist[..n], i, h.client) ensures i in OwnPositions(s.threads, h) {
      PrefixContributes(s.manager.hist, n, i, h.client);
      AloneContributes(s, h, install, id, i);
    }
  }

  /** What the own job announces is heard in order; alone, if no other job interferes. */
  lemma {:induction false} OwnIsHeard(s: State, h: Handler, install: bool, id: UnitId, n: nat)
    requires JobInv(s) && Idle(s)
    requires OnlyCommandOf(s, h.client, h) && JobActions(h, install, id) && OwnBefore(s, h.client, n)
    ensures HeardInOrder(Own(s.threads, h), Heard(s.manager.hist[..n], h.client))
    ensures OnlyJob(s.daemon.handled, id, h.client) ==> Heard(s.manager.hist[..n], h.client) == Own(s.threads, h)
  {
    var own, at := Own(s.threads, h), OwnPositions(s.threads, h);
    var cmds := OwnAmongFirst(s, h, install, id, n);
    SentIsHeard(cmds, own, s.manager.hist[..n], at, h.client);
    if OnlyJob(s.daemon.handled, id, h.client) {
      OwnAndNothingElse(s, h, install, id, n);
      HeardExactly(cmds, own, s.manager.hist[..n], at, h.client);
    }
  }

  /** What is heard later is about the unit too; and if no other job interferes, it is nothing. */
  lemma {:induction false} LaterIsAbout(s: State, h: Handler, install: bool, id: UnitId, n: nat, more: seq<ServerEvent>)
    requires JobInv(s) && Idle(s)
    requires OnlyCommandOf(s, h.client, h) && JobActions(h, install, id) && OwnBefore(s, h.client, n)
    requires HeardSince(s.manager.hist, n, h.client, more)
    ensures forall event :: event in more ==> event.serverId == id
    ensures OnlyJob(s.daemon.handled, id, h.client) ==> more == []
  {
    var hist := s.manager.hist;
    JobPushes(h, install, id);
    forall event | event in more ensures event.serverId == id && !OnlyJob(s.daemon.handled, id, h.client) {
      var i: nat :| HeardFrom(hist, n, h.client, event, i);
      ContributesJob(hist, i, h.client, install, id);
      assert Routing.RoutedCmd(hist[i]);
      if OnlyJob(s.daemon.handled, id, h.client) {
        AloneContributes(s, h, install, id, i);
        assert false;
      }
    }
    if more != [] {
      assert more[0] in more;
    }
  }

  /** The stream of a client whose only command is a job: the events of that very job, in
      order, and nothing about other units; and only those, each once, if no other client had
      a job on the unit handled. */
  ghost predicate TellsOwn(s: State, h: Handler, id: UnitId)
    requires h.client in s.clients.streams
  {
    var heard, own := Replies.Noticed(s.clients.streams[h.client]), Own(s.threads, h);
    && HeardInOrder(own, heard)
    && AllAbout(id, s.clients.streams[h.client])
    && (OnlyJob(s.daemon.handled, id, h.client) ==> heard == own)
  }

  lemma JobKeysOnce(h: Handler, install: bool, id: UnitId, hist: seq<ManagerCmd>)
    requires JobActions(h, install, id) && KeysAdded(hist, h.client) == KeysOf(h.actions)
    ensures OncePerKey(hist, h.client)
    ensures forall key :: key in KeysAdded(hist, h.client) ==> key.0 == id
  {
    JobPushes(h, install, id);
  }

  lemma OnMoreIsHeard(own: seq<ServerEvent>, heard: seq<ServerEvent>, more: seq<ServerEvent>)
    requires HeardInOrder(own, heard)
    ensures HeardInOrder(own, heard + more)
  {
    var at :| EmbedsAt(own, heard, at);
    assert EmbedsAt(own, heard + more, at);
  }

  lemma {:induction false} EarlierIsAbout(s: State, h: Handler, install: bool, id: UnitId, n: nat)
    requires Routing.Routed(s) && OnlyCommandOf(s, h.client, h) && JobActions(h, install, id) && n <= |s.manager.hist|
    ensures forall event :: event in Heard(s.manager.hist[..n], h.client) ==> event.serverId == id
  {
    JobKeysOnce(h, install, id, s.manager.hist);
    KeysGrow(s.manager.hist, n, h.client);
    Routing.HeardOfUnit(s.manager.hist[..n], h.client, id);
  }

  lemma {:induction false} OwnWithMore(s: State, h: Handler, install: bool, id: UnitId, n: nat, more: seq<ServerEvent>)
    requires JobInv(s) && Idle(s) && h.client in s.clients.streams
    requires OnlyCommandOf(s, h.client, h) && JobActions(h, install, id) && OwnBefore(s, h.client, n)
    requires Replies.Noticed(s.clients.streams[h.client]) == Heard(s.manager.hist[..n], h.client) + more
    requires HeardSince(s.manager.hist, n, h.client, more)
    ensures TellsOwn(s, h, id)
  {
    var heard := Heard(s.manager.hist[..n], h.client);
    OwnIsHeard(s, h, install, id, n);
    LaterIsAbout(s, h, install, id, n, more);
    EarlierIsAbout(s, h, install, id, n);
    OnMoreIsHeard(Own(s.threads, h), heard, more);
    AppendNothing(heard);
  }

  lemma {:induction false} OwnIsTold(keep: Keep, s: State, h: Handler, install: bool, id: UnitId, n: nat)
    requires Runs.Reachable(keep, s) && Idle(s) && h.client in s.clients.streams && h.client !in s.clients.dead
    requires OnlyCommandOf(s, h.client, h) && JobActions(h, install, id)
    requires OwnBefore(s, h.client, n) && Undisturbed(keep, s.manager.hist[..n], h.client)
    ensures TellsOwn(s, h, id)
  {
    ReachableJobs(keep, s);
    JobKeysOnce(h, install, id, s.manager.hist);
    var more := ReachableHeard(keep, s, h.client, n);
    OwnWithMore(s, h, install, id, n, more);
  }

  /** Everything own was sent before the end of the history. */
  lemma OwnBeforeEnd(keep: Keep, s: State, c: ClientId)
    requires Runs.Reachable(keep, s)
    ensures OwnBefore(s, c, |s.manager.hist|) && s.manager.hist[..|s.manager.hist|] == s.manager.hist
  {
    ReachablePlaced(keep, s);
    forall h, i | h in s.daemon.handled && h.client == c && i in OwnPositions(s.threads, h) ensures i < |s.manager.hist| {
      assert HandlerPlaced(s.manager.hist, s.threads, h);
      if |h.actions| == 4 && h.actions[3].Launch? {
        assert ThreadPlaced(s.manager.hist, s.threads[h.child.value]);
      }
    }
  }

  lemma HandledIsWorkedOff(keep: Keep, s: State, h: Handler)
    requires Runs.Reachable(keep, s) && h in s.daemon.handled
    ensures HandlerPlaced(s.manager.hist, s.threads, h) && h.pc == |h.actions|
  {
    ReachablePlaced(keep, s);
  }

  /** The thread that the command launched runs the given script, and has run all of it. */
  ghost predicate LaunchedFor(threads: seq<Thread>, h: Handler, script: seq<ThreadAction>) {
    h.child.Some? && h.child.value < |threads| && threads[h.child.value].actions == script && threads[h.child.value].pc == |script|
  }

  lemma LaunchedRan(keep: Keep, s: State, h: Handler)
    requires Runs.Reachable(keep, s) && Idle(s) && h in s.daemon.handled && |h.actions| == 4 && h.actions[3].Launch?
    ensures LaunchedFor(s.threads, h, h.actions[3].script)
  {
    HandledIsWorkedOff(keep, s, h);
    ReachablePlaced(keep, s);
    assert ThreadPlaced(s.manager.hist, s.threads[h.child.value]);
  }

  /** A client whose only command is an installation, once the daemon is idle, and unless a
      removal took its subscriptions away before its job's last message: its only direct
      response is `Ok`. If the unit was
      stored when the command was handled, the refusal is announced; otherwise the command
      launched a worker that ran an installation of the request. The client's stream has the
      events of exactly that worker, or the refusal, in order. */
  lemma InstallSession(keep: Keep, s: State, c: ClientId, request: InstallRequest, n: nat) returns (h: Handler)
    requires Runs.Reachable(keep, s) && Idle(s)
    requires c in s.clients.streams && c !in s.clients.dead && Replies.SentBy(s, c) == [InstallServer(request)]
    requires OwnBefore(s, c, n) && Undisturbed(keep, s.manager.hist[..n], c)
    ensures OnlyCommandOf(s, c, h) && h.cmd == InstallServer(request)
    ensures Replies.Direct(s.clients.streams[c]) == [SetSender, DaemonVersion, Ok]
    ensures request.unitId in h.seen ==> Own(s.threads, h) == [InstallationFailed(request.unitId, ExistsText())]
    ensures request.unitId !in h.seen ==> InstallWorker(s.threads, h, request)
    ensures TellsOwn(s, h, request.unitId)
  {
    h := OnlyCommand(keep, s, c, InstallServer(request));
    HandledIsWorkedOff(keep, s, h);
    InstallHandled(h, request);
    if request.unitId !in h.seen {
      LaunchedRan(keep, s, h);
    }
    OwnIsTold(keep, s, h, true, request.unitId, n);
  }

  /** The worker that the command launched ran an installation of the request. */
  ghost predicate InstallWorker(threads: seq<Thread>, h: Handler, request: InstallRequest) {
    exists env :: LaunchedFor(threads, h, Installer.InstallScript(request, env)) && Own(threads, h) == InstallEvents(request, env)
  }

  ghost predicate UpdateWorker(threads: seq<Thread>, h: Handler, requested: Option<Semver.Version>, config: ServerUnitConfig) {
    exists env ::
      LaunchedFor(threads, h, Updater.UpdateScript(requested, config, env)) && Own(threads, h) == UpdateEvents(requested, config, env)
  }

  /** The same for an update. It is answered as not found exactly if the unit was not stored
      when the command was handled; otherwise the worker updates the unit as it was stored. */
  lemma UpdateSession(keep: Keep, s: State, c: ClientId, id: UnitId, requested: Option<Semver.Version>, n: nat) returns (h: Handler)
    requires Runs.Reachable(keep, s) && Idle(s)
    requires c in s.clients.streams && c !in s.clients.dead && Replies.SentBy(s, c) == [UpdateServer(id, requested)]
    requires OwnBefore(s, c, n) && Undisturbed(keep, s.manager.hist[..n], c)
    ensures OnlyCommandOf(s, c, h) && h.cmd == UpdateServer(id, requested)
    ensures Replies.Direct(s.clients.streams[c]) == [SetSender, DaemonVersion, if id in h.seen then Ok else ServerNotFound(id)]
    ensures id in h.seen ==> id in s.daemon.servers && UpdateWorker(s.threads, h, requested, h.seen[id]) && TellsOwn(s, h, id)
  {
    h := OnlyCommand(keep, s, c, UpdateServer(id, requested));
    HandledIsWorkedOff(keep, s, h);
    UpdateHandled(h, id, requested);
    Runs.ReachableSeen(keep, s);
    if id in h.seen {
      LaunchedRan(keep, s, h);
      OwnIsTold(keep, s, h, false, id, n);
    }
  }

  /** No command of the client is answered or at hand. */
  ghost predicate NotBegun(d: Daemon, c: ClientId) {
    && (forall i :: 0 <= i < |d.handled| ==> d.handled[i].client != c)
    && (d.handler.Some? ==> d.handler.value.client != c)
  }

  /** A unit that was stored before the client's commands were begun was seen by them, and
      what they saw is still stored. */
  lemma SeenWasStored(keep: Keep, s: State, steps: seq<Step>, c: ClientId, h: Handler)
    requires Runs.Reachable(keep, s) && Possible(keep, s, steps) && NotBegun(s.daemon, c)
    requires h in Exec(keep, s, steps).daemon.handled && h.client == c
    ensures s.daemon.servers.Keys <= h.seen.Keys
    ensures h.seen.Keys <= Exec(keep, s, steps).daemon.servers.Keys
  {
    Runs.ReachableInv(keep, s);
    Answers.SeesRun(keep, s, steps, s.daemon.servers.Keys, c);
    Runs.InvRun(keep, s, steps);
  }

  /** With removal as documented, a client that listens and is still connected is never
      disturbed, whoever else leaves. */
  lemma ConnectedIsUndisturbed(s: State, c: ClientId)
    requires Sources.OnlyGone(s) && c in s.clients.open && c !in s.clients.dead
    ensures Undisturbed(KeepAsDocumented, s.manager.hist, c)
  {
    var hist := s.manager.hist;
    forall i | 0 <= i < |hist| ensures Spares(KeepAsDocumented, hist[..i], hist[i], c) {
      assert Sources.Gone(s.clients, hist[i]);
    }
  }
}
