/** Every answer is the right kind of answer, and says that a server is unknown only while
    it is. */
module Answers {
  import opened Sequences
  import opened Protocol
  import opened Subscriptions
  import opened System
  import opened Registration

  /** The responses a command can be given. */
  predicate Fits(cmd: DaemonCmd, r: DaemonResponse) {
    match cmd
    case List => r.Listing?
    case GetVersion => r == DaemonVersion
    case Start(id, wait) => r == ServerNotFound(id) || r == if wait then Ok else StartSent(id)
    case Stop(id, wait) => r == ServerNotFound(id) || r == if wait then Ok else StopSent(id)
    case SubscribeEvent(_, _) => r == Ok
    case InstallServer(_) => r == Ok
    case UpdateServer(id, _) => r == ServerNotFound(id) || r == Ok
    case StopDaemon => r == Ok
    case SendMessage(id, _) => r == ServerNotFound(id) || r == Ok
    case SendCommand(id, _) => r == ServerNotFound(id) || r == Ok
  }

  ghost predicate ProperFor(h: Handler, choice: Choice) {
    && Units(h.seen) && Plausible(h.seen, h.cmd, choice.script)
    && h.response == Answer(h.seen, h.cmd, choice)
    && h.actions == Program(h.seen, h.cmd, choice)
  }

  /** The handler does and answers what its command calls for, with the units stored when it
      began. */
  ghost predicate Proper(h: Handler) {
    exists choice :: ProperFor(h, choice)
  }

  ghost predicate AllProper(d: Daemon) {
    && (forall i :: 0 <= i < |d.handled| ==> Proper(d.handled[i]))
    && (d.handler.Some? ==> Proper(d.handler.value))
  }

  lemma ProperFits(h: Handler)
    requires Proper(h)
    ensures Fits(h.cmd, h.response)
  {
    var choice :| ProperFor(h, choice);
  }

  lemma SameProper(h: Handler, h': Handler)
    requires Proper(h) && h'.cmd == h.cmd && h'.seen == h.seen && h'.response == h.response && h'.actions == h.actions
    ensures Proper(h')
  {
    var choice :| ProperFor(h, choice);
    assert ProperFor(h', choice);
  }

  lemma WorkHandler(s: State)
    requires s.daemon.handler.Some?
    ensures var h, d := s.daemon.handler.value, DoWork(s).daemon;
            if h.pc < |h.actions| then
              && d.handled == s.daemon.handled && d.handler.Some?
              && d.handler.value.client == h.client && d.handler.value.cmd == h.cmd && d.handler.value.seen == h.seen
              && d.handler.value.response == h.response && d.handler.value.actions == h.actions
            else d.handler.None? && d.handled == s.daemon.handled + [h]
    ensures DoWork(s).daemon.servers == s.daemon.servers
  {
    var h := s.daemon.handler.value;
    if h.pc < |h.actions| {
      ActDaemon(s, h);
    } else {
      AnswerDaemon(s, h);
    }
  }

  lemma ProperStep(keep: Keep, s: State, step: Step)
    requires Registered(s) && AllProper(s.daemon) && Enabled(s, step) && Faithful(s, step)
    ensures AllProper(Apply(keep, s, step).daemon)
  {
    match step
    case Take(choice) =>
      if s.daemon.dq[0].IncomingCmd? {
        assert ProperFor(Begin(s, s.daemon.dq[0].id, s.daemon.dq[0].cmd, choice), choice);
      }
    case Work =>
      WorkHandler(s);
      if s.daemon.handler.value.pc < |s.daemon.handler.value.actions| {
        SameProper(s.daemon.handler.value, DoWork(s).daemon.handler.value);
      }
    case _ =>
  }

  // ---------- Subscriptions of a command ----------

  /** Every stored unit is subscribed to. */
  ghost predicate CoversAll(servers: map<UnitId, ServerUnitConfig>, eventType: ServerEventType, actions: seq<HandlerAction>) {
    forall id :: id in servers ==> Subscribe(id, eventType) in actions
  }

  /** A subscription covers all servers, as it should when it names none, exactly if there are
      no servers or it names every one of them. */
  lemma CoversAllExactlyWhen(
    servers: map<UnitId, ServerUnitConfig>, eventType: ServerEventType, serverIds: Option<seq<UnitId>>, choice: Choice)
    ensures CoversAll(servers, eventType, Program(servers, SubscribeEvent(eventType, serverIds), choice))
        <==> servers.Keys == {} || (serverIds.Some? && forall id :: id in servers ==> id in serverIds.value)
  {
    var actions := Program(servers, SubscribeEvent(eventType, serverIds), choice);
    forall id ensures Subscribe(id, eventType) in actions <==> serverIds.Some? && id in serverIds.value {
      if serverIds.Some? && id in serverIds.value {
        var i :| 0 <= i < |serverIds.value| && serverIds.value[i] == id;
        assert actions[i] == Subscribe(id, eventType);
      }
    }
    if servers.Keys != {} {
      var id :| id in servers.Keys;
    }
  }

  /** Nothing is launched before the client is subscribed. */
  ghost predicate SubscribesFirst(actions: seq<HandlerAction>) {
    forall i, j :: 0 <= i < j < |actions| && actions[i].Launch? ==> !actions[j].Subscribe?
  }

  /** Something is launched before the client is subscribed exactly if it starts a server that
      is down and waits for it (what comes of that: `Races`); installations and updates
      subscribe first. */
  lemma SubscribesFirstExactlyWhen(servers: map<UnitId, ServerUnitConfig>, cmd: DaemonCmd, choice: Choice)
    ensures SubscribesFirst(Program(servers, cmd, choice))
        <==> !(cmd.Start? && cmd.serverId in servers && cmd.wait && choice.down)
  {
    var actions := Program(servers, cmd, choice);
    if cmd.Start? && cmd.serverId in servers && cmd.wait && choice.down {
      assert actions[0].Launch? && actions[1].Subscribe?;
    }
  }

  // ---------- Unknown servers ----------

  /** While a command is handled, "not found" is true. */
  ghost predicate NotFoundIsTrue(d: Daemon) {
    d.handler.Some? && d.handler.value.response.ServerNotFound? ==> d.handler.value.response.serverId !in d.servers
  }

  /** The server a command is about. */
  predicate Concerns(cmd: DaemonCmd, id: UnitId) {
    || (cmd.Start? && cmd.serverId == id) || (cmd.Stop? && cmd.serverId == id)
    || ((cmd.UpdateServer? || cmd.SendMessage? || cmd.SendCommand?) && cmd.unitId == id)
  }

  /** A command is answered that the server is unknown exactly if it is about one that is; who
      waits is told `Ok`, and who does not, that the start or stop was sent. */
  lemma AnswerMeans(servers: map<UnitId, ServerUnitConfig>, cmd: DaemonCmd, choice: Choice)
    ensures var r := Answer(servers, cmd, choice);
            && (forall id :: r == ServerNotFound(id) <==> Concerns(cmd, id) && id !in servers)
            && (forall id :: r == StartSent(id) <==> cmd == Start(id, false) && id in servers)
            && (forall id :: r == StopSent(id) <==> cmd == Stop(id, false) && id in servers)
            && (r.Listing? <==> cmd.List?) && (r.DaemonVersion? <==> cmd.GetVersion?)
            && (r.Ok? || r.ServerNotFound? || r.StartSent? || r.StopSent? || r.Listing? || r.DaemonVersion?)
  {
  }

  lemma AnswerNotFound(servers: map<UnitId, ServerUnitConfig>, cmd: DaemonCmd, choice: Choice)
    ensures Answer(servers, cmd, choice).ServerNotFound? ==> Answer(servers, cmd, choice).serverId !in servers
  {
    AnswerMeans(servers, cmd, choice);
  }

  lemma NotFoundStep(keep: Keep, s: State, step: Step)
    requires NotFoundIsTrue(s.daemon) && Enabled(s, step)
    ensures NotFoundIsTrue(Apply(keep, s, step).daemon)
    ensures s.daemon.servers.Keys <= Apply(keep, s, step).daemon.servers.Keys
    ensures var d, d' := s.daemon, Apply(keep, s, step).daemon;
            d'.handled == d.handled || (d.handler.Some? && d'.handled == d.handled + [d.handler.value])
  {
    match step
    case Take(choice) =>
      if s.daemon.dq[0].IncomingCmd? {
        AnswerNotFound(s.daemon.servers, s.daemon.dq[0].cmd, choice);
      }
    case Work => WorkHandler(s);
    case _ =>
  }

  /** A stored unit stays stored, and no command on it that is answered later is told that
      it does not exist. */
  lemma {:induction false} StoredStaysKnown(keep: Keep, s: State, steps: seq<Step>, id: UnitId)
    requires Possible(keep, s, steps) && NotFoundIsTrue(s.daemon) && id in s.daemon.servers
    ensures var d, d' := s.daemon, Exec(keep, s, steps).daemon;
            && id in d'.servers
            && |d.handled| <= |d'.handled|
            && forall i :: |d.handled| <= i < |d'.handled| ==> d'.handled[i].response != ServerNotFound(id)
    decreases |steps|
  {
    if steps != [] {
      NotFoundStep(keep, s, steps[0]);
      StoredStaysKnown(keep, Apply(keep, s, steps[0]), steps[1..], id);
      HandledGrows(keep, Apply(keep, s, steps[0]), steps[1..]);
    }
  }

  lemma {:induction false} HandledGrows(keep: Keep, s: State, steps: seq<Step>)
    requires Possible(keep, s, steps) && NotFoundIsTrue(s.daemon)
    ensures s.daemon.handled <= Exec(keep, s, steps).daemon.handled
    decreases |steps|
  {
    if steps != [] {
      NotFoundStep(keep, s, steps[0]);
      HandledGrows(keep, Apply(keep, s, steps[0]), steps[1..]);
    }
  }

  // ---------- What a command saw ----------

  /** The units a command saw when it began are still stored. */
  ghost predicate SeenStored(d: Daemon) {
    && (forall i :: 0 <= i < |d.handled| ==> d.handled[i].seen.Keys <= d.servers.Keys)
    && (d.handler.Some? ==> d.handler.value.seen.Keys <= d.servers.Keys)
  }

  lemma SeenStep(keep: Keep, s: State, step: Step)
    requires SeenStored(s.daemon) && NotFoundIsTrue(s.daemon) && Enabled(s, step)
    ensures SeenStored(Apply(keep, s, step).daemon)
  {
    NotFoundStep(keep, s, step);
    if step.Work? {
      WorkHandler(s);
    }
  }

  /** Commands of `c`, begun or not, have seen or will see at least `base`. */
  ghost predicate Sees(base: set<UnitId>, c: ClientId, d: Daemon) {
    && base <= d.servers.Keys
    && (forall i :: 0 <= i < |d.handled| && d.handled[i].client == c ==> base <= d.handled[i].seen.Keys)
    && (d.handler.Some? && d.handler.value.client == c ==> base <= d.handler.value.seen.Keys)
  }

  lemma SeesStep(keep: Keep, s: State, step: Step, base: set<UnitId>, c: ClientId)
    requires Sees(base, c, s.daemon) && NotFoundIsTrue(s.daemon) && Enabled(s, step)
    ensures Sees(base, c, Apply(keep, s, step).daemon)
  {
    NotFoundStep(keep, s, step);
    if step.Work? {
      WorkHandler(s);
    }
  }

  /** A command that begins later sees every unit that was stored before. */
  lemma {:induction false} SeesRun(keep: Keep, s: State, steps: seq<Step>, base: set<UnitId>, c: ClientId)
    requires Sees(base, c, s.daemon) && NotFoundIsTrue(s.daemon) && Possible(keep, s, steps)
    ensures Sees(base, c, Exec(keep, s, steps).daemon)
    decreases |steps|
  {
    if steps != [] {
      SeesStep(keep, s, steps[0], base, c);
      NotFoundStep(keep, s, steps[0]);
      SeesRun(keep, Apply(keep, s, steps[0]), steps[1..], base, c);
    }
  }
}
