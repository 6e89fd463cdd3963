/** A client hears of events only after the answer to a command that subscribed it. */
module Acknowledgement {
  import opened Sequences
  import opened Protocol
  import opened Subscriptions
  import opened System
  import opened Lookups
  import opened Replies
  import opened Routing

  /** The key under which an event is dispatched. */
  function KeyOf(event: ServerEvent): Key {
    (event.serverId, EventType(event))
  }

  /** The command was one that subscribes to `key`, and it was accepted. */
  predicate Subscribing(cmd: DaemonCmd, response: DaemonResponse, key: Key) {
    match cmd
    case Start(id, wait) => wait && response == Ok && key in [(id, TServerStarting), (id, TServerStarted)]
    case Stop(id, wait) => wait && response == Ok && key in [(id, TServerStopping), (id, TServerStopped)]
    case SubscribeEvent(eventType, ids) => ids.Some? && key.0 in ids.value && key.1 == eventType
    case InstallServer(request) =>
      key.0 == request.unitId && key.1 in [TInstallationComplete, TInstallationFailed, TActionProgress]
    case UpdateServer(id, _) => response == Ok && key.0 == id && key.1 in [TUpdateComplete, TUpdateFailed, TActionProgress]
    case _ => false
  }

  predicate Granting(h: Handler, key: Key) {
    Subscribing(h.cmd, h.response, key)
  }

  /** Clients with a command that subscribes to `key` answered or at hand. */
  function Granted(d: Daemon, key: Key): set<ClientId> {
    (set h | h in d.handled && Granting(h, key) :: h.client)
    + (if d.handler.Some? && Granting(d.handler.value, key) then {d.handler.value.client} else {})
  }

  /** A command subscribes to no more than it should. */
  ghost predicate Shaped(h: Handler) {
    forall i :: 0 <= i < |h.actions| && h.actions[i].Subscribe? ==> Granting(h, (h.actions[i].unit, h.actions[i].eventType))
  }

  ghost predicate HandlerShaped(d: Daemon) {
    d.handler.Some? ==> Shaped(d.handler.value)
  }

  predicate GrantedEvent(ids: set<ClientId>, key: Key, e: DaemonEvent) {
    e.SendEvent? && KeyOf(e.event) == key ==> e.clientId in ids
  }

  predicate GrantedCmd(ids: set<ClientId>, key: Key, m: ManagerCmd) {
    Adds(m, key) ==> m.clientId in ids
  }

  ghost predicate GrantedEvents(ids: set<ClientId>, key: Key, dq: seq<DaemonEvent>) {
    forall i :: 0 <= i < |dq| ==> GrantedEvent(ids, key, dq[i])
  }

  ghost predicate GrantedCmds(ids: set<ClientId>, key: Key, mq: seq<ManagerCmd>) {
    forall i :: 0 <= i < |mq| ==> GrantedCmd(ids, key, mq[i])
  }

  ghost predicate GrantedDeliveries(ids: set<ClientId>, key: Key, sending: seq<Delivery>) {
    forall i :: 0 <= i < |sending| && KeyOf(sending[i].event) == key ==> sending[i].client in ids
  }

  /** Wherever a subscription for `key` or an event under it is on its way to a client, the
      client was granted it. */
  ghost predicate GrantedBy(ids: set<ClientId>, key: Key, dq: seq<DaemonEvent>, m: Manager) {
    && GrantedEvents(ids, key, dq) && GrantedCmds(ids, key, m.mq)
    && KnownList(ids, Listeners(m.subs, key)) && GrantedDeliveries(ids, key, m.sending)
  }

  ghost predicate GrantedAt(s: State, key: Key) {
    GrantedBy(Granted(s.daemon, key), key, s.daemon.dq, s.manager)
  }

  ghost predicate AllGranted(s: State) {
    HandlerShaped(s.daemon) && forall key: Key :: GrantedAt(s, key)
  }

  lemma GrowGranted(ids: set<ClientId>, more: set<ClientId>, key: Key, dq: seq<DaemonEvent>, m: Manager)
    requires GrantedBy(ids, key, dq, m) && ids <= more
    ensures GrantedBy(more, key, dq, m)
  {
  }

  /** Pushing what concerns no ungranted client. */
  lemma PushGranted(ids: set<ClientId>, key: Key, s: State, e: DaemonEvent, cmd: ManagerCmd)
    requires GrantedBy(ids, key, s.daemon.dq, s.manager)
    ensures GrantedEvent(ids, key, e) ==> GrantedBy(ids, key, PushDaemon(s, e).daemon.dq, s.manager)
    ensures GrantedCmd(ids, key, cmd) ==> GrantedBy(ids, key, s.daemon.dq, PushManager(s, cmd).manager)
  {
  }

  /** What a command does, action by action, told by the command, its answer and the world. */
  ghost predicate Does(servers: map<UnitId, ServerUnitConfig>, cmd: DaemonCmd, choice: Choice, a: HandlerAction) {
    match a
    case Subscribe(unit, eventType) => Subscribing(cmd, Answer(servers, cmd, choice), (unit, eventType))
    case Announce(unit, event) =>
      && cmd.InstallServer? && cmd.request.unitId == unit && unit in servers
      && event == InstallationFailed(unit, "a unit with that name already exists")
    case Launch(script) =>
      && script == choice.script
      && (match cmd
          case Start(id, _) => id in servers && choice.down
          case InstallServer(request) => request.unitId !in servers
          case UpdateServer(id, _) => id in servers
          case _ => false)
    case RequestStop => cmd.StopDaemon?
  }

  /** The ids a subscription names, if it does, are distinct. */
  predicate NamesOnce(cmd: DaemonCmd) {
    cmd.SubscribeEvent? && cmd.serverIds.Some? ==>
      forall i, j :: 0 <= i < j < |cmd.serverIds.value| ==> cmd.serverIds.value[i] != cmd.serverIds.value[j]
  }

  /** A command does exactly what it should, and each of it once. */
  lemma ProgramMeans(servers: map<UnitId, ServerUnitConfig>, cmd: DaemonCmd, choice: Choice)
    ensures forall a :: a in Program(servers, cmd, choice) <==> Does(servers, cmd, choice, a)
    ensures var actions := Program(servers, cmd, choice);
            NamesOnce(cmd) ==> forall i, j :: 0 <= i < j < |actions| ==> actions[i] != actions[j]
  {
    var actions := Program(servers, cmd, choice);
    forall a ensures a in actions <==> Does(servers, cmd, choice, a) {
      DoesExactly(servers, cmd, choice, a);
    }
  }

  lemma DoesExactly(servers: map<UnitId, ServerUnitConfig>, cmd: DaemonCmd, choice: Choice, a: HandlerAction)
    ensures a in Program(servers, cmd, choice) <==> Does(servers, cmd, choice, a)
  {
    if cmd.SubscribeEvent? && cmd.serverIds.Some? {
      SubscribesExactly(cmd.serverIds.value, cmd.eventType, a);
    }
  }

  lemma SubscribesExactly(ids: seq<UnitId>, eventType: ServerEventType, a: HandlerAction)
    ensures a in Subscribes(ids, eventType) <==> a.Subscribe? && a.unit in ids && a.eventType == eventType
  {
    if a.Subscribe? && a.unit in ids && a.eventType == eventType {
      var i :| 0 <= i < |ids| && ids[i] == a.unit;
      assert Subscribes(ids, eventType)[i] == a;
    }
  }

  lemma ProgramShape(servers: map<UnitId, ServerUnitConfig>, cmd: DaemonCmd, choice: Choice)
    ensures var actions := Program(servers, cmd, choice);
            forall i :: 0 <= i < |actions| && actions[i].Subscribe?
              ==> Subscribing(cmd, Answer(servers, cmd, choice), (actions[i].unit, actions[i].eventType))
  {
  }

  lemma ManageGranted(keep: Keep, ids: set<ClientId>, key: Key, dq: seq<DaemonEvent>, s: State)
    requires GrantedBy(ids, key, dq, s.manager) && s.manager.mq != [] && RoutedCmd(s.manager.mq[0])
    ensures GrantedBy(ids, key, dq, DoManage(keep, s).manager)
  {
    var m := s.manager;
    var cmd := m.mq[0];
    assert GrantedCmd(ids, key, cmd);
    match cmd
    case DispatchEvent(unit, event) =>
      if KeyOf(event) == key {
        FanoutKnown(ids, Listeners(m.subs, key), event);
      } else {
        FanoutEvents(Listeners(m.subs, KeyOf(event)), event);
      }
    case AddSubscription(_, _, _) =>
    case RemoveSubscription(_, _, client) => RetainKnown(keep, ids, client, Listeners(m.subs, key));
    case RemoveAllSubscriptions(client) => RetainKnown(keep, ids, client, Listeners(m.subs, key));
  }

  lemma {:induction false} FanoutEvents(ids: seq<ClientId>, event: ServerEvent)
    ensures forall i :: 0 <= i < |Fanout(ids, event)| ==> Fanout(ids, event)[i].event == event
  {
    if ids != [] {
      FanoutEvents(ids[1..], event);
    }
  }

  lemma SendToGranted(ids: set<ClientId>, key: Key, s: State, c: ClientId, r: DaemonResponse)
    requires GrantedBy(ids, key, s.daemon.dq, s.manager)
    ensures GrantedBy(ids, key, SendTo(s, c, r).daemon.dq, SendTo(s, c, r).manager)
  {
    PushGranted(ids, key, s, SendStopped, RemoveAllSubscriptions(c));
  }

  lemma {:induction false} TakeGranted(s: State, choice: Choice, key: Key)
    requires HandlerShaped(s.daemon) && GrantedAt(s, key) && s.daemon.dq != [] && s.daemon.handler.None?
    ensures HandlerShaped(DoTake(s, choice).daemon) && GrantedAt(DoTake(s, choice), key)
  {
    if s.daemon.dq[0].IncomingCmd? {
      BeginGranted(s, choice, key);
    } else {
      TakesNothing(s, choice);
      TakeQueues(Granted(s.daemon, key), key, s, choice);
    }
  }

  lemma TakesNothing(s: State, choice: Choice)
    requires s.daemon.dq != [] && s.daemon.handler.None? && !s.daemon.dq[0].IncomingCmd?
    ensures DoTake(s, choice).daemon.handler.None? && DoTake(s, choice).daemon.handled == s.daemon.handled
  {
  }

  /** Taking anything but a command grants nothing. */
  lemma TakeQueues(ids: set<ClientId>, key: Key, s: State, choice: Choice)
    requires GrantedBy(ids, key, s.daemon.dq, s.manager) && s.daemon.dq != [] && !s.daemon.dq[0].IncomingCmd?
    ensures GrantedBy(ids, key, DoTake(s, choice).daemon.dq, DoTake(s, choice).manager)
  {
    var s' := Popped(s);
    assert GrantedBy(ids, key, s'.daemon.dq, s'.manager);
    match s.daemon.dq[0]
    case SendEvent(client, event) => SendToGranted(ids, key, Noted(s', Delivery(client, event)), client, Notice(event));
    case StopRequested => PushGranted(ids, key, s', SendStopped, RemoveAllSubscriptions(0));
    case _ =>
  }

  lemma BeginGranted(s: State, choice: Choice, key: Key)
    requires GrantedAt(s, key) && s.daemon.dq != [] && s.daemon.handler.None? && s.daemon.dq[0].IncomingCmd?
    ensures HandlerShaped(DoTake(s, choice).daemon) && GrantedAt(DoTake(s, choice), key)
  {
    ProgramShape(s.daemon.servers, s.daemon.dq[0].cmd, choice);
    GrowGranted(Granted(s.daemon, key), Granted(DoTake(s, choice).daemon, key), key, Popped(s).daemon.dq, s.manager);
  }

  lemma ClosedGranted(s: State, h: Handler, key: Key)
    requires s.daemon.handler == Some(h)
    ensures Granted(Closed(s, h).daemon, key) == Granted(s.daemon, key)
  {
  }

  lemma AnswerGranted(s: State, h: Handler, key: Key)
    requires GrantedAt(s, key) && s.daemon.handler == Some(h) && h.pc >= |h.actions|
    ensures HandlerShaped(DoWork(s).daemon) && GrantedAt(DoWork(s), key)
  {
    AnswerDaemon(s, h);
    ClosedGranted(s, h, key);
    SendToGranted(Granted(s.daemon, key), key, Closed(s, h), h.client, h.response);
  }

  lemma ActSame(s: State, h: Handler, key: Key)
    requires s.daemon.handler == Some(h) && h.pc < |h.actions| && Shaped(h)
    ensures HandlerShaped(DoWork(s).daemon) && Granted(DoWork(s).daemon, key) == Granted(s.daemon, key)
  {
    ActDaemon(s, h);
  }

  lemma ActQueues(ids: set<ClientId>, key: Key, s: State, h: Handler)
    requires GrantedBy(ids, key, s.daemon.dq, s.manager) && s.daemon.handler == Some(h) && h.pc < |h.actions|
    requires var a := h.actions[h.pc]; a.Subscribe? && (a.unit, a.eventType) == key ==> h.client in ids
    ensures GrantedBy(ids, key, DoWork(s).daemon.dq, DoWork(s).manager)
  {
    match h.actions[h.pc]
    case Subscribe(unit, eventType) => PushGranted(ids, key, s, SendStopped, AddSubscription(unit, eventType, h.client));
    case Announce(unit, event) => PushGranted(ids, key, s, SendStopped, Raise(unit, event));
    case Launch(_) =>
    case RequestStop => PushGranted(ids, key, s, StopRequested, RemoveAllSubscriptions(0));
  }

  lemma {:induction false} ActGranted(s: State, h: Handler, key: Key)
    requires Shaped(h) && GrantedAt(s, key) && s.daemon.handler == Some(h) && h.pc < |h.actions|
    ensures HandlerShaped(DoWork(s).daemon) && GrantedAt(DoWork(s), key)
  {
    ActSame(s, h, key);
    ActQueues(Granted(s.daemon, key), key, s, h);
  }

  lemma OtherGranted(keep: Keep, s: State, step: Step, key: Key)
    requires HandlerShaped(s.daemon) && GrantedAt(s, key) && RoutedHistory(s.manager.mq)
    requires Enabled(s, step) && !step.Take? && !step.Work?
    ensures HandlerShaped(Apply(keep, s, step).daemon) && GrantedAt(Apply(keep, s, step), key)
  {
    var ids := Granted(s.daemon, key);
    match step
    case Manage => ManageGranted(keep, ids, key, s.daemon.dq, s);
    case EmitNext =>
      var d := s.manager.sending[0];
      PushGranted(ids, key, s.(manager := s.manager.(sending := s.manager.sending[1..])),
                  SendEvent(d.client, d.event), RemoveAllSubscriptions(0));
    case Forward(at) =>
      PushGranted(ids, key, Unsent(s, at),
                  IncomingCmd(s.clients.outbox[at].client, s.clients.outbox[at].cmd), RemoveAllSubscriptions(0));
    case HangUp(client) => PushGranted(ids, key, s, SendStopped, RemoveAllSubscriptions(client));
    case RunThread(t) =>
      var action := s.threads[t].actions[s.threads[t].pc];
      match action {
        case RaiseEvent(unit, event) => PushGranted(ids, key, s, SendStopped, Raise(unit, event));
        case Register(config) => PushGranted(ids, key, s, AddServerUnit(config), RemoveAllSubscriptions(0));
      }
    case _ =>
  }

  lemma {:induction false} GrantedKeyStep(keep: Keep, s: State, step: Step, key: Key)
    requires HandlerShaped(s.daemon) && GrantedAt(s, key) && RoutedHistory(s.manager.mq) && Enabled(s, step)
    ensures HandlerShaped(Apply(keep, s, step).daemon) && GrantedAt(Apply(keep, s, step), key)
  {
    if step.Take? {
      TakeGranted(s, step.choice, key);
    } else if step.Work? {
      if s.daemon.handler.value.pc < |s.daemon.handler.value.actions| {
        ActGranted(s, s.daemon.handler.value, key);
      } else {
        AnswerGranted(s, s.daemon.handler.value, key);
      }
    } else {
      OtherGranted(keep, s, step, key);
    }
  }

  lemma {:induction false} GrantedStep(keep: Keep, s: State, step: Step)
    requires AllGranted(s) && RoutedHistory(s.manager.mq) && Enabled(s, step)
    ensures AllGranted(Apply(keep, s, step))
  {
    assert GrantedAt(s, ("", TServerStarting));
    GrantedKeyStep(keep, s, step, ("", TServerStarting));
    forall key: Key ensures GrantedAt(Apply(keep, s, step), key) {
      GrantedKeyStep(keep, s, step, key);
    }
  }

  // ---------- In the streams ----------

  function Answered(c: ClientId): Handler -> seq<Handler> {
    (h: Handler) => if h.client == c then [h] else []
  }

  /** The commands of one client that were answered, in order. */
  function AnsweredTo(handled: seq<Handler>, c: ClientId): seq<Handler> {
    Collect(handled, Answered(c))
  }

  /** Before position `i` of the stream lies the response to command `k`. */
  predicate ResponseBefore(stream: seq<DaemonResponse>, i: nat, k: nat)
    requires i <= |stream|
  {
    |Direct(stream[..i])| > |HANDSHAKE| + k
  }

  /** The response to a command that subscribed to `key` lies before position `i`. */
  ghost predicate AfterGrant(stream: seq<DaemonResponse>, i: nat, key: Key, answered: seq<Handler>)
    requires i <= |stream|
  {
    exists k: nat :: k < |answered| && Granting(answered[k], key) && ResponseBefore(stream, i, k)
  }

  ghost predicate AllAfter(stream: seq<DaemonResponse>, answered: seq<Handler>) {
    forall i :: 0 <= i < |stream| && stream[i].Notice? ==> AfterGrant(stream, i, KeyOf(stream[i].event), answered)
  }

  ghost predicate Acknowledged(s: State, c: ClientId) {
    c in s.clients.streams ==> AllAfter(s.clients.streams[c], AnsweredTo(s.daemon.handled, c))
  }

  lemma {:induction false} AnsweredSizes(handled: seq<Handler>, c: ClientId)
    ensures |AnsweredTo(handled, c)| == |Collect(handled, ResponseHandled(c))|
    ensures forall h :: h in handled && h.client == c ==> h in AnsweredTo(handled, c)
  {
    if handled != [] {
      AnsweredSizes(handled[1..], c);
    }
  }

  lemma AfterGrows(stream: seq<DaemonResponse>, i: nat, key: Key, answered: seq<Handler>, r: DaemonResponse, more: seq<Handler>)
    requires i <= |stream| && AfterGrant(stream, i, key, answered)
    ensures AfterGrant(stream + [r], i, key, answered + more) && AfterGrant(stream, i, key, answered + more)
  {
    assert (stream + [r])[..i] == stream[..i];
    var k: nat :| k < |answered| && Granting(answered[k], key) && ResponseBefore(stream, i, k);
    assert (answered + more)[k] == answered[k];
    assert ResponseBefore(stream + [r], i, k);
  }

  /** More messages and more answers leave earlier acknowledgements in place. */
  lemma AcknowledgedGrows(stream: seq<DaemonResponse>, answered: seq<Handler>, r: DaemonResponse, more: seq<Handler>)
    requires AllAfter(stream, answered) && (r.Notice? ==> AfterGrant(stream, |stream|, KeyOf(r.event), answered))
    ensures AllAfter(stream + [r], answered + more) && AllAfter(stream, answered + more)
  {
    forall i | 0 <= i < |stream| && stream[i].Notice?
      ensures AfterGrant(stream + [r], i, KeyOf(stream[i].event), answered + more)
      ensures AfterGrant(stream, i, KeyOf(stream[i].event), answered + more)
    {
      AfterGrows(stream, i, KeyOf(stream[i].event), answered, r, more);
    }
    if r.Notice? {
      AfterGrows(stream, |stream|, KeyOf(r.event), answered, r, more);
    }
  }

  lemma DeliverAcknowledged(s: State, d: Delivery, c: ClientId)
    requires Paired(s, c) && Acknowledged(s, c) && d.client in s.clients.streams
    requires exists h :: h in s.daemon.handled && Granting(h, KeyOf(d.event)) && h.client == d.client
    ensures Acknowledged(SendTo(Noted(s, d), d.client, Notice(d.event)), c)
  {
    if c == d.client && c !in s.clients.dead {
      var stream, answered := s.clients.streams[c], AnsweredTo(s.daemon.handled, c);
      var h :| h in s.daemon.handled && Granting(h, KeyOf(d.event)) && h.client == d.client;
      AnsweredSizes(s.daemon.handled, c);
      var k: nat :| k < |answered| && answered[k] == h;
      assert stream[..|stream|] == stream;
      assert ResponseBefore(stream, |stream|, k);
      AcknowledgedGrows(stream, answered, Notice(d.event), []);
      AppendNothing(answered);
    }
  }

  lemma ReplyAcknowledged(s: State, h: Handler, c: ClientId)
    requires Acknowledged(s, c) && !h.response.Notice?
    ensures Acknowledged(SendTo(Closed(s, h), h.client, h.response), c)
  {
    CollectSnoc(s.daemon.handled, h, Answered(c));
    if c in s.clients.streams {
      AcknowledgedGrows(s.clients.streams[c], AnsweredTo(s.daemon.handled, c), h.response, Answered(c)(h));
    }
  }

  lemma BroadcastAcknowledged(s: State, c: ClientId)
    requires Acknowledged(s, c)
    ensures Acknowledged(Broadcast(s), c)
  {
    if c in s.clients.streams {
      var answered := AnsweredTo(s.daemon.handled, c);
      AcknowledgedGrows(s.clients.streams[c], answered, DaemonStopped, []);
      assert answered + [] == answered;
    }
  }

  lemma SameAcknowledged(s: State, s': State, c: ClientId)
    requires Acknowledged(s, c) && s'.clients.streams == s.clients.streams && s'.daemon.handled == s.daemon.handled
    ensures Acknowledged(s', c)
  {
  }

  lemma TakeEventAcknowledged(s: State, choice: Choice, c: ClientId)
    requires Known(s) && AllGranted(s) && Paired(s, c) && Acknowledged(s, c)
    requires s.daemon.dq != [] && s.daemon.handler.None? && s.daemon.dq[0].SendEvent?
    ensures Acknowledged(DoTake(s, choice), c)
  {
    var d := Delivery(s.daemon.dq[0].clientId, s.daemon.dq[0].event);
    assert KnownEvent(s.clients.streams.Keys, s.daemon.dq[0]);
    assert GrantedAt(s, KeyOf(d.event));
    assert GrantedEvent(Granted(s.daemon, KeyOf(d.event)), KeyOf(d.event), s.daemon.dq[0]);
    DeliverAcknowledged(s, d, c);
    SameAcknowledged(SendTo(Noted(s, d), d.client, Notice(d.event)), DoTake(s, choice), c);
  }

  lemma TakeAcknowledged(s: State, choice: Choice, c: ClientId)
    requires Known(s) && AllGranted(s) && Paired(s, c) && Acknowledged(s, c)
    requires s.daemon.dq != [] && s.daemon.handler.None?
    ensures Acknowledged(DoTake(s, choice), c)
  {
    match s.daemon.dq[0]
    case SendEvent(_, _) => TakeEventAcknowledged(s, choice, c);
    case SendStopped =>
      SameAcknowledged(s, Popped(s), c);
      BroadcastAcknowledged(Popped(s), c);
    case _ => SameAcknowledged(s, DoTake(s, choice), c);
  }

  lemma WorkAcknowledged(s: State, c: ClientId)
    requires Plain(s) && Acknowledged(s, c) && s.daemon.handler.Some?
    ensures Acknowledged(DoWork(s), c)
  {
    var h := s.daemon.handler.value;
    if h.pc >= |h.actions| {
      ReplyAcknowledged(s, h, c);
    } else {
      SameAcknowledged(s, DoWork(s), c);
    }
  }

  lemma {:induction false} AcknowledgedStep(keep: Keep, s: State, step: Step, c: ClientId)
    requires Known(s) && Plain(s) && AllGranted(s) && Paired(s, c) && Acknowledged(s, c) && Enabled(s, step)
    ensures Acknowledged(Apply(keep, s, step), c)
  {
    match step
    case Take(choice) => TakeAcknowledged(s, choice, c);
    case Work => WorkAcknowledged(s, c);
    case Accept =>
    case _ => SameAcknowledged(s, Apply(keep, s, step), c);
  }
}
