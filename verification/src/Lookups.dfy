/** Every client id in circulation belongs to an accepted client, so that looking up its
    sender never fails, in any run. */
module Lookups {
  import opened Sequences
  import opened Protocol
  import opened Subscriptions
  import opened System

  predicate KnownEvent(ids: set<ClientId>, e: DaemonEvent) {
    match e
    case IncomingCmd(id, _) => id in ids
    case SendEvent(id, _) => id in ids
    case _ => true
  }

  predicate KnownCmd(ids: set<ClientId>, m: ManagerCmd) {
    m.DispatchEvent? || m.clientId in ids
  }

  ghost predicate KnownList(ids: set<ClientId>, list: seq<ClientId>) {
    forall i :: 0 <= i < |list| ==> list[i] in ids
  }

  ghost predicate KnownDeliveries(ids: set<ClientId>, list: seq<Delivery>) {
    forall i :: 0 <= i < |list| ==> list[i].client in ids
  }

  ghost predicate KnownSubs(ids: set<ClientId>, subs: Subs) {
    forall key :: key in subs ==> KnownList(ids, subs[key])
  }

  ghost predicate KnownEvents(ids: set<ClientId>, dq: seq<DaemonEvent>) {
    forall i :: 0 <= i < |dq| ==> KnownEvent(ids, dq[i])
  }

  ghost predicate KnownCmds(ids: set<ClientId>, mq: seq<ManagerCmd>) {
    forall i :: 0 <= i < |mq| ==> KnownCmd(ids, mq[i])
  }

  ghost predicate KnownRequests(ids: set<ClientId>, outbox: seq<Request>) {
    forall i :: 0 <= i < |outbox| ==> outbox[i].client in ids
  }

  ghost predicate KnownHandled(ids: set<ClientId>, handled: seq<Handler>) {
    forall i :: 0 <= i < |handled| ==> handled[i].client in ids
  }

  ghost predicate Known(s: State) {
    var ids := s.clients.streams.Keys;
    && !s.daemon.crashed
    && s.clients.accepted <= CLIENT_IDS
    && (forall c: ClientId :: c in ids <==> c < s.clients.accepted)
    && s.clients.sent.Keys == ids
    && s.clients.open <= ids && s.clients.dead <= ids
    && KnownRequests(ids, s.clients.outbox)
    && KnownEvents(ids, s.daemon.dq)
    && KnownCmds(ids, s.manager.mq)
    && KnownSubs(ids, s.manager.subs)
    && KnownDeliveries(ids, s.manager.sending)
    && KnownDeliveries(ids, s.daemon.delivered)
    && KnownHandled(ids, s.daemon.handled)
    && (s.daemon.handler.Some? ==> s.daemon.handler.value.client in ids)
  }

  lemma {:induction false} RetainKnown(keep: Keep, ids: set<ClientId>, removed: ClientId, list: seq<ClientId>)
    requires KnownList(ids, list)
    ensures KnownList(ids, Retain(keep, removed, list))
  {
    if list != [] {
      RetainKnown(keep, ids, removed, list[1..]);
    }
  }

  lemma {:induction false} FanoutKnown(ids: set<ClientId>, list: seq<ClientId>, event: ServerEvent)
    requires KnownList(ids, list)
    ensures KnownDeliveries(ids, Fanout(list, event))
  {
    if list != [] {
      FanoutKnown(ids, list[1..], event);
    }
  }

  lemma ManageKnown(keep: Keep, s: State)
    requires Known(s) && s.manager.mq != []
    ensures Known(DoManage(keep, s))
  {
    var cmd, ids := s.manager.mq[0], s.clients.streams.Keys;
    assert KnownCmd(ids, cmd);
    match cmd
    case DispatchEvent(unit, event) =>
      FanoutKnown(ids, Listeners(s.manager.subs, (unit, EventType(event))), event);
    case AddSubscription(_, _, _) =>
    case RemoveSubscription(unit, eventType, client) =>
      RetainKnown(keep, ids, client, Listeners(s.manager.subs, (unit, eventType)));
    case RemoveAllSubscriptions(client) =>
      forall key | key in s.manager.subs ensures KnownList(ids, Retain(keep, client, s.manager.subs[key])) {
        RetainKnown(keep, ids, client, s.manager.subs[key]);
      }
  }

  lemma PushManagerKnown(s: State, cmd: ManagerCmd)
    requires Known(s) && KnownCmd(s.clients.streams.Keys, cmd)
    ensures Known(PushManager(s, cmd))
  {
  }

  lemma PushDaemonKnown(s: State, event: DaemonEvent)
    requires Known(s) && KnownEvent(s.clients.streams.Keys, event)
    ensures Known(PushDaemon(s, event))
  {
  }

  lemma SendToKnown(s: State, client: ClientId, response: DaemonResponse)
    requires Known(s) && client in s.clients.streams
    ensures Known(SendTo(s, client, response))
  {
    if client in s.clients.dead {
      PushManagerKnown(s, RemoveAllSubscriptions(client));
    }
  }

  lemma TakeKnown(s: State, choice: Choice)
    requires Known(s) && s.daemon.dq != []
    ensures Known(DoTake(s, choice))
  {
    var s' := Popped(s);
    assert KnownEvent(s.clients.streams.Keys, s.daemon.dq[0]);
    assert Known(s');
    match s.daemon.dq[0]
    case IncomingCmd(_, _) =>
    case SendEvent(client, event) =>
      SendToKnown(Noted(s', Delivery(client, event)), client, Notice(event));
    case AddServerUnit(_) =>
    case StopRequested => PushDaemonKnown(s', SendStopped);
    case SendStopped => assert Broadcast(s').clients.streams.Keys == s'.clients.streams.Keys;
  }

  lemma {:induction false} WorkKnown(s: State)
    requires Known(s) && s.daemon.handler.Some?
    ensures Known(DoWork(s))
  {
    var h := s.daemon.handler.value;
    if h.pc >= |h.actions| {
      SendToKnown(Closed(s, h), h.client, h.response);
    } else {
      var next := h.(pc := h.pc + 1);
      match h.actions[h.pc]
      case Subscribe(unit, eventType) =>
        PushManagerKnown(WithHandler(s, Sending(s, h)), AddSubscription(unit, eventType, h.client));
      case Announce(unit, event) =>
        PushManagerKnown(WithHandler(s, Sending(s, h)), Raise(unit, event));
      case Launch(_) =>
      case RequestStop => PushDaemonKnown(WithHandler(s, Some(next)), StopRequested);
    }
  }

  lemma RunKnown(s: State, t: nat)
    requires Known(s) && t < |s.threads| && s.threads[t].pc < |s.threads[t].actions|
    ensures Known(DoRun(s, t))
  {
    var thread := s.threads[t];
    var next := thread.(pc := thread.pc + 1);
    match thread.actions[thread.pc]
    case RaiseEvent(unit, event) =>
      PushManagerKnown(WithThread(s, t, next.(sentAt := thread.sentAt + [|s.manager.hist|])), Raise(unit, event));
    case Register(config) => PushDaemonKnown(WithThread(s, t, next), AddServerUnit(config));
  }

  lemma ClientKnown(keep: Keep, s: State, step: Step)
    requires Known(s) && Enabled(s, step)
    requires step.Accept? || step.ClientSends? || step.ClientDies? || step.HangUp?
    ensures Known(Apply(keep, s, step))
  {
  }

  lemma QueueKnown(keep: Keep, s: State, step: Step)
    requires Known(s) && Enabled(s, step)
    requires step.Forward? || step.EmitNext?
    ensures Known(Apply(keep, s, step))
  {
  }

  lemma KnownStep(keep: Keep, s: State, step: Step)
    requires Known(s) && Enabled(s, step)
    ensures Known(Apply(keep, s, step))
  {
    match step
    case Take(choice) => TakeKnown(s, choice);
    case Work => WorkKnown(s);
    case Manage => ManageKnown(keep, s);
    case RunThread(t) => RunKnown(s, t);
    case Forward(_) => QueueKnown(keep, s, step);
    case EmitNext => QueueKnown(keep, s, step);
    case _ => ClientKnown(keep, s, step);
  }
}
