/** What the daemon thread has delivered, what is on its way, and what the manager still has
    to emit are together one sequential replay of the manager's whole command history. */
module Pipeline {
  import opened Sequences
  import opened Protocol
  import opened Subscriptions
  import opened System

  function DeliveryOf(e: DaemonEvent): seq<Delivery> {
    match e
    case SendEvent(client, event) => [Delivery(client, event)]
    case _ => []
  }

  /** The `SendEvent`s of a queue, in order. */
  function Sends(dq: seq<DaemonEvent>): seq<Delivery> {
    Collect(dq, DeliveryOf)
  }

  /** The pipeline as a relation between its parts. */
  ghost predicate Flow(
    keep: Keep, hist: seq<ManagerCmd>, delivered: seq<Delivery>, dq: seq<DaemonEvent>,
    sending: seq<Delivery>, subs: Subs, mq: seq<ManagerCmd>)
  {
    && Replay(keep, map[], hist) == delivered + Sends(dq) + sending + Replay(keep, subs, mq)
    && SubsAfter(keep, map[], hist) == SubsAfter(keep, subs, mq)
  }

  ghost predicate Flowing(keep: Keep, s: State) {
    Flow(keep, s.manager.hist, s.daemon.delivered, s.daemon.dq, s.manager.sending, s.manager.subs, s.manager.mq)
  }

  lemma PushManagerFlow(keep: Keep, s: State, cmd: ManagerCmd)
    requires Flowing(keep, s)
    ensures Flowing(keep, PushManager(s, cmd))
  {
    ReplaySnoc(keep, map[], s.manager.hist, cmd);
    ReplaySnoc(keep, s.manager.subs, s.manager.mq, cmd);
    Associative(s.daemon.delivered + Sends(s.daemon.dq) + s.manager.sending, Replay(keep, s.manager.subs, s.manager.mq),
                Emitted(SubsAfter(keep, s.manager.subs, s.manager.mq), cmd));
  }

  lemma PushDaemonFlow(keep: Keep, s: State, e: DaemonEvent)
    requires Flowing(keep, s) && !e.SendEvent?
    ensures Flowing(keep, PushDaemon(s, e))
  {
    CollectSnoc(s.daemon.dq, e, DeliveryOf);
    assert Sends(s.daemon.dq) + [] == Sends(s.daemon.dq);
  }

  lemma SendToFlow(keep: Keep, s: State, client: ClientId, response: DaemonResponse)
    requires Flowing(keep, s)
    ensures Flowing(keep, SendTo(s, client, response))
  {
    PushManagerFlow(keep, s, RemoveAllSubscriptions(client));
  }

  lemma PoppedFlow(keep: Keep, s: State)
    requires Flowing(keep, s) && s.daemon.dq != []
    ensures Flowing(keep, Popped(s).(daemon := Popped(s).daemon.(delivered := s.daemon.delivered + DeliveryOf(s.daemon.dq[0]))))
  {
    var first := DeliveryOf(s.daemon.dq[0]);
    assert Sends(s.daemon.dq) == first + Sends(s.daemon.dq[1..]);
    assert s.daemon.delivered + (first + Sends(s.daemon.dq[1..])) == s.daemon.delivered + first + Sends(s.daemon.dq[1..]);
  }

  lemma {:induction false} TakeFlow(keep: Keep, s: State, choice: Choice)
    requires Flowing(keep, s) && s.daemon.dq != []
    ensures Flowing(keep, DoTake(s, choice))
  {
    PoppedFlow(keep, s);
    var s' := Popped(s);
    assert s.daemon.delivered + [] == s.daemon.delivered;
    match s.daemon.dq[0]
    case SendEvent(client, event) =>
      SendToFlow(keep, Noted(s', Delivery(client, event)), client, Notice(event));
    case StopRequested => PushDaemonFlow(keep, s', SendStopped);
    case _ =>
  }

  lemma WorkFlow(keep: Keep, s: State)
    requires Flowing(keep, s) && s.daemon.handler.Some?
    ensures Flowing(keep, DoWork(s))
  {
    var h := s.daemon.handler.value;
    if h.pc >= |h.actions| {
      SendToFlow(keep, Closed(s, h), h.client, h.response);
    } else {
      var next := h.(pc := h.pc + 1);
      var pushed := WithHandler(s, Sending(s, h));
      match h.actions[h.pc]
      case Subscribe(unit, eventType) => PushManagerFlow(keep, pushed, AddSubscription(unit, eventType, h.client));
      case Announce(unit, event) => PushManagerFlow(keep, pushed, Raise(unit, event));
      case Launch(_) =>
      case RequestStop => PushDaemonFlow(keep, WithHandler(s, Some(next)), StopRequested);
    }
  }

  lemma RunFlow(keep: Keep, s: State, t: nat)
    requires Flowing(keep, s) && t < |s.threads| && s.threads[t].pc < |s.threads[t].actions|
    ensures Flowing(keep, DoRun(s, t))
  {
    var thread := s.threads[t];
    var next := thread.(pc := thread.pc + 1);
    match thread.actions[thread.pc]
    case RaiseEvent(unit, event) =>
      PushManagerFlow(keep, WithThread(s, t, next.(sentAt := thread.sentAt + [|s.manager.hist|])), Raise(unit, event));
    case Register(config) => PushDaemonFlow(keep, WithThread(s, t, next), AddServerUnit(config));
  }

  lemma {:induction false} ManageFlow(keep: Keep, s: State)
    requires Flowing(keep, s) && s.manager.mq != [] && s.manager.sending == []
    ensures Flowing(keep, DoManage(keep, s))
  {
    var cmd := s.manager.mq[0];
    var emitted, rest := Emitted(s.manager.subs, cmd), Replay(keep, NextSubs(keep, s.manager.subs, cmd), s.manager.mq[1..]);
    AppendNothing(s.daemon.delivered + Sends(s.daemon.dq));
    Associative(s.daemon.delivered + Sends(s.daemon.dq), emitted, rest);
    assert Replay(keep, s.manager.subs, s.manager.mq) == emitted + rest;
  }

  lemma EmitFlow(keep: Keep, s: State)
    requires Flowing(keep, s) && s.manager.sending != []
    ensures Flowing(keep, DoEmit(s))
  {
    var first := s.manager.sending[0];
    var e := SendEvent(first.client, first.event);
    CollectSnoc(s.daemon.dq, e, DeliveryOf);
    assert s.manager.sending == [first] + s.manager.sending[1..];
    assert s.daemon.delivered + Sends(s.daemon.dq) + s.manager.sending
        == s.daemon.delivered + (Sends(s.daemon.dq) + [first]) + s.manager.sending[1..];
  }

  lemma FlowStep(keep: Keep, s: State, step: Step)
    requires Flowing(keep, s) && Enabled(s, step)
    ensures Flowing(keep, Apply(keep, s, step))
  {
    match step
    case Take(choice) => TakeFlow(keep, s, choice);
    case Work => WorkFlow(keep, s);
    case Manage => ManageFlow(keep, s);
    case EmitNext => EmitFlow(keep, s);
    case RunThread(t) => RunFlow(keep, s, t);
    case Forward(at) =>
      PushDaemonFlow(keep, Unsent(s, at), IncomingCmd(s.clients.outbox[at].client, s.clients.outbox[at].cmd));
    case HangUp(client) =>
      PushManagerFlow(keep, s.(clients := s.clients.(open := s.clients.open - {client})), RemoveAllSubscriptions(client));
    case _ =>
  }
}
