/** The event manager's thread: the loop over its queue and the map of lists it changes. */
module EventManagers {
  import opened Sequences
  import opened Protocol
  import opened Subscriptions
  import opened Channels

  function Sent(d: Delivery): seq<DaemonEvent> {
    [SendEvent(d.client, d.event)]
  }

  /** The deliveries as they are put on the daemon's queue. */
  function SendAll(deliveries: seq<Delivery>): seq<DaemonEvent> {
    Collect(deliveries, Sent)
  }

  lemma {:induction false} FanoutSnoc(ids: seq<ClientId>, id: ClientId, event: ServerEvent)
    ensures Fanout(ids + [id], event) == Fanout(ids, event) + [Delivery(id, event)]
  {
    if ids == [] {
      assert [id][1..] == [] && ids + [id] == [id];
    } else {
      FanoutSnoc(ids[1..], id, event);
      assert (ids + [id])[1..] == ids[1..] + [id];
    }
  }

  /** One more command adds what it emits. */
  lemma RunsOn(subs: Subs, cmds: seq<ManagerCmd>, cmd: ManagerCmd, before: seq<DaemonEvent>)
    ensures SubsAfter(KeepAsWritten, subs, cmds + [cmd]) == NextSubs(KeepAsWritten, SubsAfter(KeepAsWritten, subs, cmds), cmd)
    ensures before + SendAll(Replay(KeepAsWritten, subs, cmds + [cmd]))
         == before + SendAll(Replay(KeepAsWritten, subs, cmds)) + SendAll(Emitted(SubsAfter(KeepAsWritten, subs, cmds), cmd))
  {
    var past, more := Replay(KeepAsWritten, subs, cmds), Emitted(SubsAfter(KeepAsWritten, subs, cmds), cmd);
    ReplaySnoc(KeepAsWritten, subs, cmds, cmd);
    CollectAppend(past, more, Sent);
    Associative(before, SendAll(past), SendAll(more));
  }

  class EventManager {
    var subscriptions: Subs
    const daemonSender: Channel<DaemonEvent>

    constructor (daemonSender: Channel<DaemonEvent>)
      ensures subscriptions == map[] && this.daemonSender == daemonSender
    {
      this.subscriptions := map[];
      this.daemonSender := daemonSender;
    }

    /** One message to the daemon thread for each entry of the list, in its order. */
    method Dispatch(serverId: UnitId, event: ServerEvent)
      modifies daemonSender
      ensures daemonSender.items == old(daemonSender.items) + SendAll(Fanout(Listeners(subscriptions, (serverId, EventType(event))), event))
    {
      var key := (serverId, EventType(event));
      if key in subscriptions {
        var clients := subscriptions[key];
        var i := 0;
        while i < |clients|
          invariant i <= |clients|
          invariant daemonSender.items == old(daemonSender.items) + SendAll(Fanout(clients[..i], event))
        {
          daemonSender.Send(SendEvent(clients[i], event));
          FanoutSnoc(clients[..i], clients[i], event);
          CollectSnoc(Fanout(clients[..i], event), Delivery(clients[i], event), Sent);
          assert clients[..i + 1] == clients[..i] + [clients[i]];
          i := i + 1;
        }
        assert clients[..i] == clients;
      }
    }

    /** The lists are visited in no particular order, each one once. */
    method RemoveAll(client: ClientId)
      modifies `subscriptions
      ensures subscriptions == NextSubs(KeepAsWritten, old(subscriptions), RemoveAllSubscriptions(client))
    {
      var pending := subscriptions.Keys;
      while pending != {}
        invariant pending <= subscriptions.Keys == old(subscriptions).Keys
        invariant forall key :: key in pending ==> subscriptions[key] == old(subscriptions)[key]
        invariant forall key :: key in subscriptions && key !in pending ==>
          subscriptions[key] == Retain(KeepAsWritten, client, old(subscriptions)[key])
      {
        var key :| key in pending;
        subscriptions := subscriptions[key := Retain(KeepAsWritten, client, subscriptions[key])];
        pending := pending - {key};
      }
    }

    method Handle(cmd: ManagerCmd)
      modifies `subscriptions, daemonSender
      ensures subscriptions == NextSubs(KeepAsWritten, old(subscriptions), cmd)
      ensures daemonSender.items == old(daemonSender.items) + SendAll(Emitted(old(subscriptions), cmd))
    {
      match cmd
      case DispatchEvent(serverId, event) => Dispatch(serverId, event);
      case AddSubscription(serverId, eventType, client) =>
        var key := (serverId, eventType);
        if key !in subscriptions {
          subscriptions := subscriptions[key := []];
        }
        subscriptions := subscriptions[key := subscriptions[key] + [client]];
      case RemoveSubscription(serverId, eventType, client) =>
        var key := (serverId, eventType);
        if key in subscriptions {
          subscriptions := subscriptions[key := Retain(KeepAsWritten, client, subscriptions[key])];
        }
      case RemoveAllSubscriptions(client) => RemoveAll(client);
    }

    /** The receive loop, over all that arrives. The manager sends what the history of its
        commands calls for: started afresh, each dispatched event goes once to the client of
        every subscription live at that moment, oldest first. */
    method Run(queue: seq<ManagerCmd>)
      modifies `subscriptions, daemonSender
      ensures subscriptions == SubsAfter(KeepAsWritten, old(subscriptions), queue)
      ensures daemonSender.items == old(daemonSender.items) + SendAll(Replay(KeepAsWritten, old(subscriptions), queue))
      ensures old(subscriptions) == map[] ==>
        && daemonSender.items == old(daemonSender.items) + SendAll(Ideal(KeepAsWritten, queue))
        && forall key :: Listeners(subscriptions, key) == LiveOwners(KeepAsWritten, queue, key, |queue|)
    {
      ghost var subs := subscriptions;
      var i := 0;
      while i < |queue|
        invariant i <= |queue|
        invariant subscriptions == SubsAfter(KeepAsWritten, subs, queue[..i])
        invariant daemonSender.items == old(daemonSender.items) + SendAll(Replay(KeepAsWritten, subs, queue[..i]))
      {
        SplitAt(queue, i);
        RunsOn(subs, queue[..i], queue[i], old(daemonSender.items));
        Handle(queue[i]);
        i := i + 1;
      }
      assert queue[..i] == queue;
      if subs == map[] {
        ReplayIsIdeal(KeepAsWritten, queue);
        forall key ensures Listeners(subscriptions, key) == LiveOwners(KeepAsWritten, queue, key, |queue|) {
          ListenersAreLive(KeepAsWritten, queue, key);
        }
      }
    }
  }
}
