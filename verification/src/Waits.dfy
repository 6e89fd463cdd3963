/** What a client hears that has subscribed with its only command: every event it waits for that
    is dispatched after its subscription, once each, and nothing else. */
module Waits {
  import opened Sequences
  import opened Protocol
  import opened Subscriptions
  import opened System
  import opened Hearing
  import opened Provenance
  import opened Acknowledgement
  import opened Sessions
  import Answers
  import Replies
  import Routing
  import Runs

  // ---------- Types of events ----------

  /** An event is of exactly one type, the one that is named after it. */
  lemma EventTypeMeans(event: ServerEvent, eventType: ServerEventType)
    ensures EventType(event) == eventType <==> OfType(event, eventType)
  {
  }

  predicate OfType(event: ServerEvent, eventType: ServerEventType) {
    match eventType
    case TServerStarting => event.ServerStarting?
    case TServerStarted => event.ServerStarted?
    case TServerStopping => event.ServerStopping?
    case TServerStopped => event.ServerStopped?
    case TServerFailed => event.ServerFailed?
    case TActionProgress => event.ActionProgress?
    case TInstallationComplete => event.InstallationComplete?
    case TInstallationFailed => event.InstallationFailed?
    case TUpdateComplete => event.UpdateComplete?
    case TUpdateFailed => event.UpdateFailed?
  }

  /** The event is one that the client of the command is to hear. */
  predicate Awaited(cmd: DaemonCmd, response: DaemonResponse, event: ServerEvent) {
    match cmd
    case Start(id, wait) => wait && response == Ok && event in [ServerStarting(id), ServerStarted(id)]
    case Stop(id, wait) => wait && response == Ok && event in [ServerStopping(id), ServerStopped(id)]
    case SubscribeEvent(eventType, ids) => ids.Some? && event.serverId in ids.value && OfType(event, eventType)
    case InstallServer(request) =>
      event.serverId == request.unitId && (event.ActionProgress? || event.InstallationComplete? || event.InstallationFailed?)
    case UpdateServer(id, _) =>
      response == Ok && event.serverId == id && (event.ActionProgress? || event.UpdateComplete? || event.UpdateFailed?)
    case _ => false
  }

  /** A command subscribes to the key of an event exactly if its client is to hear it. */
  lemma AwaitedIsSubscribed(cmd: DaemonCmd, response: DaemonResponse, event: ServerEvent)
    ensures Awaited(cmd, response, event) <==> Subscribing(cmd, response, KeyOf(event))
  {
    if cmd.SubscribeEvent? {
      EventTypeMeans(event, cmd.eventType);
    }
  }

  // ---------- What is heard ----------

  /** `c` had subscribed to the event before message `i`. */
  ghost predicate SubscribedBefore(hist: seq<ManagerCmd>, i: nat, c: ClientId, event: ServerEvent) {
    exists j: nat :: j < i && j < |hist| && hist[j] == AddSubscription(event.serverId, EventType(event), c)
  }

  /** Message `i` dispatches something that the client of the command is to hear by then. */
  ghost predicate DueAt(hist: seq<ManagerCmd>, i: nat, c: ClientId, cmd: DaemonCmd, response: DaemonResponse) {
    && i < |hist| && hist[i].DispatchEvent?
    && Awaited(cmd, response, hist[i].event) && SubscribedBefore(hist, i, c, hist[i].event)
  }

  /** `events` are those of the messages `at`, and these are exactly the ones that are due. */
  ghost predicate HearsDue(
    hist: seq<ManagerCmd>, c: ClientId, cmd: DaemonCmd, response: DaemonResponse, events: seq<ServerEvent>, at: seq<nat>)
  {
    && Increasing(at) && |events| == |at|
    && (forall k :: 0 <= k < |at| ==> DueAt(hist, at[k], c, cmd, response) && hist[at[k]].event == events[k])
    && forall i: nat :: DueAt(hist, i, c, cmd, response) ==> i in at
  }

  /** What is heard, by the messages that contribute to it. */
  ghost predicate HeardThrough(hist: seq<ManagerCmd>, c: ClientId, events: seq<ServerEvent>, at: seq<nat>) {
    && Increasing(at) && |events| == |at|
    && (forall k :: 0 <= k < |at| ==> at[k] < |hist| && Contributes(hist, at[k], c) && hist[at[k]].event == events[k])
    && NothingElse(hist, at, c)
  }

  lemma {:induction false} ThroughFront(hist: seq<ManagerCmd>, c: ClientId, events: seq<ServerEvent>, at: seq<nat>)
    requires hist != [] && HeardThrough(hist[..|hist| - 1], c, events, at)
    ensures forall k :: 0 <= k < |at| ==> at[k] < |hist| - 1 && Contributes(hist, at[k], c) && hist[at[k]].event == events[k]
    ensures forall i: nat {:trigger Contributes(hist, i, c)} :: i < |hist| - 1 && Contributes(hist, i, c) ==> i in at
  {
    var n := |hist| - 1;
    forall k | 0 <= k < |at| ensures Contributes(hist, at[k], c) {
      PrefixContributes(hist, n, at[k], c);
    }
    forall i: nat | i < n && Contributes(hist, i, c) ensures i in at {
      PrefixContributes(hist, n, i, c);
    }
  }

  lemma {:induction false} ThroughMore(hist: seq<ManagerCmd>, c: ClientId, events: seq<ServerEvent>, at: seq<nat>)
    requires hist != [] && HeardThrough(hist[..|hist| - 1], c, events, at)
    ensures var n := |hist| - 1;
            if Contributes(hist, n, c) then HeardThrough(hist, c, events + [hist[n].event], at + [n])
            else HeardThrough(hist, c, events, at)
  {
    var n := |hist| - 1;
    ThroughFront(hist, c, events, at);
    forall i: nat | i < |hist| && Contributes(hist, i, c) ensures i in at + [n] && (i < n ==> i in at) {
      if i == n {
        assert (at + [n])[|at|] == n;
      }
    }
  }

  lemma {:induction false} HeardPositions(hist: seq<ManagerCmd>, c: ClientId) returns (at: seq<nat>)
    ensures HeardThrough(hist, c, Heard(hist, c), at)
    decreases |hist|
  {
    at := [];
    if hist != [] {
      var n := |hist| - 1;
      var front := hist[..n];
      at := HeardPositions(front, c);
      ThroughMore(hist, c, Heard(front, c), at);
      AppendNothing(Heard(front, c));
      if Contributes(hist, n, c) {
        at := at + [n];
      }
    }
  }

  lemma AddedBefore(hist: seq<ManagerCmd>, i: nat, c: ClientId, event: ServerEvent)
    requires i <= |hist|
    ensures KeyOf(event) in KeysAdded(hist[..i], c) <==> SubscribedBefore(hist, i, c, event)
  {
    KeyIsAdded(hist[..i], c, KeyOf(event));
    var add := AddSubscription(event.serverId, EventType(event), c);
    if add in hist[..i] {
      var j: nat :| j < i && hist[..i][j] == add;
      assert hist[j] == add;
    }
    if SubscribedBefore(hist, i, c, event) {
      var j: nat :| j < i && hist[j] == add;
      assert hist[..i][j] == add;
    }
  }

  lemma {:induction false} KeyOfAction(actions: seq<HandlerAction>, key: Key)
    ensures key in KeysOf(actions) <==> Subscribe(key.0, key.1) in actions
  {
    if actions != [] {
      KeyOfAction(actions[1..], key);
      assert forall a :: a in actions <==> a == actions[0] || a in actions[1..];
    }
  }

  lemma {:induction false} KeysOnce(actions: seq<HandlerAction>)
    requires forall i, j :: 0 <= i < j < |actions| ==> actions[i] != actions[j]
    ensures var keys := KeysOf(actions); forall i, j :: 0 <= i < j < |keys| ==> keys[i] != keys[j]
  {
    if actions != [] {
      KeysOnce(actions[1..]);
      if actions[0].Subscribe? {
        var key := (actions[0].unit, actions[0].eventType);
        KeyOfAction(actions[1..], key);
        assert actions[0] !in actions[1..];
      }
    }
  }

  /** The keys of a handled command are those its client is to be subscribed to. */
  lemma HandledKeys(h: Handler, key: Key)
    requires Answers.Proper(h)
    ensures key in KeysOf(h.actions) <==> Subscribing(h.cmd, h.response, key)
  {
    var choice :| Answers.ProperFor(h, choice);
    DoesExactly(h.seen, h.cmd, choice, Subscribe(key.0, key.1));
    KeyOfAction(h.actions, key);
  }

  lemma HandledKeysOnce(h: Handler)
    requires Answers.Proper(h) && NamesOnce(h.cmd)
    ensures var keys := KeysOf(h.actions); forall i, j :: 0 <= i < j < |keys| ==> keys[i] != keys[j]
  {
    var choice :| Answers.ProperFor(h, choice);
    ProgramMeans(h.seen, h.cmd, choice);
    KeysOnce(h.actions);
  }

  /** A message contributes exactly if it is due. */
  lemma ContributesIsDue(hist: seq<ManagerCmd>, i: nat, h: Handler)
    requires i < |hist| && Routing.RoutedHistory(hist) && Answers.Proper(h) && KeysAdded(hist, h.client) == KeysOf(h.actions)
    ensures Contributes(hist, i, h.client) <==> DueAt(hist, i, h.client, h.cmd, h.response)
  {
    assert Routing.RoutedCmd(hist[i]);
    if hist[i].DispatchEvent? {
      var event := hist[i].event;
      AddedBefore(hist, i, h.client, event);
      AwaitedIsSubscribed(h.cmd, h.response, event);
      HandledKeys(h, KeyOf(event));
      KeysGrow(hist, i, h.client);
    }
  }

  lemma ThroughIsDue(hist: seq<ManagerCmd>, h: Handler, events: seq<ServerEvent>, at: seq<nat>)
    requires Routing.RoutedHistory(hist) && Answers.Proper(h) && KeysAdded(hist, h.client) == KeysOf(h.actions)
    requires HeardThrough(hist, h.client, events, at)
    ensures HearsDue(hist, h.client, h.cmd, h.response, events, at)
  {
    forall k | 0 <= k < |at| ensures DueAt(hist, at[k], h.client, h.cmd, h.response) {
      ContributesIsDue(hist, at[k], h);
    }
    forall i: nat | DueAt(hist, i, h.client, h.cmd, h.response) ensures i in at {
      ContributesIsDue(hist, i, h);
    }
  }

  lemma ReachableHistory(keep: Keep, s: State)
    requires Runs.Reachable(keep, s)
    ensures Routing.RoutedHistory(s.manager.hist)
  {
    Runs.ReachableInv(keep, s);
  }

  /** A client whose only command subscribes, once the daemon is idle and as long as no removal
      took its subscriptions away: it has been subscribed to exactly what it is to hear, and the
      events in its stream are exactly those it is to hear that were dispatched after that, in
      order and once each. */
  lemma WaiterHears(keep: Keep, s: State, c: ClientId, cmd: DaemonCmd) returns (h: Handler, at: seq<nat>)
    requires Runs.Reachable(keep, s) && Idle(s)
    requires c in s.clients.streams && c !in s.clients.dead && Replies.SentBy(s, c) == [cmd] && NamesOnce(cmd)
    requires Undisturbed(keep, s.manager.hist, c)
    ensures OnlyCommandOf(s, c, h) && h.cmd == cmd
    ensures Replies.Direct(s.clients.streams[c]) == [SetSender, DaemonVersion, h.response]
    ensures forall key: Key :: AddSubscription(key.0, key.1, c) in s.manager.hist <==> Subscribing(cmd, h.response, key)
    ensures HearsDue(s.manager.hist, c, cmd, h.response, Replies.Noticed(s.clients.streams[c]), at)
  {
    h := OnlyCommand(keep, s, c, cmd);
    HandledKeysOnce(h);
    var hist, n := s.manager.hist, |s.manager.hist|;
    assert hist[..n] == hist;
    var more := ReachableHeard(keep, s, c, n);
    if more != [] {
      NothingLater(hist, c, more);
    }
    AppendNothing(Heard(hist, c));
    at := HeardPositions(hist, c);
    ReachableHistory(keep, s);
    ThroughIsDue(hist, h, Heard(hist, c), at);
    forall key: Key ensures AddSubscription(key.0, key.1, c) in hist <==> Subscribing(cmd, h.response, key) {
      KeyIsAdded(hist, c, key);
      HandledKeys(h, key);
    }
  }

  lemma NothingLater(hist: seq<ManagerCmd>, c: ClientId, more: seq<ServerEvent>)
    requires more != []
    ensures !HeardSince(hist, |hist|, c, more)
  {
    assert more[0] in more;
  }
}
