/** Commands are answered one by one, in the order each client sent them, and a client that
    keeps listening receives every answer and every event meant for it. */
module Replies {
  import opened Sequences
  import opened Protocol
  import opened Subscriptions
  import opened System
  import opened Lookups

  // ---------- What belongs to one client ----------

  function CommandHandled(c: ClientId): Handler -> seq<DaemonCmd> {
    (h: Handler) => if h.client == c then [h.cmd] else []
  }

  function ResponseHandled(c: ClientId): Handler -> seq<DaemonResponse> {
    (h: Handler) => if h.client == c then [h.response] else []
  }

  function CommandArrived(c: ClientId): DaemonEvent -> seq<DaemonCmd> {
    (e: DaemonEvent) => if e.IncomingCmd? && e.id == c then [e.cmd] else []
  }

  function CommandPending(c: ClientId): Request -> seq<DaemonCmd> {
    (r: Request) => if r.client == c then [r.cmd] else []
  }

  function EventDelivered(c: ClientId): Delivery -> seq<ServerEvent> {
    (d: Delivery) => if d.client == c then [d.event] else []
  }

  function ReplyIn(r: DaemonResponse): seq<DaemonResponse> {
    if r.Notice? || r.DaemonStopped? then [] else [r]
  }

  function EventIn(r: DaemonResponse): seq<ServerEvent> {
    if r.Notice? then [r.event] else []
  }

  /** The handshake and the direct responses of a stream. */
  function Direct(stream: seq<DaemonResponse>): seq<DaemonResponse> {
    Collect(stream, ReplyIn)
  }

  /** The server events of a stream. */
  function Noticed(stream: seq<DaemonResponse>): seq<ServerEvent> {
    Collect(stream, EventIn)
  }

  function Current(handler: Option<Handler>, c: ClientId): seq<DaemonCmd> {
    if handler.Some? && handler.value.client == c then [handler.value.cmd] else []
  }

  function SentBy(s: State, c: ClientId): seq<DaemonCmd> {
    if c in s.clients.sent then s.clients.sent[c] else []
  }

  const HANDSHAKE: seq<DaemonResponse> := [SetSender, DaemonVersion]

  /** Commands of `c`: answered, being handled, arrived, on their way; in that order. */
  function Ledger(handled: seq<Handler>, handler: Option<Handler>, dq: seq<DaemonEvent>, outbox: seq<Request>, c: ClientId)
    : seq<DaemonCmd>
  {
    Collect(handled, CommandHandled(c)) + Current(handler, c)
    + Collect(dq, CommandArrived(c)) + Collect(outbox, CommandPending(c))
  }

  ghost predicate InOrder(s: State, c: ClientId) {
    Ledger(s.daemon.handled, s.daemon.handler, s.daemon.dq, s.clients.outbox, c) == SentBy(s, c)
  }

  /** `stream` holds all that is `due`, or its beginning if the client stopped listening. */
  ghost predicate Received<A>(stream: seq<A>, due: seq<A>, dead: bool) {
    stream <= due && (!dead ==> stream == due)
  }

  /** Apart from events the stream holds the responses, and otherwise the events. */
  ghost predicate Holds(stream: seq<DaemonResponse>, responses: seq<DaemonResponse>, events: seq<ServerEvent>, dead: bool) {
    && Received(Direct(stream), HANDSHAKE + responses, dead)
    && Received(Noticed(stream), events, dead)
  }

  ghost predicate Paired(s: State, c: ClientId) {
    c in s.clients.streams ==>
      Holds(s.clients.streams[c], Collect(s.daemon.handled, ResponseHandled(c)), Collect(s.daemon.delivered, EventDelivered(c)),
            c in s.clients.dead)
  }

  lemma HandledIsSent(s: State, c: ClientId)
    requires InOrder(s, c)
    ensures Collect(s.daemon.handled, CommandHandled(c)) <= SentBy(s, c)
  {
  }

  /** The k-th direct response after the handshake is the k-th response. */
  lemma DirectAt(stream: seq<DaemonResponse>, responses: seq<DaemonResponse>, events: seq<ServerEvent>, dead: bool, k: nat)
    requires Holds(stream, responses, events, dead) && |HANDSHAKE| + k < |Direct(stream)|
    ensures k < |responses| && Direct(stream)[|HANDSHAKE| + k] == responses[k]
  {
  }

  lemma DirectGrows(stream: seq<DaemonResponse>, i: nat)
    requires i <= |stream|
    ensures |Direct(stream[..i])| <= |Direct(stream)|
  {
    assert stream == stream[..i] + stream[i..];
    CollectAppend(stream[..i], stream[i..], ReplyIn);
  }

  // ---------- Commands stay in order ----------

  lemma PushDaemonOrder(s: State, e: DaemonEvent, c: ClientId)
    ensures Collect(PushDaemon(s, e).daemon.dq, CommandArrived(c)) == Collect(s.daemon.dq, CommandArrived(c)) + CommandArrived(c)(e)
  {
    CollectSnoc(s.daemon.dq, e, CommandArrived(c));
  }

  lemma PushOtherOrder(s: State, e: DaemonEvent, c: ClientId)
    requires InOrder(s, c) && !e.IncomingCmd?
    ensures InOrder(PushDaemon(s, e), c)
  {
    PushDaemonOrder(s, e, c);
    assert Collect(s.daemon.dq, CommandArrived(c)) + [] == Collect(s.daemon.dq, CommandArrived(c));
  }

  lemma Regroup<A>(a: seq<A>, b: seq<A>, c: seq<A>, x: seq<A>, d: seq<A>)
    ensures a + b + (c + x) + d == a + b + c + (x + d)
    ensures a + b + c + (d + x) == a + b + c + d + x
    ensures (a + b) + [] + c + d == a + b + c + d
    ensures a + [] + (b + c) + d == a + b + c + d
  {
  }

  lemma SwapEmpty<A>(a: seq<A>, x: seq<A>, b: seq<A>)
    requires a == [] || x == []
    ensures a + x + b == x + (a + b)
  {
  }

  lemma {:induction false} OutboxWithout(outbox: seq<Request>, at: nat, c: ClientId)
    requires at < |outbox| && FirstOfClient(outbox, at)
    ensures Collect(outbox, CommandPending(c))
         == CommandPending(c)(outbox[at]) + Collect(outbox[..at] + outbox[at + 1..], CommandPending(c))
  {
    var f := CommandPending(c);
    CollectWithout(outbox, at, f);
    if outbox[at].client == c {
      CollectNothing(outbox[..at], f);
      SwapEmpty(Collect(outbox[..at], f), f(outbox[at]), Collect(outbox[at + 1..], f));
    } else {
      SwapEmpty(Collect(outbox[..at], f), f(outbox[at]), Collect(outbox[at + 1..], f));
    }
  }

  lemma ForwardOrder(s: State, at: nat, c: ClientId)
    requires InOrder(s, c) && at < |s.clients.outbox| && FirstOfClient(s.clients.outbox, at)
    ensures InOrder(DoForward(s, at), c)
  {
    var r := s.clients.outbox[at];
    PushDaemonOrder(s, IncomingCmd(r.client, r.cmd), c);
    OutboxWithout(s.clients.outbox, at, c);
    Regroup(Collect(s.daemon.handled, CommandHandled(c)), Current(s.daemon.handler, c), Collect(s.daemon.dq, CommandArrived(c)),
            CommandPending(c)(r), Collect(s.clients.outbox[..at] + s.clients.outbox[at + 1..], CommandPending(c)));
  }

  lemma SendsOrder(s: State, client: ClientId, cmd: DaemonCmd, c: ClientId)
    requires InOrder(s, c)
    ensures InOrder(DoClientSends(s, client, cmd), c)
  {
    CollectSnoc(s.clients.outbox, Request(client, cmd), CommandPending(c));
    Regroup(Collect(s.daemon.handled, CommandHandled(c)), Current(s.daemon.handler, c), Collect(s.daemon.dq, CommandArrived(c)),
            CommandPending(c)(Request(client, cmd)), Collect(s.clients.outbox, CommandPending(c)));
  }

  lemma PoppedOrder(s: State, handler: Option<Handler>, c: ClientId)
    requires InOrder(s, c) && s.daemon.dq != [] && s.daemon.handler.None?
    requires Current(handler, c) == CommandArrived(c)(s.daemon.dq[0])
    ensures InOrder(WithHandler(Popped(s), handler), c)
  {
    Regroup(Collect(s.daemon.handled, CommandHandled(c)), CommandArrived(c)(s.daemon.dq[0]), Collect(s.daemon.dq[1..], CommandArrived(c)),
            [], Collect(s.clients.outbox, CommandPending(c)));
  }

  lemma ReplyOrder(s: State, h: Handler, c: ClientId)
    requires InOrder(s, c) && s.daemon.handler == Some(h)
    ensures InOrder(Closed(s, h), c)
  {
    CollectSnoc(s.daemon.handled, h, CommandHandled(c));
    Regroup(Collect(s.daemon.handled, CommandHandled(c)), CommandHandled(c)(h), Collect(s.daemon.dq, CommandArrived(c)),
            Collect(s.clients.outbox, CommandPending(c)), Collect(s.clients.outbox, CommandPending(c)));
  }

  /** Only these fields matter to the order of commands. */
  ghost predicate SameCommands(s: State, s': State) {
    && s'.daemon.handled == s.daemon.handled && s'.daemon.dq == s.daemon.dq
    && s'.clients.outbox == s.clients.outbox && s'.clients.sent == s.clients.sent
    && (s'.daemon.handler == s.daemon.handler
        || (s.daemon.handler.Some? && s'.daemon.handler.Some?
            && s'.daemon.handler.value.client == s.daemon.handler.value.client
            && s'.daemon.handler.value.cmd == s.daemon.handler.value.cmd))
  }

  lemma SameOrder(s: State, s': State, c: ClientId)
    requires InOrder(s, c) && SameCommands(s, s')
    ensures InOrder(s', c)
  {
  }

  lemma {:induction false} TakeCommandOrder(s: State, choice: Choice, c: ClientId)
    requires InOrder(s, c) && s.daemon.dq != [] && s.daemon.handler.None? && s.daemon.dq[0].IncomingCmd?
    ensures InOrder(DoTake(s, choice), c)
  {
    PoppedOrder(s, Some(Begin(s, s.daemon.dq[0].id, s.daemon.dq[0].cmd, choice)), c);
  }

  lemma TakeOtherSame(s: State, choice: Choice)
    requires s.daemon.dq != [] && s.daemon.handler.None?
    requires !s.daemon.dq[0].IncomingCmd? && !s.daemon.dq[0].StopRequested?
    ensures SameCommands(WithHandler(Popped(s), None), DoTake(s, choice))
  {
  }

  lemma {:induction false} TakeOtherOrder(s: State, choice: Choice, c: ClientId)
    requires InOrder(s, c) && s.daemon.dq != [] && s.daemon.handler.None?
    requires !s.daemon.dq[0].IncomingCmd? && !s.daemon.dq[0].StopRequested?
    ensures InOrder(DoTake(s, choice), c)
  {
    PoppedOrder(s, None, c);
    TakeOtherSame(s, choice);
    SameOrder(WithHandler(Popped(s), None), DoTake(s, choice), c);
  }

  lemma TakeStopOrder(s: State, choice: Choice, c: ClientId)
    requires InOrder(s, c) && s.daemon.dq != [] && s.daemon.handler.None? && s.daemon.dq[0].StopRequested?
    ensures InOrder(DoTake(s, choice), c)
  {
    PoppedOrder(s, None, c);
    SameOrder(WithHandler(Popped(s), None), Popped(s), c);
    PushOtherOrder(Popped(s), SendStopped, c);
  }

  lemma TakeOrder(s: State, choice: Choice, c: ClientId)
    requires InOrder(s, c) && s.daemon.dq != [] && s.daemon.handler.None?
    ensures InOrder(DoTake(s, choice), c)
  {
    match s.daemon.dq[0]
    case IncomingCmd(_, _) => TakeCommandOrder(s, choice, c);
    case StopRequested => TakeStopOrder(s, choice, c);
    case _ => TakeOtherOrder(s, choice, c);
  }

  lemma ActSame(s: State, h: Handler)
    requires s.daemon.handler == Some(h) && h.pc < |h.actions| && !h.actions[h.pc].RequestStop?
    ensures SameCommands(s, DoWork(s))
  {
  }

  lemma {:induction false} ActOrder(s: State, h: Handler, c: ClientId)
    requires InOrder(s, c) && s.daemon.handler == Some(h) && h.pc < |h.actions| && !h.actions[h.pc].RequestStop?
    ensures InOrder(DoWork(s), c)
  {
    ActSame(s, h);
    SameOrder(s, DoWork(s), c);
  }

  lemma ActStopOrder(s: State, h: Handler, c: ClientId)
    requires InOrder(s, c) && s.daemon.handler == Some(h) && h.pc < |h.actions| && h.actions[h.pc].RequestStop?
    ensures InOrder(DoWork(s), c)
  {
    var s' := WithHandler(s, Some(h.(pc := h.pc + 1)));
    SameOrder(s, s', c);
    PushOtherOrder(s', StopRequested, c);
  }

  lemma AnswerOrder(s: State, h: Handler, c: ClientId)
    requires InOrder(s, c) && s.daemon.handler == Some(h) && h.pc >= |h.actions|
    ensures InOrder(DoWork(s), c)
  {
    ReplyOrder(s, h, c);
    SameOrder(Closed(s, h), DoWork(s), c);
  }

  lemma WorkOrder(s: State, c: ClientId)
    requires InOrder(s, c) && s.daemon.handler.Some?
    ensures InOrder(DoWork(s), c)
  {
    var h := s.daemon.handler.value;
    if h.pc < |h.actions| {
      if h.actions[h.pc].RequestStop? {
        ActStopOrder(s, h, c);
      } else {
        ActOrder(s, h, c);
      }
    } else {
      AnswerOrder(s, h, c);
    }
  }

  lemma RunOrder(s: State, t: nat, c: ClientId)
    requires InOrder(s, c) && t < |s.threads| && s.threads[t].pc < |s.threads[t].actions|
    ensures InOrder(DoRun(s, t), c)
  {
    var action := s.threads[t].actions[s.threads[t].pc];
    if action.Register? {
      PushOtherOrder(s, AddServerUnit(action.config), c);
    }
  }

  lemma OrderStep(keep: Keep, s: State, step: Step, c: ClientId)
    requires Known(s) && InOrder(s, c) && Enabled(s, step)
    ensures InOrder(Apply(keep, s, step), c)
  {
    match step
    case Accept =>
    case ClientSends(client, cmd) => SendsOrder(s, client, cmd, c);
    case Forward(at) => ForwardOrder(s, at, c);
    case Take(choice) => TakeOrder(s, choice, c);
    case Work => WorkOrder(s, c);
    case EmitNext =>
      PushOtherOrder(s.(manager := s.manager.(sending := s.manager.sending[1..])),
                     SendEvent(s.manager.sending[0].client, s.manager.sending[0].event), c);
    case RunThread(t) => RunOrder(s, t, c);
    case _ =>
  }

  // ---------- Answers reach the client ----------

  lemma DirectSnoc(stream: seq<DaemonResponse>, r: DaemonResponse)
    ensures Direct(stream + [r]) == Direct(stream) + ReplyIn(r)
    ensures Noticed(stream + [r]) == Noticed(stream) + EventIn(r)
  {
    CollectSnoc(stream, r, ReplyIn);
    CollectSnoc(stream, r, EventIn);
  }

  /** Only the streams, the dead, the answers and the deliveries matter to pairing. */
  ghost predicate SameReceipts(s: State, s': State) {
    && s'.clients.streams == s.clients.streams && s'.clients.dead == s.clients.dead
    && s'.daemon.handled == s.daemon.handled && s'.daemon.delivered == s.daemon.delivered
  }

  lemma AcceptPaired(s: State, c: ClientId)
    requires Known(s) && Paired(s, c) && s.clients.accepted < CLIENT_IDS
    ensures Paired(DoAccept(s), c)
  {
    if c == s.clients.accepted {
      CollectNothing(s.daemon.handled, ResponseHandled(c));
      CollectNothing(s.daemon.delivered, EventDelivered(c));
      assert [SetSender, DaemonVersion] == [] + [SetSender] + [DaemonVersion];
      DirectSnoc([], SetSender);
      DirectSnoc([] + [SetSender], DaemonVersion);
      assert HANDSHAKE + [] == HANDSHAKE == [SetSender] + [DaemonVersion];
    }
  }

  lemma HoldsReply(stream: seq<DaemonResponse>, responses: seq<DaemonResponse>, events: seq<ServerEvent>, r: DaemonResponse)
    requires Holds(stream, responses, events, false) && !r.Notice? && !r.DaemonStopped?
    ensures Holds(stream + [r], responses + [r], events, false)
  {
    DirectSnoc(stream, r);
    Associative(HANDSHAKE, responses, [r]);
    AppendNothing(Noticed(stream));
  }

  lemma HoldsFewer(
    stream: seq<DaemonResponse>, responses: seq<DaemonResponse>, events: seq<ServerEvent>, dead: bool, more: seq<DaemonResponse>)
    requires Holds(stream, responses, events, dead) && (!dead ==> more == [])
    ensures Holds(stream, responses + more, events, dead)
  {
    AppendNothing(responses);
    Associative(HANDSHAKE, responses, more);
  }

  /** A direct response, with its command entered as answered. */
  lemma ReplyChanges(s: State, h: Handler, c: ClientId)
    requires c in s.clients.streams && h.client in s.clients.streams
    ensures var s', stream := SendTo(Closed(s, h), h.client, h.response), s.clients.streams[c];
            && s'.daemon.handled == s.daemon.handled + [h] && s'.daemon.delivered == s.daemon.delivered
            && s'.clients.dead == s.clients.dead && c in s'.clients.streams
            && s'.clients.streams[c] == if c == h.client && c !in s.clients.dead then stream + [h.response] else stream
  {
  }

  lemma {:induction false} ReplyPaired(s: State, h: Handler, c: ClientId)
    requires Known(s) && Paired(s, c) && h.client in s.clients.streams
    requires !h.response.Notice? && !h.response.DaemonStopped?
    ensures Paired(SendTo(Closed(s, h), h.client, h.response), c)
  {
    CollectSnoc(s.daemon.handled, h, ResponseHandled(c));
    if c in s.clients.streams {
      ReplyChanges(s, h, c);
      var stream, dead := s.clients.streams[c], c in s.clients.dead;
      var responses, events := Collect(s.daemon.handled, ResponseHandled(c)), Collect(s.daemon.delivered, EventDelivered(c));
      if c == h.client && !dead {
        HoldsReply(stream, responses, events, h.response);
      } else {
        HoldsFewer(stream, responses, events, dead, ResponseHandled(c)(h));
      }
    }
  }

  lemma HoldsEvent(stream: seq<DaemonResponse>, responses: seq<DaemonResponse>, events: seq<ServerEvent>, event: ServerEvent)
    requires Holds(stream, responses, events, false)
    ensures Holds(stream + [Notice(event)], responses, events + [event], false)
  {
    DirectSnoc(stream, Notice(event));
    AppendNothing(Direct(stream));
  }

  lemma HoldsLess(stream: seq<DaemonResponse>, responses: seq<DaemonResponse>, events: seq<ServerEvent>, dead: bool, more: seq<ServerEvent>)
    requires Holds(stream, responses, events, dead) && (!dead ==> more == [])
    ensures Holds(stream, responses, events + more, dead)
  {
    AppendNothing(events);
  }

  lemma DeliverChanges(s: State, d: Delivery, c: ClientId)
    requires c in s.clients.streams && d.client in s.clients.streams
    ensures var s', stream := SendTo(Noted(s, d), d.client, Notice(d.event)), s.clients.streams[c];
            && s'.daemon.handled == s.daemon.handled && s'.daemon.delivered == s.daemon.delivered + [d]
            && s'.clients.dead == s.clients.dead && c in s'.clients.streams
            && s'.clients.streams[c] == if c == d.client && c !in s.clients.dead then stream + [Notice(d.event)] else stream
  {
  }

  lemma {:induction false} DeliverPaired(s: State, d: Delivery, c: ClientId)
    requires Known(s) && Paired(s, c) && d.client in s.clients.streams
    ensures Paired(SendTo(Noted(s, d), d.client, Notice(d.event)), c)
  {
    CollectSnoc(s.daemon.delivered, d, EventDelivered(c));
    if c in s.clients.streams {
      DeliverChanges(s, d, c);
      var stream, dead := s.clients.streams[c], c in s.clients.dead;
      var responses, events := Collect(s.daemon.handled, ResponseHandled(c)), Collect(s.daemon.delivered, EventDelivered(c));
      if c == d.client && !dead {
        HoldsEvent(stream, responses, events, d.event);
      } else {
        HoldsLess(stream, responses, events, dead, EventDelivered(c)(d));
      }
    }
  }

  lemma BroadcastPaired(s: State, c: ClientId)
    requires Paired(s, c)
    ensures Paired(Broadcast(s), c)
  {
    if c in s.clients.streams {
      DirectSnoc(s.clients.streams[c], DaemonStopped);
    }
  }

  lemma SamePaired(s: State, s': State, c: ClientId)
    requires Paired(s, c) && SameReceipts(s, s')
    ensures Paired(s', c)
  {
  }

  lemma TakeEventPaired(s: State, choice: Choice, c: ClientId)
    requires Known(s) && Paired(s, c) && s.daemon.dq != [] && s.daemon.dq[0].SendEvent?
    ensures Paired(DoTake(s, choice), c)
  {
    var d := Delivery(s.daemon.dq[0].clientId, s.daemon.dq[0].event);
    assert KnownEvent(s.clients.streams.Keys, s.daemon.dq[0]);
    DeliverPaired(s, d, c);
    SamePaired(SendTo(Noted(s, d), d.client, Notice(d.event)), DoTake(s, choice), c);
  }

  lemma TakePaired(s: State, choice: Choice, c: ClientId)
    requires Known(s) && Paired(s, c) && s.daemon.dq != []
    ensures Paired(DoTake(s, choice), c)
  {
    match s.daemon.dq[0]
    case SendEvent(_, _) => TakeEventPaired(s, choice, c);
    case SendStopped =>
      SamePaired(s, Popped(s), c);
      BroadcastPaired(Popped(s), c);
    case _ => SamePaired(s, DoTake(s, choice), c);
  }

  /** A response is never an event. */
  ghost predicate Plain(s: State) {
    s.daemon.handler.Some? ==> !s.daemon.handler.value.response.Notice? && !s.daemon.handler.value.response.DaemonStopped?
  }

  lemma WorkPaired(s: State, c: ClientId)
    requires Known(s) && Plain(s) && Paired(s, c) && s.daemon.handler.Some?
    ensures Paired(DoWork(s), c)
  {
    var h := s.daemon.handler.value;
    if h.pc >= |h.actions| {
      ReplyPaired(s, h, c);
    }
  }

  lemma PairedStep(keep: Keep, s: State, step: Step, c: ClientId)
    requires Known(s) && Plain(s) && Paired(s, c) && Enabled(s, step)
    ensures Paired(Apply(keep, s, step), c)
  {
    match step
    case Accept => AcceptPaired(s, c);
    case Take(choice) => TakePaired(s, choice, c);
    case Work => WorkPaired(s, c);
    case _ =>
  }

  lemma PlainStep(keep: Keep, s: State, step: Step)
    requires Plain(s) && Enabled(s, step)
    ensures Plain(Apply(keep, s, step))
  {
  }
}
