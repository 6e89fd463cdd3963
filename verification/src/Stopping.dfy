/** The daemon thread takes its queue in order, and `Stopped` is the last thing it sends. */
module Stopping {
  import opened Sequences
  import opened Protocol
  import opened Subscriptions
  import opened System
  import opened Lookups
  import opened Replies

  function RequestArrived(e: DaemonEvent): seq<Request> {
    if e.IncomingCmd? then [Request(e.id, e.cmd)] else []
  }

  function RequestHandled(h: Handler): seq<Request> {
    [Request(h.client, h.cmd)]
  }

  function CurrentRequest(handler: Option<Handler>): seq<Request> {
    if handler.Some? then RequestHandled(handler.value) else []
  }

  /** The commands taken so far are the ones answered, then the one at hand, in order. */
  ghost predicate TakenInOrder(d: Daemon) {
    && d.taken <= |d.arrivals|
    && d.dq == d.arrivals[d.taken..]
    && Collect(d.arrivals[..d.taken], RequestArrived) == Collect(d.handled, RequestHandled) + CurrentRequest(d.handler)
  }

  /** Before the end no client has seen `Stopped`; at the end every listening client has it
      as the last message, and the daemon thread went no further than that event. */
  ghost predicate StoppedLast(s: State) {
    var d := s.daemon;
    && d.taken <= |d.arrivals|
    && (d.exited ==> d.taken > 0 && d.arrivals[d.taken - 1].SendStopped? && d.handler.None?)
    && (forall c :: c in s.clients.streams ==> StreamEnds(s.clients.streams[c], d.exited && c !in s.clients.dead))
  }

  ghost predicate StreamEnds(stream: seq<DaemonResponse>, stopped: bool) {
    if stopped then stream != [] && stream[|stream| - 1] == DaemonStopped && DaemonStopped !in stream[..|stream| - 1]
    else DaemonStopped !in stream
  }

  // ---------- The queue ----------

  lemma PushDaemonTaken(s: State, e: DaemonEvent)
    requires TakenInOrder(s.daemon)
    ensures TakenInOrder(PushDaemon(s, e).daemon)
  {
    var d := s.daemon;
    assert (d.arrivals + [e])[d.taken..] == d.arrivals[d.taken..] + [e];
    assert (d.arrivals + [e])[..d.taken] == d.arrivals[..d.taken];
  }

  lemma PoppedTaken(d: Daemon, handler: Option<Handler>)
    requires TakenInOrder(d) && d.dq != [] && d.handler.None?
    requires CurrentRequest(handler) == RequestArrived(d.dq[0])
    ensures TakenInOrder(d.(dq := d.dq[1..], taken := d.taken + 1, handler := handler))
  {
    assert d.arrivals[..d.taken + 1] == d.arrivals[..d.taken] + [d.dq[0]];
    CollectSnoc(d.arrivals[..d.taken], d.dq[0], RequestArrived);
    assert Collect(d.handled, RequestHandled) + [] == Collect(d.handled, RequestHandled);
  }

  lemma ClosedTaken(d: Daemon, h: Handler)
    requires TakenInOrder(d) && d.handler == Some(h)
    ensures TakenInOrder(d.(handler := None, handled := d.handled + [h]))
  {
    CollectSnoc(d.handled, h, RequestHandled);
    assert Collect(d.handled + [h], RequestHandled) + [] == Collect(d.handled, RequestHandled) + RequestHandled(h);
  }

  lemma SameTaken(d: Daemon, d': Daemon)
    requires TakenInOrder(d)
    requires d'.arrivals == d.arrivals && d'.taken == d.taken && d'.dq == d.dq && d'.handled == d.handled
    requires CurrentRequest(d'.handler) == CurrentRequest(d.handler)
    ensures TakenInOrder(d')
  {
  }

  lemma TakeOtherQueue(s: State, choice: Choice)
    requires s.daemon.dq != [] && s.daemon.handler.None?
    requires !s.daemon.dq[0].IncomingCmd? && !s.daemon.dq[0].StopRequested?
    ensures var d, d' := Popped(s).daemon, DoTake(s, choice).daemon;
            d'.arrivals == d.arrivals && d'.taken == d.taken && d'.dq == d.dq && d'.handled == d.handled && d'.handler.None?
  {
  }

  lemma TakeCommandTaken(s: State, choice: Choice)
    requires TakenInOrder(s.daemon) && s.daemon.dq != [] && s.daemon.handler.None? && s.daemon.dq[0].IncomingCmd?
    ensures TakenInOrder(DoTake(s, choice).daemon)
  {
    PoppedTaken(s.daemon, Some(Begin(s, s.daemon.dq[0].id, s.daemon.dq[0].cmd, choice)));
  }

  lemma TakeOtherTaken(s: State, choice: Choice)
    requires TakenInOrder(s.daemon) && s.daemon.dq != [] && s.daemon.handler.None?
    requires !s.daemon.dq[0].IncomingCmd? && !s.daemon.dq[0].StopRequested?
    ensures TakenInOrder(DoTake(s, choice).daemon)
  {
    PoppedTaken(s.daemon, None);
    TakeOtherQueue(s, choice);
    SameTaken(Popped(s).daemon, DoTake(s, choice).daemon);
  }

  lemma TakeTaken(s: State, choice: Choice)
    requires TakenInOrder(s.daemon) && s.daemon.dq != [] && s.daemon.handler.None?
    ensures TakenInOrder(DoTake(s, choice).daemon)
  {
    match s.daemon.dq[0]
    case IncomingCmd(_, _) => TakeCommandTaken(s, choice);
    case StopRequested =>
      PoppedTaken(s.daemon, None);
      PushDaemonTaken(Popped(s), SendStopped);
    case _ => TakeOtherTaken(s, choice);
  }

  lemma WorkTaken(s: State)
    requires TakenInOrder(s.daemon) && s.daemon.handler.Some?
    ensures TakenInOrder(DoWork(s).daemon)
  {
    var h := s.daemon.handler.value;
    if h.pc >= |h.actions| {
      AnswerDaemon(s, h);
      ClosedTaken(s.daemon, h);
      SameTaken(Closed(s, h).daemon, DoWork(s).daemon);
    } else {
      ActDaemon(s, h);
      if h.actions[h.pc].RequestStop? {
        PushDaemonTaken(s, StopRequested);
        SameTaken(PushDaemon(s, StopRequested).daemon, DoWork(s).daemon);
      } else {
        SameTaken(s.daemon, DoWork(s).daemon);
      }
    }
  }

  lemma TakenStep(keep: Keep, s: State, step: Step)
    requires TakenInOrder(s.daemon) && Enabled(s, step)
    ensures TakenInOrder(Apply(keep, s, step).daemon)
  {
    match step
    case Take(choice) => TakeTaken(s, choice);
    case Work => WorkTaken(s);
    case Forward(at) => PushDaemonTaken(Unsent(s, at), IncomingCmd(s.clients.outbox[at].client, s.clients.outbox[at].cmd));
    case EmitNext =>
      var d := s.manager.sending[0];
      PushDaemonTaken(s.(manager := s.manager.(sending := s.manager.sending[1..])), SendEvent(d.client, d.event));
    case RunThread(t) =>
      var thread := s.threads[t];
      match thread.actions[thread.pc] {
        case Register(config) => PushDaemonTaken(WithThread(s, t, thread.(pc := thread.pc + 1)), AddServerUnit(config));
        case _ =>
      }
    case _ =>
  }

  // ---------- The streams ----------

  lemma SendToLast(s: State, c: ClientId, r: DaemonResponse)
    requires StoppedLast(s) && !s.daemon.exited && r != DaemonStopped
    ensures StoppedLast(SendTo(s, c, r))
  {
  }

  lemma BroadcastLast(s: State)
    requires StoppedLast(s) && !s.daemon.exited && s.daemon.handler.None?
    requires s.daemon.taken > 0 && s.daemon.arrivals[s.daemon.taken - 1].SendStopped?
    ensures StoppedLast(Broadcast(s))
  {
    forall c | c in s.clients.streams
      ensures StreamEnds(Broadcast(s).clients.streams[c], c !in s.clients.dead)
    {
      var stream := s.clients.streams[c];
      assert (stream + [DaemonStopped])[..|stream|] == stream;
    }
  }

  /** Only these fields matter, as long as the daemon runs. */
  lemma SameLast(s: State, s': State)
    requires StoppedLast(s) && !s.daemon.exited && !s'.daemon.exited
    requires s'.clients.streams == s.clients.streams && s'.daemon.taken <= |s'.daemon.arrivals|
    ensures StoppedLast(s')
  {
  }

  lemma TakeLast(s: State, choice: Choice)
    requires StoppedLast(s) && TakenInOrder(s.daemon) && !s.daemon.exited
    requires s.daemon.dq != [] && s.daemon.handler.None?
    ensures StoppedLast(DoTake(s, choice))
  {
    assert s.daemon.dq[0] == s.daemon.arrivals[s.daemon.taken];
    SameLast(s, Popped(s));
    match s.daemon.dq[0]
    case SendEvent(client, event) =>
      SameLast(s, Noted(Popped(s), Delivery(client, event)));
      SendToLast(Noted(Popped(s), Delivery(client, event)), client, Notice(event));
    case SendStopped => BroadcastLast(Popped(s));
    case _ => SameLast(s, DoTake(s, choice));
  }

  lemma WorkLast(s: State)
    requires StoppedLast(s) && Plain(s) && !s.daemon.exited && s.daemon.handler.Some?
    ensures StoppedLast(DoWork(s))
  {
    var h := s.daemon.handler.value;
    if h.pc >= |h.actions| {
      SameLast(s, Closed(s, h));
      SendToLast(Closed(s, h), h.client, h.response);
    } else {
      SameLast(s, DoWork(s));
    }
  }

  lemma LastStep(keep: Keep, s: State, step: Step)
    requires StoppedLast(s) && TakenInOrder(s.daemon) && Plain(s) && Enabled(s, step)
    ensures StoppedLast(Apply(keep, s, step))
  {
    match step
    case Take(choice) => TakeLast(s, choice);
    case Work => WorkLast(s);
    case Accept =>
    case ClientDies(_) =>
    case _ => SameLast(s, Apply(keep, s, step));
  }
}
