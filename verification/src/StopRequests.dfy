/** The daemon ends only because a client asked for it. */
module StopRequests {
  import opened Sequences
  import opened Protocol
  import opened System
  import opened Answers
  import opened Stopping
  import Subscriptions

  predicate EndsDaemon(e: DaemonEvent) {
    e.StopRequested? || e.SendStopped?
  }

  /** A `StopDaemon` command is answered or at hand. */
  ghost predicate Asked(handled: seq<Handler>, handler: Option<Handler>) {
    || (handler.Some? && handler.value.cmd == StopDaemon)
    || exists i :: 0 <= i < |handled| && handled[i].cmd == StopDaemon
  }

  ghost predicate StopAsked(d: Daemon) {
    (exists i :: 0 <= i < |d.arrivals| && EndsDaemon(d.arrivals[i])) ==> Asked(d.handled, d.handler)
  }

  lemma ProgramStops(servers: map<UnitId, ServerUnitConfig>, cmd: DaemonCmd, choice: Choice, i: nat)
    requires i < |Program(servers, cmd, choice)| && Program(servers, cmd, choice)[i].RequestStop?
    ensures cmd == StopDaemon
  {
  }

  lemma ProperStops(h: Handler, i: nat)
    requires Proper(h) && i < |h.actions| && h.actions[i].RequestStop?
    ensures h.cmd == StopDaemon
  {
    var choice :| ProperFor(h, choice);
    ProgramStops(h.seen, h.cmd, choice, i);
  }

  /** Once asked for, the end stays asked for. */
  lemma AskedGrows(handled: seq<Handler>, handler: Option<Handler>, handled': seq<Handler>, handler': Option<Handler>)
    requires Asked(handled, handler)
    requires
      || (handled' == handled && (handler.Some? ==> handler'.Some? && handler'.value.cmd == handler.value.cmd))
      || (handler.Some? && handled' == handled + [handler.value])
    ensures Asked(handled', handler')
  {
    if handler.Some? && handled' == handled + [handler.value] {
      assert handled'[|handled|] == handler.value;
      assert forall i :: 0 <= i < |handled| ==> handled'[i] == handled[i];
    }
  }

  /** The arrivals grow by at most one event, which ends the daemon only if a stop command is
      at hand or such an event was taken. */
  ghost predicate GrowsBy(d: Daemon, d': Daemon) {
    || d'.arrivals == d.arrivals
    || exists e :: d'.arrivals == d.arrivals + [e] && (EndsDaemon(e) ==> StopsFrom(d))
  }

  ghost predicate StopsFrom(d: Daemon) {
    Asked(d.handled, d.handler) || (d.dq != [] && EndsDaemon(d.dq[0]))
  }

  lemma PushGrows(d: Daemon, d': Daemon, e: DaemonEvent)
    requires d'.arrivals == d.arrivals + [e] && (EndsDaemon(e) ==> StopsFrom(d))
    ensures GrowsBy(d, d')
  {
  }

  lemma TakeGrows(s: State, choice: Choice)
    requires s.daemon.dq != [] && s.daemon.handler.None?
    ensures GrowsBy(s.daemon, DoTake(s, choice).daemon)
  {
    if s.daemon.dq[0].StopRequested? {
      PushGrows(s.daemon, DoTake(s, choice).daemon, SendStopped);
    }
  }

  lemma WorkGrows(s: State)
    requires s.daemon.handler.Some? && Proper(s.daemon.handler.value)
    ensures GrowsBy(s.daemon, DoWork(s).daemon)
  {
    var h := s.daemon.handler.value;
    if h.pc < |h.actions| && h.actions[h.pc].RequestStop? {
      ProperStops(h, h.pc);
      PushGrows(s.daemon, DoWork(s).daemon, StopRequested);
    }
  }

  lemma StepGrows(keep: Subscriptions.Keep, s: State, step: Step)
    requires AllProper(s.daemon) && Enabled(s, step)
    ensures GrowsBy(s.daemon, Apply(keep, s, step).daemon)
  {
    match step
    case Take(choice) => TakeGrows(s, choice);
    case Work => WorkGrows(s);
    case Forward(at) => PushGrows(s.daemon, Apply(keep, s, step).daemon, IncomingCmd(s.clients.outbox[at].client, s.clients.outbox[at].cmd));
    case EmitNext =>
      PushGrows(s.daemon, Apply(keep, s, step).daemon, SendEvent(s.manager.sending[0].client, s.manager.sending[0].event));
    case RunThread(t) =>
      var action := s.threads[t].actions[s.threads[t].pc];
      if action.Register? {
        PushGrows(s.daemon, Apply(keep, s, step).daemon, AddServerUnit(action.config));
      }
    case _ =>
  }

  lemma AskedStep(keep: Subscriptions.Keep, s: State, step: Step)
    requires Asked(s.daemon.handled, s.daemon.handler) && Enabled(s, step)
    ensures Asked(Apply(keep, s, step).daemon.handled, Apply(keep, s, step).daemon.handler)
  {
    var d, d' := s.daemon, Apply(keep, s, step).daemon;
    if step.Work? {
      WorkHandler(s);
    }
    AskedGrows(d.handled, d.handler, d'.handled, d'.handler);
  }

  lemma {:induction false} StopAskedStep(keep: Subscriptions.Keep, s: State, step: Step)
    requires StopAsked(s.daemon) && TakenInOrder(s.daemon) && AllProper(s.daemon) && Enabled(s, step)
    ensures StopAsked(Apply(keep, s, step).daemon)
  {
    var d, d' := s.daemon, Apply(keep, s, step).daemon;
    if i :| 0 <= i < |d'.arrivals| && EndsDaemon(d'.arrivals[i]) {
      StepGrows(keep, s, step);
      if i < |d.arrivals| {
        assert d'.arrivals[i] == d.arrivals[i];
      } else if d.dq != [] && EndsDaemon(d.dq[0]) {
        assert d.dq[0] == d.arrivals[d.taken];
      }
      AskedStep(keep, s, step);
    }
  }

  // ---------- What is asked for is done ----------

  ghost predicate Requested(events: seq<DaemonEvent>) {
    exists i :: 0 <= i < |events| && events[i].StopRequested?
  }

  ghost predicate Announced(events: seq<DaemonEvent>) {
    exists i :: 0 <= i < |events| && events[i].SendStopped?
  }

  ghost predicate Commanded(handled: seq<Handler>) {
    exists i :: 0 <= i < |handled| && handled[i].cmd == StopDaemon
  }

  /** A handled stop command has queued its request, a request taken has queued `Stopped`, and
      with that taken the daemon has ended. */
  ghost predicate StopDue(d: Daemon) {
    && d.taken <= |d.arrivals|
    && (Commanded(d.handled) ==> Requested(d.arrivals))
    && (d.handler.Some? && d.handler.value.cmd == StopDaemon && d.handler.value.pc > 0 ==> Requested(d.arrivals))
    && (Requested(d.arrivals[..d.taken]) ==> Announced(d.arrivals))
    && (Announced(d.arrivals[..d.taken]) ==> d.exited)
  }

  lemma MoreEvents(events: seq<DaemonEvent>, more: seq<DaemonEvent>)
    ensures Requested(events + more) <==> Requested(events) || Requested(more)
    ensures Announced(events + more) <==> Announced(events) || Announced(more)
  {
    var all := events + more;
    assert forall i :: 0 <= i < |events| ==> all[i] == events[i];
    assert forall i :: 0 <= i < |more| ==> all[|events| + i] == more[i];
  }

  /** A step that takes nothing may queue one event. */
  lemma QueueDue(d: Daemon, d': Daemon, more: seq<DaemonEvent>)
    requires StopDue(d) && d'.arrivals == d.arrivals + more && d'.taken == d.taken && d'.exited == d.exited
    requires Commanded(d'.handled) ==> Commanded(d.handled) || Requested(d'.arrivals)
    requires d'.handler.Some? && d'.handler.value.cmd == StopDaemon && d'.handler.value.pc > 0 ==>
      Requested(d'.arrivals) || (d.handler.Some? && d.handler.value.cmd == StopDaemon && d.handler.value.pc > 0)
    ensures StopDue(d')
  {
    MoreEvents(d.arrivals, more);
    assert d'.arrivals[..d.taken] == d.arrivals[..d.taken];
  }

  function Follows(e: DaemonEvent): seq<DaemonEvent> {
    if e.StopRequested? then [SendStopped] else []
  }

  lemma SendToKeeps(s: State, client: ClientId, response: DaemonResponse)
    ensures var d, d' := s.daemon, SendTo(s, client, response).daemon;
            && d'.arrivals == d.arrivals && d'.taken == d.taken && d'.handled == d.handled
            && d'.exited == d.exited && d'.handler == d.handler
  {
  }

  lemma {:induction false} TakeQueue(s: State, choice: Choice)
    requires s.daemon.dq != [] && s.daemon.handler.None?
    ensures var d, d', first := s.daemon, DoTake(s, choice).daemon, s.daemon.dq[0];
            && d'.arrivals == d.arrivals + Follows(first) && d'.taken == d.taken + 1 && d'.handled == d.handled
            && d'.exited == (d.exited || first.SendStopped?)
            && (d'.handler.Some? ==> d'.handler.value.pc == 0)
  {
    AppendNothing(s.daemon.arrivals);
    match s.daemon.dq[0]
    case SendEvent(client, event) => SendToKeeps(Noted(Popped(s), Subscriptions.Delivery(client, event)), client, Notice(event));
    case _ =>
  }

  lemma TakenDue(d: Daemon, d': Daemon, first: DaemonEvent)
    requires StopDue(d) && d.taken < |d.arrivals| && d.arrivals[d.taken] == first
    requires d'.arrivals == d.arrivals + Follows(first) && d'.taken == d.taken + 1 && d'.handled == d.handled
    requires d'.exited == (d.exited || first.SendStopped?) && (d'.handler.Some? ==> d'.handler.value.pc == 0)
    ensures StopDue(d')
  {
    assert d'.arrivals[..d.taken + 1] == d.arrivals[..d.taken] + [first];
    MoreEvents(d.arrivals, Follows(first));
    MoreEvents(d.arrivals[..d.taken], [first]);
    assert [first][0] == first && (first.StopRequested? ==> Follows(first)[0] == SendStopped);
  }

  lemma TakeDue(s: State, choice: Choice)
    requires StopDue(s.daemon) && TakenInOrder(s.daemon) && s.daemon.dq != [] && s.daemon.handler.None?
    ensures StopDue(DoTake(s, choice).daemon)
  {
    TakeQueue(s, choice);
    TakenDue(s.daemon, DoTake(s, choice).daemon, s.daemon.dq[0]);
  }

  lemma ProgramOfStop(h: Handler)
    requires Proper(h) && h.cmd == StopDaemon
    ensures h.actions == [RequestStop]
  {
    var choice :| ProperFor(h, choice);
  }

  function Queues(h: Handler): seq<DaemonEvent> {
    if h.pc < |h.actions| && h.actions[h.pc].RequestStop? then [StopRequested] else []
  }

  lemma WorkQueue(s: State, h: Handler)
    requires s.daemon.handler == Some(h)
    ensures var d, d' := s.daemon, DoWork(s).daemon;
            && d'.arrivals == d.arrivals + Queues(h) && d'.taken == d.taken && d'.exited == d.exited
            && (h.pc >= |h.actions| ==> d'.handled == d.handled + [h] && d'.handler.None?)
            && (h.pc < |h.actions| ==> d'.handled == d.handled && d'.handler.Some? && d'.handler.value.cmd == h.cmd)
  {
    if h.pc < |h.actions| {
      ActDaemon(s, h);
    } else {
      AnswerDaemon(s, h);
    }
    AppendNothing(s.daemon.arrivals);
  }

  lemma WorkDue(s: State, h: Handler)
    requires StopDue(s.daemon) && s.daemon.handler == Some(h)
    requires h.cmd == StopDaemon ==> h.actions == [RequestStop]
    ensures StopDue(DoWork(s).daemon)
  {
    WorkQueue(s, h);
    MoreEvents(s.daemon.arrivals, Queues(h));
    assert h.cmd == StopDaemon && h.pc < |h.actions| ==> Queues(h)[0] == StopRequested;
    QueueDue(s.daemon, DoWork(s).daemon, Queues(h));
  }

  lemma OtherQueue(keep: Subscriptions.Keep, s: State, step: Step)
    requires Enabled(s, step) && !step.Take? && !step.Work?
    ensures var d, d' := s.daemon, Apply(keep, s, step).daemon;
            && d.arrivals <= d'.arrivals && d'.taken == d.taken && d'.exited == d.exited
            && d'.handled == d.handled && d'.handler == d.handler
  {
  }

  lemma StopDueStep(keep: Subscriptions.Keep, s: State, step: Step)
    requires StopDue(s.daemon) && TakenInOrder(s.daemon) && AllProper(s.daemon) && Enabled(s, step)
    ensures StopDue(Apply(keep, s, step).daemon)
  {
    match step
    case Take(choice) => TakeDue(s, choice);
    case Work =>
      if s.daemon.handler.value.cmd == StopDaemon {
        ProgramOfStop(s.daemon.handler.value);
      }
      WorkDue(s, s.daemon.handler.value);
    case _ =>
      OtherQueue(keep, s, step);
      var d, d' := s.daemon, Apply(keep, s, step).daemon;
      QueueDue(d, d', d'.arrivals[|d.arrivals|..]);
  }

  /** With everything taken, a daemon that handled a stop command has ended. */
  lemma DrainedMeansEnded(d: Daemon)
    requires StopDue(d) && d.taken == |d.arrivals| && Commanded(d.handled)
    ensures d.exited
  {
    assert d.arrivals[..d.taken] == d.arrivals;
  }
}
