/** Once clients send nothing more, every schedule runs the daemon empty. */
module Drain {
  import opened Sequences
  import opened Protocol
  import opened Subscriptions
  import opened System
  import opened Workers
  import opened Sessions
  import Lookups
  import Runs

  /** Anything but a new connection or a new command. */
  predicate Draining(step: Step) {
    !step.Accept? && !step.ClientSends?
  }

  /** A step of one of the daemon's own threads, which it takes as soon as it can. */
  predicate Progress(step: Step) {
    Draining(step) && !step.ClientDies? && !step.HangUp?
  }

  // ---------- A measure in nine parts ----------

  function CommandWeight(e: DaemonEvent): nat {
    if e.IncomingCmd? then 1 else 0
  }

  /** A stop request turns into one more event. */
  function OtherWeight(e: DaemonEvent): nat {
    if e.IncomingCmd? then 0 else if e.StopRequested? then 2 else 1
  }

  function DispatchWeight(m: ManagerCmd): nat {
    if m.DispatchEvent? then 1 else 0
  }

  function SubscriptionWeight(m: ManagerCmd): nat {
    if m.DispatchEvent? then 0 else 1
  }

  function ThreadWeight(t: Thread): nat {
    if t.pc < |t.actions| then |t.actions| - t.pc else 0
  }

  function HandlerWeight(handler: Option<Handler>): nat {
    match handler
    case None => 0
    case Some(h) => 1 + if h.pc < |h.actions| then |h.actions| - h.pc else 0
  }

  function Living(c: Clients): nat {
    |c.streams.Keys - c.dead|
  }

  function Commands(dq: seq<DaemonEvent>): nat {
    Total(dq, CommandWeight)
  }

  function Others(dq: seq<DaemonEvent>): nat {
    Total(dq, OtherWeight)
  }

  function Dispatches(mq: seq<ManagerCmd>): nat {
    Total(mq, DispatchWeight)
  }

  /** What is left to do, most significant first: clients that may still die, commands not
      yet forwarded, commands not yet taken, the rest of the command at hand, thread actions,
      dispatches, deliveries of the current dispatch, other events for the daemon thread,
      and subscription commands together with forwarding threads. */
  datatype Rank = Rank(
    living: nat, unsent: nat, commands: nat, handling: nat, acting: nat, dispatches: nat, sending: nat,
    others: nat, subscriptions: nat)

  function RankOf(s: State): Rank {
    Rank(Living(s.clients), |s.clients.outbox|, Commands(s.daemon.dq), HandlerWeight(s.daemon.handler),
         Total(s.threads, ThreadWeight), Dispatches(s.manager.mq), |s.manager.sending|, Others(s.daemon.dq),
         Total(s.manager.mq, SubscriptionWeight) + 2 * |s.clients.open|)
  }

  predicate Below(a: Rank, b: Rank) {
    || a.living < b.living
    || (a.living == b.living
        && (|| a.unsent < b.unsent
            || (a.unsent == b.unsent
                && (|| a.commands < b.commands
                    || (a.commands == b.commands && BelowInner(a, b))))))
  }

  predicate BelowInner(a: Rank, b: Rank) {
    || a.handling < b.handling
    || (a.handling == b.handling
        && (|| a.acting < b.acting
            || (a.acting == b.acting
                && (|| a.dispatches < b.dispatches
                    || (a.dispatches == b.dispatches
                        && (|| a.sending < b.sending
                            || (a.sending == b.sending
                                && (a.others < b.others || (a.others == b.others && a.subscriptions < b.subscriptions)))))))))
  }

  // ---------- Every step makes it smaller ----------

  lemma PushDaemonRank(s: State, e: DaemonEvent)
    ensures Commands(PushDaemon(s, e).daemon.dq) == Commands(s.daemon.dq) + CommandWeight(e)
    ensures Others(PushDaemon(s, e).daemon.dq) == Others(s.daemon.dq) + OtherWeight(e)
  {
    TotalSnoc(s.daemon.dq, e, CommandWeight);
    TotalSnoc(s.daemon.dq, e, OtherWeight);
  }

  lemma PushManagerRank(s: State, m: ManagerCmd)
    ensures Dispatches(PushManager(s, m).manager.mq) == Dispatches(s.manager.mq) + DispatchWeight(m)
    ensures Total(PushManager(s, m).manager.mq, SubscriptionWeight) == Total(s.manager.mq, SubscriptionWeight) + SubscriptionWeight(m)
  {
    TotalSnoc(s.manager.mq, m, DispatchWeight);
    TotalSnoc(s.manager.mq, m, SubscriptionWeight);
  }

  /** Sending to a client touches nothing above the subscription commands. */
  lemma SendToRank(s: State, c: ClientId, r: DaemonResponse)
    ensures RankOf(SendTo(s, c, r)).(subscriptions := 0) == RankOf(s).(subscriptions := 0)
  {
    PushManagerRank(s, RemoveAllSubscriptions(c));
    if c in s.clients.streams {
      assert s.clients.streams.Keys == s.clients.streams[c := s.clients.streams[c] + [r]].Keys;
    }
  }

  /** Taking anything but a command leaves the upper parts as they are. */
  predicate LowerOthers(r': Rank, r: Rank) {
    r'.others < r.others && r'.(others := 0, subscriptions := 0) == r.(others := 0, subscriptions := 0)
  }

  lemma PoppedRank(s: State)
    requires s.daemon.dq != [] && !s.daemon.dq[0].IncomingCmd?
    ensures RankOf(Popped(s)) == RankOf(s).(others := RankOf(s).others - OtherWeight(s.daemon.dq[0]))
  {
    var first := s.daemon.dq[0];
    assert Commands(s.daemon.dq) == CommandWeight(first) + Commands(s.daemon.dq[1..]);
    assert Others(s.daemon.dq) == OtherWeight(first) + Others(s.daemon.dq[1..]);
  }

  lemma StoppedRank(s: State)
    ensures RankOf(PushDaemon(s, SendStopped)) == RankOf(s).(others := RankOf(s).others + 1)
    ensures RankOf(Broadcast(s)) == RankOf(s)
  {
    PushDaemonRank(s, SendStopped);
    assert Broadcast(s).clients.streams.Keys == s.clients.streams.Keys;
  }

  lemma NotedRank(s: State, d: Delivery)
    ensures RankOf(Noted(s, d)) == RankOf(s)
  {
  }

  lemma StoreRank(s: State, config: ServerUnitConfig)
    ensures RankOf(Store(s, config)) == RankOf(s)
  {
  }

  lemma TakeEventRank(s: State, choice: Choice)
    requires s.daemon.dq != [] && s.daemon.dq[0].SendEvent?
    ensures RankOf(DoTake(s, choice)).(subscriptions := 0) == RankOf(Popped(s)).(subscriptions := 0)
  {
    var s', client, event := Popped(s), s.daemon.dq[0].clientId, s.daemon.dq[0].event;
    NotedRank(s', Delivery(client, event));
    SendToRank(Noted(s', Delivery(client, event)), client, Notice(event));
  }

  lemma TakeStopRank(s: State, choice: Choice)
    requires s.daemon.dq != [] && (s.daemon.dq[0].StopRequested? || s.daemon.dq[0].SendStopped?)
    ensures RankOf(DoTake(s, choice))
         == RankOf(Popped(s)).(others := RankOf(Popped(s)).others + if s.daemon.dq[0].StopRequested? then 1 else 0)
  {
    StoppedRank(Popped(s));
  }

  lemma {:induction false} TakeOtherRank(s: State, choice: Choice)
    requires s.daemon.dq != [] && s.daemon.handler.None? && !s.daemon.dq[0].IncomingCmd?
    ensures LowerOthers(RankOf(DoTake(s, choice)), RankOf(s))
  {
    PoppedRank(s);
    match s.daemon.dq[0]
    case SendEvent(_, _) => TakeEventRank(s, choice);
    case AddServerUnit(config) => StoreRank(Popped(s), config);
    case _ => TakeStopRank(s, choice);
  }

  lemma TakeRank(s: State, choice: Choice)
    requires s.daemon.dq != [] && s.daemon.handler.None?
    ensures Below(RankOf(DoTake(s, choice)), RankOf(s))
  {
    if s.daemon.dq[0].IncomingCmd? {
      assert Commands(s.daemon.dq) == 1 + Commands(s.daemon.dq[1..]);
    } else {
      TakeOtherRank(s, choice);
    }
  }

  lemma LaunchRank(s: State, h: Handler, script: seq<ThreadAction>)
    requires s.daemon.handler == Some(h) && h.pc < |h.actions|
    ensures RankOf(DoLaunch(s, h, script)).handling < RankOf(s).handling
    ensures var r, r' := RankOf(s), RankOf(DoLaunch(s, h, script));
            r'.living == r.living && r'.unsent == r.unsent && r'.commands == r.commands
  {
  }

  lemma {:induction false} ActRank(s: State, h: Handler)
    requires s.daemon.handler == Some(h) && h.pc < |h.actions|
    ensures Below(RankOf(DoWork(s)), RankOf(s))
  {
    match h.actions[h.pc]
    case Launch(script) => LaunchRank(s, h, script);
    case RequestStop => PushDaemonRank(s, StopRequested);
    case _ => SendsRank(s, h);
  }

  /** A message to the manager is made up for by the command at hand, which comes first. */
  lemma {:induction false} SendsRank(s: State, h: Handler)
    requires s.daemon.handler == Some(h) && h.pc < |h.actions| && (h.actions[h.pc].Subscribe? || h.actions[h.pc].Announce?)
    ensures Below(RankOf(DoWork(s)), RankOf(s))
  {
  }

  lemma WorkRank(s: State)
    requires s.daemon.handler.Some?
    ensures Below(RankOf(DoWork(s)), RankOf(s))
  {
    var h := s.daemon.handler.value;
    if h.pc < |h.actions| {
      ActRank(s, h);
    } else {
      SendToRank(Closed(s, h), h.client, h.response);
    }
  }

  lemma RunRank(s: State, t: nat)
    requires t < |s.threads| && s.threads[t].pc < |s.threads[t].actions|
    ensures Below(RankOf(DoRun(s, t)), RankOf(s))
  {
    var thread := s.threads[t];
    TotalUpdate(s.threads, t, DoRun(s, t).threads[t], ThreadWeight);
    assert DoRun(s, t).threads == s.threads[t := DoRun(s, t).threads[t]];
    match thread.actions[thread.pc]
    case RaiseEvent(_, _) =>
    case Register(config) => PushDaemonRank(s, AddServerUnit(config));
  }

  lemma ManageRank(keep: Keep, s: State)
    requires s.manager.mq != [] && s.manager.sending == []
    ensures Below(RankOf(DoManage(keep, s)), RankOf(s))
  {
    var mq := s.manager.mq;
    assert Dispatches(mq) == DispatchWeight(mq[0]) + Dispatches(mq[1..]);
    assert Total(mq, SubscriptionWeight) == SubscriptionWeight(mq[0]) + Total(mq[1..], SubscriptionWeight);
  }

  lemma {:induction false} OtherRank(keep: Keep, s: State, step: Step)
    requires Enabled(s, step) && (step.EmitNext? || step.Forward? || step.HangUp? || step.ClientDies?)
    ensures Below(RankOf(Apply(keep, s, step)), RankOf(s))
  {
    match step
    case EmitNext => PushDaemonRank(s, SendEvent(s.manager.sending[0].client, s.manager.sending[0].event));
    case Forward(at) => PushDaemonRank(s, IncomingCmd(s.clients.outbox[at].client, s.clients.outbox[at].cmd));
    case HangUp(client) => PushManagerRank(s, RemoveAllSubscriptions(client));
    case ClientDies(client) => DieRank(s, client);
  }

  lemma DieRank(s: State, client: ClientId)
    requires client in s.clients.streams && client !in s.clients.dead
    ensures Below(RankOf(DoDie(s, client)), RankOf(s))
  {
    var living := s.clients.streams.Keys - s.clients.dead;
    assert s.clients.streams.Keys - (s.clients.dead + {client}) == living - {client};
  }

  lemma StepShrinks(keep: Keep, s: State, step: Step)
    requires Enabled(s, step) && Draining(step)
    ensures Below(RankOf(Apply(keep, s, step)), RankOf(s))
  {
    match step
    case Take(choice) => TakeRank(s, choice);
    case Work => WorkRank(s);
    case RunThread(t) => RunRank(s, t);
    case Manage => ManageRank(keep, s);
    case _ => OtherRank(keep, s, step);
  }

  // ---------- Nothing left to do ----------

  ghost predicate Quiescent(s: State) {
    forall step :: Progress(step) ==> !Enabled(s, step)
  }

  /** The daemon's threads have nothing to do exactly when the process has ended or both
      queues, the clients' commands and all threads are exhausted. */
  lemma QuiescentMeansEmpty(s: State)
    requires !s.daemon.crashed
    ensures Quiescent(s) <==> s.daemon.exited || Idle(s)
  {
    if Quiescent(s) && !s.daemon.exited {
      var choice := Choice((id: UnitId) => ServerStatus.Unknown, false, []);
      assert Progress(Take(choice)) && Progress(Work) && Progress(Manage) && Progress(EmitNext) && Progress(Forward(0));
      forall t | 0 <= t < |s.threads| ensures s.threads[t].pc >= |s.threads[t].actions| {
        assert Progress(RunThread(t));
      }
    }
  }

  /** A schedule takes some step of draining at every moment at which a thread of the daemon
      has something to do. */
  ghost predicate Scheduled(keep: Keep, run: nat -> State, schedule: nat -> Step) {
    forall n: nat :: Quiescent(run(n))
      || (Draining(schedule(n)) && Enabled(run(n), schedule(n)) && run(n + 1) == Apply(keep, run(n), schedule(n)))
  }

  lemma {:induction false} DrainsFrom(keep: Keep, run: nat -> State, schedule: nat -> Step, n: nat) returns (end: nat)
    requires Scheduled(keep, run, schedule) && Lookups.Known(run(n))
    ensures end >= n && Quiescent(run(end)) && Lookups.Known(run(end))
    decreases RankOf(run(n)).living, RankOf(run(n)).unsent, RankOf(run(n)).commands, RankOf(run(n)).handling,
              RankOf(run(n)).acting, RankOf(run(n)).dispatches, RankOf(run(n)).sending, RankOf(run(n)).others,
              RankOf(run(n)).subscriptions
  {
    if Quiescent(run(n)) {
      end := n;
    } else {
      StepShrinks(keep, run(n), schedule(n));
      Lookups.KnownStep(keep, run(n), schedule(n));
      end := DrainsFrom(keep, run, schedule, n + 1);
    }
  }

  /** A schedule in which the threads that commands launch do what such threads can do. */
  ghost predicate FaithfullyScheduled(keep: Keep, run: nat -> State, schedule: nat -> Step) {
    Scheduled(keep, run, schedule) && forall n: nat :: Quiescent(run(n)) || Faithful(run(n), schedule(n))
  }

  lemma StepKeepsSent(keep: Keep, s: State, step: Step)
    requires Enabled(s, step) && Draining(step)
    ensures Apply(keep, s, step).clients.sent == s.clients.sent
    ensures s.clients.streams.Keys == Apply(keep, s, step).clients.streams.Keys
  {
  }

  lemma ReachableAtRest(keep: Keep, s: State)
    requires Runs.Reachable(keep, s) && Quiescent(s)
    ensures s.daemon.exited || Idle(s)
  {
    Runs.ReachableInv(keep, s);
    QuiescentMeansEmpty(s);
  }

  /** Nothing is sent by clients on the way, and where the schedule ends up is reachable. */
  lemma {:induction false} DrainsReachably(keep: Keep, run: nat -> State, schedule: nat -> Step, n: nat) returns (end: nat)
    requires FaithfullyScheduled(keep, run, schedule) && Runs.Reachable(keep, run(n))
    ensures end >= n && Quiescent(run(end)) && Runs.Reachable(keep, run(end))
    ensures run(end).clients.sent == run(n).clients.sent && run(end).clients.streams.Keys == run(n).clients.streams.Keys
    decreases RankOf(run(n)).living, RankOf(run(n)).unsent, RankOf(run(n)).commands, RankOf(run(n)).handling,
              RankOf(run(n)).acting, RankOf(run(n)).dispatches, RankOf(run(n)).sending, RankOf(run(n)).others,
              RankOf(run(n)).subscriptions
  {
    if Quiescent(run(n)) {
      end := n;
    } else {
      StepShrinks(keep, run(n), schedule(n));
      StepKeepsSent(keep, run(n), schedule(n));
      Runs.ReachableStep(keep, run(n), schedule(n));
      end := DrainsReachably(keep, run, schedule, n + 1);
    }
  }

  /** Every schedule comes to a point where the process has ended or nothing is left in
      either queue, whatever the order of steps and however many sends fail. */
  lemma EveryScheduleDrains(keep: Keep, run: nat -> State, schedule: nat -> Step)
    requires Scheduled(keep, run, schedule) && Runs.Reachable(keep, run(0))
    ensures exists n: nat :: run(n).daemon.exited || Idle(run(n))
  {
    Runs.ReachableInv(keep, run(0));
    var end := DrainsFrom(keep, run, schedule, 0);
    QuiescentMeansEmpty(run(end));
  }
}
