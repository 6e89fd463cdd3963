/** The reachable states, and the invariants that hold in all of them. */
module Runs {
  import opened Sequences
  import opened Protocol
  import opened Subscriptions
  import opened System
  import opened Workers
  import Config
  import LogParser
  import Lookups
  import Pipeline
  import Replies
  import Stopping
  import Acknowledgement
  import Registration
  import Answers
  import Provenance
  import StopRequests
  import Routing
  import Sources

  ghost predicate ClientInv(s: State, c: ClientId) {
    Replies.InOrder(s, c) && Replies.Paired(s, c) && Acknowledgement.Acknowledged(s, c) && Provenance.KeysAccounted(s, c)
  }

  ghost predicate QueueInv(keep: Keep, s: State) {
    && Lookups.Known(s) && Pipeline.Flowing(keep, s) && Replies.Plain(s)
    && Stopping.TakenInOrder(s.daemon) && Stopping.StoppedLast(s)
    && Acknowledgement.AllGranted(s) && Registration.Registered(s) && Routing.Routed(s)
  }

  ghost predicate CommandInv(s: State) {
    && Answers.AllProper(s.daemon) && Answers.NotFoundIsTrue(s.daemon) && Answers.SeenStored(s.daemon)
    && StopRequests.StopAsked(s.daemon) && StopRequests.StopDue(s.daemon)
    && Provenance.AllPlaced(s) && Sources.Sourced(s) && Sources.Fathered(s) && Sources.OnlyGone(s) && Sources.HangUpsTold(s)
  }

  ghost predicate SystemInv(keep: Keep, s: State) {
    QueueInv(keep, s) && CommandInv(s)
  }

  ghost predicate Inv(keep: Keep, s: State) {
    SystemInv(keep, s) && forall c: ClientId :: ClientInv(s, c)
  }

  lemma SystemStep(keep: Keep, s: State, step: Step)
    requires SystemInv(keep, s) && Enabled(s, step) && Faithful(s, step)
    ensures SystemInv(keep, Apply(keep, s, step))
  {
    Lookups.KnownStep(keep, s, step);
    Pipeline.FlowStep(keep, s, step);
    Replies.PlainStep(keep, s, step);
    Stopping.TakenStep(keep, s, step);
    Stopping.LastStep(keep, s, step);
    Acknowledgement.GrantedStep(keep, s, step);
    Registration.RegisteredStep(keep, s, step);
    Answers.ProperStep(keep, s, step);
    Answers.NotFoundStep(keep, s, step);
    Provenance.PlacedStep(keep, s, step);
    StopRequests.StopAskedStep(keep, s, step);
    StopRequests.StopDueStep(keep, s, step);
    Routing.RoutedStep(keep, s, step);
    Answers.SeenStep(keep, s, step);
    Sources.SourcedStep(keep, s, step);
    Sources.FatheredStep(keep, s, step);
    Sources.GoneStep(keep, s, step);
    Sources.HangUpStep(keep, s, step);
  }

  lemma {:induction false} ClientStep(keep: Keep, s: State, step: Step, c: ClientId)
    requires SystemInv(keep, s) && ClientInv(s, c) && Enabled(s, step)
    ensures ClientInv(Apply(keep, s, step), c)
  {
    Replies.OrderStep(keep, s, step, c);
    Replies.PairedStep(keep, s, step, c);
    Acknowledgement.AcknowledgedStep(keep, s, step, c);
    Provenance.KeysStep(keep, s, step, c);
  }

  lemma {:induction false} InvStep(keep: Keep, s: State, step: Step)
    requires Inv(keep, s) && Enabled(s, step) && Faithful(s, step)
    ensures Inv(keep, Apply(keep, s, step))
  {
    SystemStep(keep, s, step);
    forall c: ClientId ensures ClientInv(Apply(keep, s, step), c) {
      ClientStep(keep, s, step, c);
    }
  }

  lemma {:induction false} InvRun(keep: Keep, s: State, steps: seq<Step>)
    requires Inv(keep, s) && Possible(keep, s, steps)
    ensures Inv(keep, Exec(keep, s, steps))
    decreases |steps|
  {
    if steps != [] {
      InvStep(keep, s, steps[0]);
      InvRun(keep, Apply(keep, s, steps[0]), steps[1..]);
    }
  }

  lemma InitThreads(files: seq<Config.UnitFile>, logs: seq<seq<ThreadAction>>)
    requires LogScripts(logs)
    ensures Registration.BackedThreads(Config.Servers(files), [], Init(files, logs).threads)
    ensures Provenance.ThreadsPlaced([], Init(files, logs).threads)
    ensures Routing.RoutedThreads(Init(files, logs).threads)
    ensures Sources.Fathered(Init(files, logs))
  {
    var threads := Init(files, logs).threads;
    forall t | 0 <= t < |threads|
      ensures Registration.BackedThread(Config.Servers(files), [], threads[t]) && Provenance.ThreadPlaced([], threads[t])
        && Routing.RoutedScript(threads[t].actions) && Sources.Quiet(threads[t].actions)
    {
      var unit, lines :| logs[t] == LogParser.Script(unit, lines);
      Registration.LogRegistersFirst(unit, lines);
      Routing.LogRouted(unit, lines);
      Sources.LogIsQuiet(unit, lines);
      assert threads[t].actions[..0] == [];
    }
  }

  lemma InitClients(files: seq<Config.UnitFile>, logs: seq<seq<ThreadAction>>, c: ClientId)
    ensures ClientInv(Init(files, logs), c)
  {
  }

  lemma InitQueues(keep: Keep, files: seq<Config.UnitFile>, logs: seq<seq<ThreadAction>>)
    requires LogScripts(logs)
    ensures QueueInv(keep, Init(files, logs))
  {
    Config.ServersAreCoherent(files);
    InitThreads(files, logs);
    var c := Init(files, logs).clients;
    assert c.streams.Keys == {} == c.sent.Keys;
    assert Pipeline.Flowing(keep, Init(files, logs));
  }

  lemma InitCommands(files: seq<Config.UnitFile>, logs: seq<seq<ThreadAction>>)
    requires LogScripts(logs)
    ensures CommandInv(Init(files, logs))
  {
    InitThreads(files, logs);
  }

  lemma InitInv(keep: Keep, files: seq<Config.UnitFile>, logs: seq<seq<ThreadAction>>)
    requires LogScripts(logs)
    ensures Inv(keep, Init(files, logs))
  {
    InitQueues(keep, files, logs);
    InitCommands(files, logs);
    forall c: ClientId ensures ClientInv(Init(files, logs), c) {
      InitClients(files, logs, c);
    }
  }

  /** `s` can come about in some run of the daemon. */
  ghost predicate Reachable(keep: Keep, s: State) {
    exists files, logs, steps :: Reaches(keep, files, logs, steps, s)
  }

  ghost predicate Reaches(
    keep: Keep, files: seq<Config.UnitFile>, logs: seq<seq<ThreadAction>>, steps: seq<Step>, s: State)
  {
    && LogScripts(logs)
    && Possible(keep, Init(files, logs), steps)
    && s == Exec(keep, Init(files, logs), steps)
  }

  lemma {:induction false} ExecSnoc(keep: Keep, s: State, steps: seq<Step>, step: Step)
    requires Possible(keep, s, steps) && Enabled(Exec(keep, s, steps), step) && Faithful(Exec(keep, s, steps), step)
    ensures Possible(keep, s, steps + [step])
    ensures Exec(keep, s, steps + [step]) == Apply(keep, Exec(keep, s, steps), step)
    decreases |steps|
  {
    if steps == [] {
      AppendNothing([step]);
      assert [step][1..] == [];
    } else {
      TailAppend(steps, [step]);
      ExecSnoc(keep, Apply(keep, s, steps[0]), steps[1..], step);
    }
  }

  /** What can be reached in one more step is reachable. */
  lemma ReachableStep(keep: Keep, s: State, step: Step)
    requires Reachable(keep, s) && Enabled(s, step) && Faithful(s, step)
    ensures Reachable(keep, Apply(keep, s, step))
  {
    var files, logs, steps :| Reaches(keep, files, logs, steps, s);
    ExecSnoc(keep, Init(files, logs), steps, step);
    assert Reaches(keep, files, logs, steps + [step], Apply(keep, s, step));
  }

  lemma ReachableInv(keep: Keep, s: State)
    requires Reachable(keep, s)
    ensures Inv(keep, s)
  {
    var files, logs, steps :| Reaches(keep, files, logs, steps, s);
    InitInv(keep, files, logs);
    InvRun(keep, Init(files, logs), steps);
  }

  lemma ReachableClient(keep: Keep, s: State, c: ClientId)
    requires Reachable(keep, s)
    ensures ClientInv(s, c)
  {
    ReachableInv(keep, s);
  }

  lemma ReachableStopping(keep: Keep, s: State)
    requires Reachable(keep, s)
    ensures Stopping.TakenInOrder(s.daemon) && Stopping.StoppedLast(s)
  {
    ReachableInv(keep, s);
  }

  lemma ReachableProper(keep: Keep, s: State)
    requires Reachable(keep, s)
    ensures Answers.AllProper(s.daemon)
  {
    ReachableInv(keep, s);
  }

  lemma ReachableStopAsked(keep: Keep, s: State)
    requires Reachable(keep, s)
    ensures StopRequests.StopAsked(s.daemon)
  {
    ReachableInv(keep, s);
  }

  lemma ReachableStopDue(keep: Keep, s: State)
    requires Reachable(keep, s)
    ensures StopRequests.StopDue(s.daemon)
  {
    ReachableInv(keep, s);
  }

  lemma ReachableSeen(keep: Keep, s: State)
    requires Reachable(keep, s)
    ensures Answers.SeenStored(s.daemon) && Answers.NotFoundIsTrue(s.daemon)
  {
    ReachableInv(keep, s);
  }

  lemma ReachableGone(keep: Keep, s: State)
    requires Reachable(keep, s)
    ensures Sources.OnlyGone(s)
  {
    ReachableInv(keep, s);
  }

  // ---------- What this means ----------

  /** No sender lookup ever fails, and the ids in use are distinct and accounted for: the
      ids handed out are exactly the numbers below the count of accepted clients. */
  lemma SenderLookupsSucceed(keep: Keep, s: State)
    requires Reachable(keep, s)
    ensures !s.daemon.crashed
    ensures forall c: ClientId :: c in s.clients.streams <==> c < s.clients.accepted
    ensures s.daemon.handler.Some? ==> s.daemon.handler.value.client in s.clients.streams
    ensures forall i :: 0 <= i < |s.daemon.dq| ==> Lookups.KnownEvent(s.clients.streams.Keys, s.daemon.dq[i])
    ensures forall i :: 0 <= i < |s.manager.mq| ==> Lookups.KnownCmd(s.clients.streams.Keys, s.manager.mq[i])
    ensures forall key :: key in s.manager.subs ==> forall id :: id in s.manager.subs[key] ==> id in s.clients.streams
  {
    ReachableInv(keep, s);
    forall key, id | key in s.manager.subs && id in s.manager.subs[key] ensures id in s.clients.streams {
      assert Lookups.KnownList(s.clients.streams.Keys, s.manager.subs[key]);
    }
  }

  /** Deliveries made, on their way and still to be emitted are together one sequential
      replay of the manager's history; and that replay hands every dispatched event once to
      each subscription live at that moment, oldest first. */
  lemma PipelineRefinement(keep: Keep, s: State)
    requires Reachable(keep, s)
    ensures s.daemon.delivered + Pipeline.Sends(s.daemon.dq) + s.manager.sending
            + Replay(keep, s.manager.subs, s.manager.mq)
         == Ideal(keep, s.manager.hist)
  {
    ReachableInv(keep, s);
    ReplayIsIdeal(keep, s.manager.hist);
  }

  /** A listening client has received exactly the events of the deliveries made to it. */
  lemma StreamsHoldDeliveries(keep: Keep, s: State, c: ClientId)
    requires Reachable(keep, s) && c in s.clients.streams
    ensures Replies.Received(
              Replies.Noticed(s.clients.streams[c]), Collect(s.daemon.delivered, Replies.EventDelivered(c)), c in s.clients.dead)
  {
    ReachableClient(keep, s, c);
  }

  /** The k-th direct response after the handshake fits the k-th command the client sent. */
  ghost predicate PairedUp(direct: seq<DaemonResponse>, sent: seq<DaemonCmd>) {
    && |direct| <= 2 + |sent|
    && (forall k :: 0 <= k < |direct| && k < 2 ==> direct[k] == [SetSender, DaemonVersion][k])
    && (forall k :: 0 <= k < |direct| - 2 ==> Answers.Fits(sent[k], direct[k + 2]))
  }

  /** The direct responses are the handshake and then the responses of the client's handled
      commands, as computed for them, in the order in which it sent them; a listening client
      has all of them. */
  lemma RequestResponsePairing(keep: Keep, s: State, c: ClientId)
    requires Reachable(keep, s) && c in s.clients.streams
    ensures var direct := Replies.Direct(s.clients.streams[c]);
            var due := [SetSender, DaemonVersion] + Collect(s.daemon.handled, Replies.ResponseHandled(c));
            direct <= due && (c !in s.clients.dead ==> direct == due)
    ensures Collect(s.daemon.handled, Replies.CommandHandled(c)) <= Replies.SentBy(s, c)
    ensures forall i :: 0 <= i < |s.daemon.handled| ==> Answers.Proper(s.daemon.handled[i])
    ensures PairedUp(Replies.Direct(s.clients.streams[c]), Replies.SentBy(s, c))
  {
    ReachableClient(keep, s, c);
    ReachableProper(keep, s);
    Replies.HandledIsSent(s, c);
    HandledPairs(s.daemon.handled, c);
    PairsFrom(s, c);
  }

  lemma PairsFrom(s: State, c: ClientId)
    requires Replies.InOrder(s, c) && Replies.Paired(s, c) && c in s.clients.streams
    requires var responses, cmds := Collect(s.daemon.handled, Replies.ResponseHandled(c)), Collect(s.daemon.handled, Replies.CommandHandled(c));
             |responses| == |cmds| && forall k :: 0 <= k < |cmds| ==> Answers.Fits(cmds[k], responses[k])
    ensures PairedUp(Replies.Direct(s.clients.streams[c]), Replies.SentBy(s, c))
  {
    var responses := Collect(s.daemon.handled, Replies.ResponseHandled(c));
    var cmds := Collect(s.daemon.handled, Replies.CommandHandled(c));
    var direct, sent := Replies.Direct(s.clients.streams[c]), Replies.SentBy(s, c);
    assert cmds <= sent;
    assert direct <= Replies.HANDSHAKE + responses;
    forall k | 0 <= k < |direct| - 2 ensures Answers.Fits(sent[k], direct[k + 2]) {
      assert sent[k] == cmds[k] && direct[k + 2] == responses[k];
    }
  }

  lemma {:induction false} HandledPairs(handled: seq<Handler>, c: ClientId)
    requires forall i :: 0 <= i < |handled| ==> Answers.Proper(handled[i])
    ensures var responses, cmds := Collect(handled, Replies.ResponseHandled(c)), Collect(handled, Replies.CommandHandled(c));
            && |responses| == |cmds|
            && forall k :: 0 <= k < |cmds| ==> Answers.Fits(cmds[k], responses[k])
  {
    if handled != [] {
      Answers.ProperFits(handled[0]);
      HandledPairs(handled[1..], c);
    }
  }

  /** Message `i` of the stream, an event, comes after the response to a command that subscribed
      `c` to the kind of the event and the unit it is about. */
  ghost predicate FollowsSubscription(s: State, c: ClientId, i: nat)
    requires c in s.clients.streams && i < |s.clients.streams[c]| && s.clients.streams[c][i].Notice?
  {
    var direct, sent := Replies.Direct(s.clients.streams[c]), Replies.SentBy(s, c);
    exists k: nat ::
      && k < |sent| && 2 + k < |direct|
      && Acknowledgement.Subscribing(sent[k], direct[2 + k], Acknowledgement.KeyOf(s.clients.streams[c][i].event))
      && Acknowledgement.ResponseBefore(s.clients.streams[c], i, k)
  }

  lemma {:induction false} FollowsFrom(s: State, c: ClientId, i: nat)
    requires Replies.InOrder(s, c) && Replies.Paired(s, c) && Acknowledgement.Acknowledged(s, c)
    requires c in s.clients.streams && i < |s.clients.streams[c]| && s.clients.streams[c][i].Notice?
    ensures FollowsSubscription(s, c, i)
  {
    var stream, answered := s.clients.streams[c], Acknowledgement.AnsweredTo(s.daemon.handled, c);
    var responses := Collect(s.daemon.handled, Replies.ResponseHandled(c));
    var events := Collect(s.daemon.delivered, Replies.EventDelivered(c));
    var key := Acknowledgement.KeyOf(stream[i].event);
    var k: nat :| k < |answered| && Acknowledgement.Granting(answered[k], key) && Acknowledgement.ResponseBefore(stream, i, k);
    AnsweredParts(s.daemon.handled, c);
    Replies.HandledIsSent(s, c);
    Replies.DirectGrows(stream, i);
    Replies.DirectAt(stream, responses, events, c in s.clients.dead, k);
    assert Replies.SentBy(s, c)[k] == Collect(s.daemon.handled, Replies.CommandHandled(c))[k];
  }

  /** An event in a stream comes after the response to a command that subscribed to it. */
  lemma AcknowledgedBeforeEvents(keep: Keep, s: State, c: ClientId, i: nat)
    requires Reachable(keep, s) && c in s.clients.streams && i < |s.clients.streams[c]| && s.clients.streams[c][i].Notice?
    ensures FollowsSubscription(s, c, i)
  {
    ReachableClient(keep, s, c);
    FollowsFrom(s, c, i);
  }

  lemma {:induction false} AnsweredParts(handled: seq<Handler>, c: ClientId)
    ensures var answered := Acknowledgement.AnsweredTo(handled, c);
            var responses, cmds := Collect(handled, Replies.ResponseHandled(c)), Collect(handled, Replies.CommandHandled(c));
            && |answered| == |responses| == |cmds|
            && forall k :: 0 <= k < |answered| ==> answered[k].cmd == cmds[k] && answered[k].response == responses[k]
  {
    if handled != [] {
      AnsweredParts(handled[1..], c);
    }
  }

  /** Whoever hears that an installation or update is complete can rely on the unit: it is
      stored, stays stored, and no later answer says that it does not exist. */
  lemma CompletionImpliesRegistration(keep: Keep, s: State, steps: seq<Step>, c: ClientId, event: ServerEvent)
    requires Reachable(keep, s) && Possible(keep, s, steps)
    requires c in s.clients.streams && Notice(event) in s.clients.streams[c] && event.Completion()
    ensures event.serverId in s.daemon.servers
    ensures var d, d' := s.daemon, Exec(keep, s, steps).daemon;
            && event.serverId in d'.servers
            && |d.handled| <= |d'.handled|
            && forall i :: |d.handled| <= i < |d'.handled| ==> d'.handled[i].response != ServerNotFound(event.serverId)
  {
    ReachableInv(keep, s);
    Answers.StoredStaysKnown(keep, s, steps, event.serverId);
  }

  /** The commands answered are exactly those that arrived before the `Stopped` event. */
  ghost predicate AnsweredUpToStop(d: Daemon) {
    && 0 < d.taken <= |d.arrivals| && d.arrivals[d.taken - 1] == SendStopped
    && Collect(d.handled, Stopping.RequestHandled) == Collect(d.arrivals[..d.taken - 1], Stopping.RequestArrived)
  }

  lemma StopFrom(d: Daemon)
    requires Stopping.TakenInOrder(d) && d.handler.None? && d.taken > 0 && d.arrivals[d.taken - 1] == SendStopped
    ensures AnsweredUpToStop(d)
  {
    assert d.arrivals[..d.taken] == d.arrivals[..d.taken - 1] + [SendStopped];
    CollectSnoc(d.arrivals[..d.taken - 1], SendStopped, Stopping.RequestArrived);
    assert Collect(d.handled, Stopping.RequestHandled) + [] == Collect(d.handled, Stopping.RequestHandled);
    assert Collect(d.arrivals[..d.taken - 1], Stopping.RequestArrived) + []
        == Collect(d.arrivals[..d.taken - 1], Stopping.RequestArrived);
  }

  /** At the end, every command that arrived before the `Stopped` event has been answered,
      and every listening client has all its answers and then `Stopped`. */
  lemma StoppedComesLast(keep: Keep, s: State, c: ClientId)
    requires Reachable(keep, s) && s.daemon.exited && c in s.clients.streams && c !in s.clients.dead
    ensures AnsweredUpToStop(s.daemon)
    ensures Stopping.StreamEnds(s.clients.streams[c], true)
    ensures Replies.Direct(s.clients.streams[c])
         == [SetSender, DaemonVersion] + Collect(s.daemon.handled, Replies.ResponseHandled(c))
  {
    ReachableClient(keep, s, c);
    ReachableStopping(keep, s);
    StopFrom(s.daemon);
  }
}
