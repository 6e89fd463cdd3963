/** The client's side: the loops that wait for an installation, an update or the end of the
    daemon, and when they end. */
module Clients {
  import opened Sequences
  import opened Protocol
  import opened Subscriptions
  import opened System
  import opened Workers
  import opened Sessions
  import Semver
  import Installer
  import Updater
  import Hearing
  import Replies
  import Acknowledgement
  import Answers
  import Stopping
  import StopRequests
  import Runs
  import Drain

  /** How waiting ends: with an event, with a message that is no event, or not at all because
      nothing more arrives. */
  datatype LoopEnd = Waiting | Done(event: ServerEvent) | Interrupted(response: DaemonResponse)

  predicate PassesOver(ends: ServerEvent -> bool, message: DaemonResponse) {
    message.Notice? && !ends(message.event)
  }

  /** One message is read whatever it says; then events are read up to the first that ends
      the wait, or up to a message that is no event. `used` messages are read in all. */
  ghost predicate Reads(ends: ServerEvent -> bool, messages: seq<DaemonResponse>, end: LoopEnd, used: nat) {
    && used <= |messages|
    && (forall i :: 1 <= i < used - 1 ==> PassesOver(ends, messages[i]))
    && match end
       case Waiting => used == |messages| && (used >= 2 ==> PassesOver(ends, messages[used - 1]))
       case Done(event) => used >= 2 && messages[used - 1] == Notice(event) && ends(event)
       case Interrupted(response) => used >= 2 && messages[used - 1] == response && !response.Notice?
  }

  /** A connected client. `incoming` is everything the daemon sends after the handshake. */
  class Client {
    const incoming: seq<DaemonResponse>
    var read: nat
    var sent: seq<DaemonCmd>

    constructor (incoming: seq<DaemonResponse>)
      ensures this.incoming == incoming && read == 0 && sent == []
    {
      this.incoming, read, sent := incoming, 0, [];
    }

    method Send(cmd: DaemonCmd)
      modifies `sent
      ensures sent == old(sent) + [cmd]
    {
      sent := sent + [cmd];
    }

    /** The next message; none if no message will ever come. */
    method Receive() returns (message: Option<DaemonResponse>)
      requires read <= |incoming|
      modifies `read
      ensures if old(read) < |incoming| then message == Some(incoming[old(read)]) && read == old(read) + 1
              else message == None && read == old(read)
    {
      message := None;
      if read < |incoming| {
        message := Some(incoming[read]);
        read := read + 1;
      }
    }

    method Install(request: InstallRequest) returns (end: LoopEnd)
      requires read <= |incoming|
      modifies this
      ensures sent == old(sent) + [InstallServer(request)]
      ensures old(read) <= read <= |incoming|
      ensures Reads(EndsInstall, incoming[old(read)..], end, read - old(read))
      ensures end.Done? ==> end.event.InstallationComplete? || end.event.InstallationFailed?
      ensures forall i :: old(read) + 1 <= i < read && incoming[i].Notice? && (incoming[i].event.InstallationComplete? || incoming[i].event.InstallationFailed?)
                ==> i == read - 1 && end == Done(incoming[i].event)
    {
      Send(InstallServer(request));
      var _ := Receive();
      var message := Receive();
      while message.Some? && message.value.Notice?
        invariant sent == old(sent) + [InstallServer(request)]
        invariant old(read) <= read <= |incoming|
        invariant message.Some? ==> read >= old(read) + 2 && message.value == incoming[read - 1]
        invariant message.None? ==> read == |incoming|
        invariant forall i :: old(read) + 1 <= i < (if message.Some? then read - 1 else read) ==> PassesOver(EndsInstall, incoming[i])
        decreases |incoming| - read, message.Some?
      {
        match message.value.event
        case InstallationComplete(_) => return Done(message.value.event);
        case InstallationFailed(_, _) => return Done(message.value.event);
        case _ => message := Receive();
      }
      end := if message.Some? then Interrupted(message.value) else Waiting;
    }

    method Update(unitId: UnitId, requested: Option<Semver.Version>) returns (end: LoopEnd)
      requires read <= |incoming|
      modifies this
      ensures sent == old(sent) + [UpdateServer(unitId, requested)]
      ensures old(read) <= read <= |incoming|
      ensures Reads(EndsUpdate, incoming[old(read)..], end, read - old(read))
      ensures end.Done? ==> end.event.UpdateComplete? || end.event.UpdateFailed?
      ensures forall i :: old(read) + 1 <= i < read && incoming[i].Notice? && (incoming[i].event.UpdateComplete? || incoming[i].event.UpdateFailed?)
                ==> i == read - 1 && end == Done(incoming[i].event)
    {
      Send(UpdateServer(unitId, requested));
      var _ := Receive();
      var message := Receive();
      while message.Some? && message.value.Notice?
        invariant sent == old(sent) + [UpdateServer(unitId, requested)]
        invariant old(read) <= read <= |incoming|
        invariant message.Some? ==> read >= old(read) + 2 && message.value == incoming[read - 1]
        invariant message.None? ==> read == |incoming|
        invariant forall i :: old(read) + 1 <= i < (if message.Some? then read - 1 else read) ==> PassesOver(EndsUpdate, incoming[i])
        decreases |incoming| - read, message.Some?
      {
        match message.value.event
        case UpdateComplete(_) => return Done(message.value.event);
        case UpdateFailed(_, _) => return Done(message.value.event);
        case _ => message := Receive();
      }
      end := if message.Some? then Interrupted(message.value) else Waiting;
    }

    /** Two messages are read; the flags say whether they were `Ok` and `Stopped`. */
    method StopDaemon() returns (acknowledged: bool, stopped: bool)
      requires read <= |incoming|
      modifies this
      ensures sent == old(sent) + [DaemonCmd.StopDaemon]
      ensures acknowledged <==> old(read) < |incoming| && incoming[old(read)] == Ok
      ensures stopped <==> old(read) + 1 < |incoming| && incoming[old(read) + 1] == DaemonStopped
      ensures read == if old(read) + 2 <= |incoming| then old(read) + 2 else |incoming|
    {
      Send(DaemonCmd.StopDaemon);
      var first := Receive();
      acknowledged := first == Some(Ok);
      var second := Receive();
      stopped := second == Some(DaemonStopped);
    }
  }

  // ---------- The stream of a client with one command ----------

  lemma {:induction false} DirectShrinks(xs: seq<DaemonResponse>)
    ensures |Replies.Direct(xs)| <= |xs|
    ensures (forall i :: 0 <= i < |xs| ==> !xs[i].Notice? && !xs[i].DaemonStopped?) ==> Replies.Direct(xs) == xs
    ensures Replies.Direct(xs) == [] ==> forall i :: 0 <= i < |xs| ==> xs[i].Notice? || xs[i].DaemonStopped?
  {
    if xs != [] {
      DirectShrinks(xs[1..]);
      if Replies.Direct(xs) == [] {
        assert forall i :: 1 <= i < |xs| ==> xs[i] == xs[1..][i - 1];
      }
    }
  }

  /** The first three messages are the direct ones; only events and `Stopped` can follow. */
  lemma DirectFirst(stream: seq<DaemonResponse>, direct: seq<DaemonResponse>)
    requires Replies.Direct(stream) == direct
    requires forall i :: 0 <= i < |stream| && stream[i].Notice? ==> i >= |direct|
    requires DaemonStopped !in stream
    ensures |stream| >= |direct| && stream[..|direct|] == direct
    ensures forall i :: |direct| <= i < |stream| ==> stream[i].Notice?
  {
    var n := |direct|;
    DirectShrinks(stream);
    DirectShrinks(stream[..n]);
    assert stream == stream[..n] + stream[n..];
    CollectAppend(stream[..n], stream[n..], Replies.ReplyIn);
    assert Replies.Direct(stream) == Replies.Direct(stream[..n]) + Replies.Direct(stream[n..]);
    assert Replies.Direct(stream[..n]) == stream[..n];
    assert |Replies.Direct(stream[n..])| == 0;
    DirectShrinks(stream[n..]);
    forall i | n <= i < |stream| ensures stream[i].Notice? {
      assert stream[i] == stream[n..][i - n];
    }
  }

  /** The handshake, one answer, and then events only. */
  ghost predicate OneAnswer(stream: seq<DaemonResponse>, r: DaemonResponse) {
    && |stream| >= 3 && stream[..3] == [SetSender, DaemonVersion, r]
    && forall i :: 3 <= i < |stream| ==> stream[i].Notice?
  }

  /** Events come after the answer to the only command, and only if that one subscribes. */
  lemma OneAnswerFirst(keep: Keep, s: State, c: ClientId, cmd: DaemonCmd, r: DaemonResponse)
    requires Runs.Reachable(keep, s) && !s.daemon.exited
    requires c in s.clients.streams && Replies.SentBy(s, c) == [cmd]
    requires Replies.Direct(s.clients.streams[c]) == [SetSender, DaemonVersion, r]
    ensures OneAnswer(s.clients.streams[c], r)
    ensures (forall key :: !Acknowledgement.Subscribing(cmd, r, key)) ==> |s.clients.streams[c]| == 3
  {
    var stream := s.clients.streams[c];
    forall i | 0 <= i < |stream| && stream[i].Notice? 
      ensures i >= 3 && Acknowledgement.Subscribing(cmd, r, Acknowledgement.KeyOf(stream[i].event))
    {
      Runs.AcknowledgedBeforeEvents(keep, s, c, i);
      DirectShrinks(stream[..i]);
    }
    Runs.ReachableStopping(keep, s);
    DirectFirst(stream, [SetSender, DaemonVersion, r]);
    assert |stream| > 3 ==> stream[3].Notice?;
  }

  // ---------- Installing and updating ----------

  lemma LastNoticed(own: seq<ServerEvent>, stream: seq<DaemonResponse>)
    requires own != [] && HeardInOrder(own, Replies.Noticed(stream))
    ensures Notice(own[|own| - 1]) in stream
  {
    var at :| EmbedsAt(own, Replies.Noticed(stream), at);
    assert own[|own| - 1] == Replies.Noticed(stream)[at[|own| - 1]];
    NoticedIn(stream, own[|own| - 1]);
  }

  lemma {:induction false} NoticedIn(stream: seq<DaemonResponse>, event: ServerEvent)
    ensures event in Replies.Noticed(stream) <==> Notice(event) in stream
  {
    if stream != [] && stream[0] != Notice(event) {
      NoticedIn(stream[1..], event);
    }
  }

  /** The wait ends with an event if one that ends it has been received. */
  lemma WaitEnds(
    ends: ServerEvent -> bool, stream: seq<DaemonResponse>, id: UnitId, own: seq<ServerEvent>, r: DaemonResponse,
    end: LoopEnd, used: nat)
    requires OneAnswer(stream, r) && !r.Notice? && Reads(ends, stream[2..], end, used)
    requires own != [] && HeardInOrder(own, Replies.Noticed(stream)) && ends(own[|own| - 1]) && AllAbout(id, stream)
    ensures end.Done? && ends(end.event) && end.event.serverId == id
  {
    LastNoticed(own, stream);
    var i :| 0 <= i < |stream| && stream[i] == Notice(own[|own| - 1]);
    assert stream[0] == stream[..3][0] && stream[1] == stream[..3][1] && stream[2] == stream[..3][2];
    assert stream[2..][i - 2] == stream[i];
    assert !PassesOver(ends, stream[i]);
    assert forall j :: 1 <= j < |stream[2..]| ==> stream[2..][j] == stream[j + 2];
    assert Notice(end.event) in stream;
    NoticedIn(stream, end.event);
  }

  predicate DoneWith(install: bool, id: UnitId, end: LoopEnd) {
    end.Done? && EndingOf(install, end.event) && end.event.serverId == id
  }

  /** A job's own events: progress, and then its end unless it panicked. */
  ghost predicate OwnEvents(install: bool, id: UnitId, own: seq<ServerEvent>) {
    && (Session(id, own) ==> EndingOf(install, own[|own| - 1]))
    && (!Session(id, own) ==> forall i :: 0 <= i < |own| ==> own[i].ActionProgress?)
  }

  lemma InstallEventsOwn(request: InstallRequest, env: Installer.InstallEnv)
    ensures OwnEvents(true, request.unitId, InstallEvents(request, env))
  {
    InstallEventsEnd(request, env);
  }

  lemma InstallOwnEvents(threads: seq<Thread>, h: Handler, request: InstallRequest)
    requires Own(threads, h) == [InstallationFailed(request.unitId, ExistsText())] || InstallWorker(threads, h, request)
    ensures OwnEvents(true, request.unitId, Own(threads, h))
  {
    if Own(threads, h) != [InstallationFailed(request.unitId, ExistsText())] {
      var env :| LaunchedFor(threads, h, Installer.InstallScript(request, env)) && Own(threads, h) == InstallEvents(request, env);
      InstallEventsOwn(request, env);
    }
  }

  lemma UpdateEventsOwn(requested: Option<Semver.Version>, config: ServerUnitConfig, env: Updater.UpdateEnv)
    ensures OwnEvents(false, config.unit.id, UpdateEvents(requested, config, env))
  {
    UpdateEventsEnd(requested, config, env);
  }

  lemma {:induction false} UpdateOwnEvents(threads: seq<Thread>, h: Handler, requested: Option<Semver.Version>, config: ServerUnitConfig)
    requires UpdateWorker(threads, h, requested, config)
    ensures OwnEvents(false, config.unit.id, Own(threads, h))
  {
    var env :| LaunchedFor(threads, h, Updater.UpdateScript(requested, config, env)) && Own(threads, h) == UpdateEvents(requested, config, env);
    UpdateEventsOwn(requested, config, env);
  }

  lemma {:induction false} AllNoticed(messages: seq<DaemonResponse>)
    requires forall i :: 0 <= i < |messages| ==> messages[i].Notice?
    ensures |Replies.Noticed(messages)| == |messages|
    ensures forall i :: 0 <= i < |messages| ==> messages[i] == Notice(Replies.Noticed(messages)[i])
  {
    if messages != [] {
      AllNoticed(messages[1..]);
      assert forall i :: 1 <= i < |messages| ==> messages[i] == messages[1..][i - 1];
    }
  }

  /** After the answer, the stream is its events. */
  lemma EventsFollow(stream: seq<DaemonResponse>, r: DaemonResponse)
    requires OneAnswer(stream, r) && !r.Notice?
    ensures var heard := Replies.Noticed(stream);
            |stream| == 3 + |heard| && forall i :: 0 <= i < |heard| ==> stream[3 + i] == Notice(heard[i])
  {
    var first, rest := stream[..3], stream[3..];
    assert stream == first + rest;
    assert forall i :: 0 <= i < |first| ==> !first[i].Notice?;
    CollectNothing(first, Replies.EventIn);
    CollectAppend(first, rest, Replies.EventIn);
    AppendNothing(Replies.Noticed(rest));
    AllNoticed(rest);
  }

  /** How the wait ends if the client hears its own job alone: with the job's last event, or
      not at all if the job panicked. */
  lemma AloneEnds(
    stream: seq<DaemonResponse>, install: bool, id: UnitId, own: seq<ServerEvent>, r: DaemonResponse, end: LoopEnd, used: nat)
    requires OneAnswer(stream, r) && !r.Notice? && Replies.Noticed(stream) == own && OwnEvents(install, id, own)
    requires Reads(e => EndingOf(install, e), stream[2..], end, used)
    ensures end == if Session(id, own) then Done(own[|own| - 1]) else Waiting
  {
    var ends := (e: ServerEvent) => EndingOf(install, e);
    EventsFollow(stream, r);
    var messages := stream[2..];
    forall i | 0 <= i < |own| ensures messages[1 + i] == Notice(own[i]) {
      assert messages[1 + i] == stream[3 + i];
    }
    assert |messages| == 1 + |own|;
    if !end.Waiting? {
      assert messages[1 + (used - 2)] == Notice(own[used - 2]);
    }
    if Session(id, own) {
      assert messages[1 + (|own| - 1)] == Notice(own[|own| - 1]);
      assert !PassesOver(ends, messages[|own|]);
    }
  }

  /** The wait of a client whose only command is a job: it ends with an event that ends a job
      of this kind on the unit, if its own job has a final event; and if no other client's job
      interferes, it ends exactly then, and with that event. */
  ghost predicate WaitsForOwn(s: State, h: Handler, install: bool, id: UnitId, end: LoopEnd) {
    var own := Own(s.threads, h);
    && (Session(id, own) ==> DoneWith(install, id, end))
    && (OnlyJob(s.daemon.handled, id, h.client) ==> end == if Session(id, own) then Done(own[|own| - 1]) else Waiting)
  }

  lemma JobWait(s: State, h: Handler, install: bool, id: UnitId, end: LoopEnd, used: nat)
    requires h.client in s.clients.streams && OneAnswer(s.clients.streams[h.client], Ok)
    requires TellsOwn(s, h, id) && OwnEvents(install, id, Own(s.threads, h))
    requires Reads(e => EndingOf(install, e), s.clients.streams[h.client][2..], end, used)
    ensures WaitsForOwn(s, h, install, id, end)
  {
    var stream, own := s.clients.streams[h.client], Own(s.threads, h);
    if Session(id, own) {
      WaitEnds(e => EndingOf(install, e), stream, id, own, Ok, end, used);
    }
    if OnlyJob(s.daemon.handled, id, h.client) {
      AloneEnds(stream, install, id, own, Ok, end, used);
    }
  }

  lemma SameEnds(ends: ServerEvent -> bool, ends': ServerEvent -> bool, messages: seq<DaemonResponse>, end: LoopEnd, used: nat)
    requires Reads(ends, messages, end, used) && forall e :: ends(e) == ends'(e)
    ensures Reads(ends', messages, end, used)
  {
  }

  /** The wait of a client whose handled command asked for the installation. */
  ghost predicate InstallWaits(s: State, h: Handler, request: InstallRequest)
    requires h.client in s.clients.streams && |s.clients.streams[h.client]| >= 2
  {
    forall end, used :: Reads(EndsInstall, s.clients.streams[h.client][2..], end, used) ==> WaitsForOwn(s, h, true, request.unitId, end)
  }

  /** The same for an update, which waits for ever if the unit was not stored. */
  ghost predicate UpdateWaits(s: State, h: Handler, id: UnitId)
    requires h.client in s.clients.streams && |s.clients.streams[h.client]| >= 2
  {
    forall end, used :: Reads(EndsUpdate, s.clients.streams[h.client][2..], end, used)
      ==> if id in h.seen then WaitsForOwn(s, h, false, id, end) else end == Waiting
  }

  /** A client that asks for one installation, once the daemon is idle and unless a removal
      took its subscriptions away: its wait goes by the very worker its command launched, or
      by the refusal if the unit was stored. */
  lemma InstallClientFinishes(keep: Keep, s: State, c: ClientId, request: InstallRequest, n: nat) returns (h: Handler)
    requires Runs.Reachable(keep, s) && Idle(s)
    requires c in s.clients.streams && c !in s.clients.dead && Replies.SentBy(s, c) == [InstallServer(request)]
    requires OwnBefore(s, c, n) && Hearing.Undisturbed(keep, s.manager.hist[..n], c)
    ensures OnlyCommandOf(s, c, h) && h.cmd == InstallServer(request) && OneAnswer(s.clients.streams[c], Ok)
    ensures request.unitId in h.seen ==> Own(s.threads, h) == [InstallationFailed(request.unitId, ExistsText())]
    ensures request.unitId !in h.seen ==> InstallWorker(s.threads, h, request)
    ensures InstallWaits(s, h, request)
  {
    h := InstallSession(keep, s, c, request, n);
    OneAnswerFirst(keep, s, c, InstallServer(request), Ok);
    InstallOwnEvents(s.threads, h, request);
    forall end, used | Reads(EndsInstall, s.clients.streams[c][2..], end, used) ensures WaitsForOwn(s, h, true, request.unitId, end) {
      SameEnds(EndsInstall, e => EndingOf(true, e), s.clients.streams[c][2..], end, used);
      JobWait(s, h, true, request.unitId, end, used);
    }
  }

  /** The same for an update of a unit that was stored when the command was handled. If it was
      not, the client is answered so and waits for ever. */
  lemma UpdateClientFinishes(keep: Keep, s: State, c: ClientId, id: UnitId, requested: Option<Semver.Version>, n: nat)
    returns (h: Handler)
    requires Runs.Reachable(keep, s) && Idle(s)
    requires c in s.clients.streams && c !in s.clients.dead && Replies.SentBy(s, c) == [UpdateServer(id, requested)]
    requires OwnBefore(s, c, n) && Hearing.Undisturbed(keep, s.manager.hist[..n], c)
    ensures OnlyCommandOf(s, c, h) && h.cmd == UpdateServer(id, requested)
    ensures OneAnswer(s.clients.streams[c], if id in h.seen then Ok else ServerNotFound(id))
    ensures id in h.seen ==> UpdateWorker(s.threads, h, requested, h.seen[id])
    ensures UpdateWaits(s, h, id)
  {
    h := UpdateSession(keep, s, c, id, requested, n);
    OneAnswerFirst(keep, s, c, UpdateServer(id, requested), if id in h.seen then Ok else ServerNotFound(id));
    if id in h.seen {
      SeenUnit(keep, s, h, id);
      UpdateOwnEvents(s.threads, h, requested, h.seen[id]);
    }
    forall end, used | Reads(EndsUpdate, s.clients.streams[c][2..], end, used)
      ensures if id in h.seen then WaitsForOwn(s, h, false, id, end) else end == Waiting
    {
      if id in h.seen {
        SameEnds(EndsUpdate, e => EndingOf(false, e), s.clients.streams[c][2..], end, used);
        JobWait(s, h, false, id, end, used);
      }
    }
  }

  lemma SeenUnit(keep: Keep, s: State, h: Handler, id: UnitId)
    requires Runs.Reachable(keep, s) && h in s.daemon.handled && id in h.seen
    ensures h.seen[id].unit.id == id
  {
    Runs.ReachableProper(keep, s);
    var choice :| Answers.ProperFor(h, choice);
  }

  // ---------- Stopping the daemon ----------

  lemma {:induction false} SomeHandled(handled: seq<Handler>, c: ClientId)
    ensures Collect(handled, Replies.CommandHandled(c)) == [] <==> forall i :: 0 <= i < |handled| ==> handled[i].client != c
    ensures forall i :: 0 <= i < |handled| && handled[i].client == c ==> handled[i].cmd in Collect(handled, Replies.CommandHandled(c))
  {
    if handled != [] {
      SomeHandled(handled[1..], c);
      assert forall i :: 1 <= i < |handled| ==> handled[i] == handled[1..][i - 1];
    }
  }

  lemma StreamIsDirect(stream: seq<DaemonResponse>)
    requires Stopping.StreamEnds(stream, true) && forall i :: 0 <= i < |stream| ==> !stream[i].Notice?
    ensures stream == Replies.Direct(stream) + [DaemonStopped]
  {
    var front := stream[..|stream| - 1];
    assert stream == front + [DaemonStopped];
    DirectShrinks(front);
    CollectSnoc(front, DaemonStopped, Replies.ReplyIn);
    AppendNothing(front);
  }

  /** No event and no early end in the stream of a client whose only command is `StopDaemon`. */
  lemma StopStreamIsDirect(keep: Keep, s: State, c: ClientId)
    requires Runs.Reachable(keep, s) && s.daemon.exited
    requires c in s.clients.streams && c !in s.clients.dead && Replies.SentBy(s, c) == [DaemonCmd.StopDaemon]
    ensures s.clients.streams[c] == Replies.Direct(s.clients.streams[c]) + [DaemonStopped]
  {
    var stream := s.clients.streams[c];
    Runs.StoppedComesLast(keep, s, c);
    forall i | 0 <= i < |stream| ensures !stream[i].Notice? {
      if stream[i].Notice? {
        Runs.AcknowledgedBeforeEvents(keep, s, c, i);
        assert false;
      }
    }
    StreamIsDirect(stream);
  }

  /** The client's command was taken before the daemon ended. */
  ghost predicate WasHandled(handled: seq<Handler>, c: ClientId) {
    exists i :: 0 <= i < |handled| && handled[i].client == c
  }

  lemma StopAnswer(handled: seq<Handler>, c: ClientId)
    requires Collect(handled, Replies.CommandHandled(c)) <= [DaemonCmd.StopDaemon]
    requires var responses, cmds := Collect(handled, Replies.ResponseHandled(c)), Collect(handled, Replies.CommandHandled(c));
             |responses| == |cmds| && forall k :: 0 <= k < |cmds| ==> Answers.Fits(cmds[k], responses[k])
    ensures Collect(handled, Replies.ResponseHandled(c)) == if WasHandled(handled, c) then [Ok] else []
  {
    SomeHandled(handled, c);
    var cmds, responses := Collect(handled, Replies.CommandHandled(c)), Collect(handled, Replies.ResponseHandled(c));
    if WasHandled(handled, c) {
      assert |cmds| == 1 && cmds[0] == DaemonCmd.StopDaemon;
      assert Answers.Fits(cmds[0], responses[0]);
    }
  }

  lemma RequesterHandled(keep: Keep, s: State, c: ClientId)
    requires Runs.Reachable(keep, s) && s.daemon.exited && OnlyRequester(s, c)
    ensures WasHandled(s.daemon.handled, c)
  {
    Runs.ReachableStopping(keep, s);
    Runs.ReachableStopAsked(keep, s);
    var d := s.daemon;
    assert StopRequests.EndsDaemon(d.arrivals[d.taken - 1]);
    var i :| 0 <= i < |d.handled| && d.handled[i].cmd == DaemonCmd.StopDaemon;
    var other := d.handled[i].client;
    Runs.ReachableClient(keep, s, other);
    Replies.HandledIsSent(s, other);
    SomeHandled(d.handled, other);
    assert DaemonCmd.StopDaemon in Replies.SentBy(s, other);
  }

  /** A client whose only command is `StopDaemon` reads `Stopped` last, after `Ok` if its
      command was taken before the end; which it was if no one else asked for the end. */
  lemma StopClientFinishes(keep: Keep, s: State, c: ClientId)
    requires Runs.Reachable(keep, s) && s.daemon.exited
    requires c in s.clients.streams && c !in s.clients.dead && Replies.SentBy(s, c) == [DaemonCmd.StopDaemon]
    ensures s.clients.streams[c]
         == [SetSender, DaemonVersion] + (if WasHandled(s.daemon.handled, c) then [Ok] else []) + [DaemonStopped]
    ensures OnlyRequester(s, c) ==> WasHandled(s.daemon.handled, c)
  {
    StopStreamIsDirect(keep, s, c);
    Runs.StoppedComesLast(keep, s, c);
    Runs.ReachableClient(keep, s, c);
    Runs.ReachableProper(keep, s);
    Replies.HandledIsSent(s, c);
    Runs.HandledPairs(s.daemon.handled, c);
    StopAnswer(s.daemon.handled, c);
    if OnlyRequester(s, c) {
      RequesterHandled(keep, s, c);
    }
  }

  /** A daemon that was asked for the end is only at rest when it has ended. */
  lemma AtRestMeansEnded(keep: Keep, s: State, c: ClientId)
    requires Runs.Reachable(keep, s) && (s.daemon.exited || Idle(s)) && DaemonCmd.StopDaemon in Replies.SentBy(s, c)
    ensures s.daemon.exited
  {
    if Idle(s) {
      Runs.ReachableClient(keep, s, c);
      Runs.ReachableStopping(keep, s);
      Runs.ReachableStopDue(keep, s);
      var cmds := Collect(s.daemon.handled, Replies.CommandHandled(c));
      AppendNothing(cmds);
      CommandWasHandled(s.daemon.handled, c, DaemonCmd.StopDaemon);
      assert |s.daemon.arrivals[s.daemon.taken..]| == 0;
      StopRequests.DrainedMeansEnded(s.daemon);
    }
  }

  lemma {:induction false} CommandWasHandled(handled: seq<Handler>, c: ClientId, cmd: DaemonCmd)
    requires cmd in Collect(handled, Replies.CommandHandled(c))
    ensures exists i :: 0 <= i < |handled| && handled[i].cmd == cmd
  {
    if handled[0].cmd != cmd {
      CommandWasHandled(handled[1..], c, cmd);
      var i :| 0 <= i < |handled[1..]| && handled[1..][i].cmd == cmd;
      assert handled[i + 1].cmd == cmd;
    }
  }

  ghost predicate OnlyRequester(s: State, c: ClientId) {
    forall other: ClientId :: other != c ==> DaemonCmd.StopDaemon !in Replies.SentBy(s, other)
  }

  lemma SameRequester(s: State, s': State, c: ClientId)
    requires s'.clients.sent == s.clients.sent
    ensures Replies.SentBy(s', c) == Replies.SentBy(s, c)
    ensures OnlyRequester(s, c) ==> OnlyRequester(s', c)
  {
    if OnlyRequester(s, c) {
      forall other: ClientId | other != c ensures DaemonCmd.StopDaemon !in Replies.SentBy(s', other) {
        assert Replies.SentBy(s', other) == Replies.SentBy(s, other);
      }
    }
  }

  /** Once a client has asked for the end and clients send nothing more, every schedule comes
      to the end; a client that only asked for it and still listens then has `Stopped` as its
      last message, after `Ok` if no one else asked. */
  lemma StopAlwaysEnds(keep: Keep, run: nat -> State, schedule: nat -> Step, c: ClientId) returns (end: nat)
    requires Drain.FaithfullyScheduled(keep, run, schedule) && Runs.Reachable(keep, run(0))
    requires c in run(0).clients.streams && Replies.SentBy(run(0), c) == [DaemonCmd.StopDaemon]
    ensures run(end).daemon.exited && c in run(end).clients.streams
    ensures c !in run(end).clients.dead ==>
      && run(end).clients.streams[c]
         == [SetSender, DaemonVersion] + (if WasHandled(run(end).daemon.handled, c) then [Ok] else []) + [DaemonStopped]
      && (OnlyRequester(run(0), c) ==> WasHandled(run(end).daemon.handled, c))
  {
    end := Drain.DrainsReachably(keep, run, schedule, 0);
    SameRequester(run(0), run(end), c);
    Drain.ReachableAtRest(keep, run(end));
    AtRestMeansEnded(keep, run(end), c);
    if c !in run(end).clients.dead {
      StopClientFinishes(keep, run(end), c);
    }
  }

  // ---------- Every schedule ----------

  /** The client listens and has not hung up. */
  predicate Connected(s: State, c: ClientId) {
    c in s.clients.streams && c in s.clients.open && c !in s.clients.dead
  }

  /** With removal as documented, every schedule comes to the end of the daemon or to a point
      where it is idle; and there, whatever other clients did meanwhile, the wait of a client
      that asked for one installation and stayed connected goes by its own worker. */
  lemma InstallAlwaysFinishes(run: nat -> State, schedule: nat -> Step, c: ClientId, request: InstallRequest)
    returns (end: nat, h: Option<Handler>)
    requires Drain.FaithfullyScheduled(KeepAsDocumented, run, schedule) && Runs.Reachable(KeepAsDocumented, run(0))
    requires c in run(0).clients.streams && Replies.SentBy(run(0), c) == [InstallServer(request)]
    ensures run(end).daemon.exited || Idle(run(end))
    ensures Idle(run(end)) && Connected(run(end), c) ==>
      && h.Some? && OnlyCommandOf(run(end), c, h.value) && OneAnswer(run(end).clients.streams[c], Ok)
      && InstallWaits(run(end), h.value, request)
      && (request.unitId in h.value.seen || InstallWorker(run(end).threads, h.value, request))
  {
    end := Drain.DrainsReachably(KeepAsDocumented, run, schedule, 0);
    h := None;
    Drain.ReachableAtRest(KeepAsDocumented, run(end));
    if Idle(run(end)) && Connected(run(end), c) {
      SameRequester(run(0), run(end), c);
      Runs.ReachableGone(KeepAsDocumented, run(end));
      ConnectedIsUndisturbed(run(end), c);
      OwnBeforeEnd(KeepAsDocumented, run(end), c);
      var handler := InstallClientFinishes(KeepAsDocumented, run(end), c, request, |run(end).manager.hist|);
      h := Some(handler);
    }
  }

  /** The same for an update. */
  lemma UpdateAlwaysFinishes(run: nat -> State, schedule: nat -> Step, c: ClientId, id: UnitId, requested: Option<Semver.Version>)
    returns (end: nat, h: Option<Handler>)
    requires Drain.FaithfullyScheduled(KeepAsDocumented, run, schedule) && Runs.Reachable(KeepAsDocumented, run(0))
    requires c in run(0).clients.streams && Replies.SentBy(run(0), c) == [UpdateServer(id, requested)]
    ensures run(end).daemon.exited || Idle(run(end))
    ensures Idle(run(end)) && Connected(run(end), c) ==>
      && h.Some? && OnlyCommandOf(run(end), c, h.value)
      && OneAnswer(run(end).clients.streams[c], if id in h.value.seen then Ok else ServerNotFound(id))
      && UpdateWaits(run(end), h.value, id)
      && (id in h.value.seen ==> UpdateWorker(run(end).threads, h.value, requested, h.value.seen[id]))
  {
    end := Drain.DrainsReachably(KeepAsDocumented, run, schedule, 0);
    h := None;
    Drain.ReachableAtRest(KeepAsDocumented, run(end));
    if Idle(run(end)) && Connected(run(end), c) {
      SameRequester(run(0), run(end), c);
      Runs.ReachableGone(KeepAsDocumented, run(end));
      ConnectedIsUndisturbed(run(end), c);
      OwnBeforeEnd(KeepAsDocumented, run(end), c);
      var handler := UpdateClientFinishes(KeepAsDocumented, run(end), c, id, requested, |run(end).manager.hist|);
      h := Some(handler);
    }
  }
}
