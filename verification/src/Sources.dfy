/** Where everything in the manager's history comes from: every dispatched event from a
    thread or a command, every thread that announces a job's events from the command that
    launched it, and every removal from a client that is gone. */
module Sources {
  import opened Sequences
  import opened Protocol
  import opened Subscriptions
  import opened System
  import opened Workers
  import opened Answers
  import opened Provenance
  import Semver
  import Installer
  import Updater
  import LogParser
  import Lookups

  // ---------- Dispatched events ----------

  ghost predicate ThreadSent(threads: seq<Thread>, i: nat) {
    exists t :: 0 <= t < |threads| && i in threads[t].sentAt
  }

  ghost predicate HandlerSent(handled: seq<Handler>, handler: Option<Handler>, i: nat) {
    || (handler.Some? && i in handler.value.sentAt)
    || exists k :: 0 <= k < |handled| && i in handled[k].sentAt
  }

  ghost predicate Sent(s: State, i: nat) {
    ThreadSent(s.threads, i) || HandlerSent(s.daemon.handled, s.daemon.handler, i)
  }

  /** Every dispatched event was sent by a thread or by a command. */
  ghost predicate Sourced(s: State) {
    forall i: nat :: i < |s.manager.hist| && s.manager.hist[i].DispatchEvent? ==> Sent(s, i)
  }

  /** Nobody forgets what it has sent. */
  ghost predicate Remembers(s: State, s': State) {
    && |s.threads| <= |s'.threads|
    && (forall t :: 0 <= t < |s.threads| ==> s.threads[t].sentAt <= s'.threads[t].sentAt)
    && (s'.daemon.handled == s.daemon.handled || (s.daemon.handler.Some? && s'.daemon.handled == s.daemon.handled + [s.daemon.handler.value]))
    && (s.daemon.handler.Some? && s'.daemon.handled == s.daemon.handled ==>
          s'.daemon.handler.Some? && s.daemon.handler.value.sentAt <= s'.daemon.handler.value.sentAt)
  }

  lemma RemembersSent(s: State, s': State, i: nat)
    requires Remembers(s, s') && Sent(s, i)
    ensures Sent(s', i)
  {
    var handled, handled' := s.daemon.handled, s'.daemon.handled;
    if t :| 0 <= t < |s.threads| && i in s.threads[t].sentAt {
      assert i in s'.threads[t].sentAt;
    } else if k :| 0 <= k < |handled| && i in handled[k].sentAt {
      assert handled'[k] == handled[k];
    } else if handled' != handled {
      assert handled'[|handled|] == s.daemon.handler.value;
    }
  }

  lemma WorkRemembers(s: State, h: Handler)
    requires s.daemon.handler == Some(h)
    ensures Remembers(s, DoWork(s))
  {
    if h.pc < |h.actions| {
      ActDaemon(s, h);
    } else {
      AnswerDaemon(s, h);
    }
  }

  lemma StepRemembers(keep: Keep, s: State, step: Step)
    requires Enabled(s, step)
    ensures Remembers(s, Apply(keep, s, step))
  {
    match step
    case Work => WorkRemembers(s, s.daemon.handler.value);
    case _ =>
  }

  /** The history grows by at most one message; if that is an event, someone sent it. */
  ghost predicate AddsSent(s: State, s': State) {
    || s'.manager.hist == s.manager.hist
    || exists m :: s'.manager.hist == s.manager.hist + [m] && (m.DispatchEvent? ==> Sent(s', |s.manager.hist|))
  }

  lemma OneAdded(s: State, s': State, m: ManagerCmd)
    requires s'.manager.hist == s.manager.hist + [m] && (m.DispatchEvent? ==> Sent(s', |s.manager.hist|))
    ensures AddsSent(s, s')
  {
  }

  lemma SendToAdds(s: State, c: ClientId, r: DaemonResponse)
    ensures AddsSent(s, SendTo(s, c, r))
  {
    if c in s.clients.streams && c in s.clients.dead {
      OneAdded(s, SendTo(s, c, r), RemoveAllSubscriptions(c));
    }
  }

  lemma WorkAdds(s: State, h: Handler)
    requires s.daemon.handler == Some(h)
    ensures AddsSent(s, DoWork(s))
  {
    var s' := DoWork(s);
    if h.pc >= |h.actions| {
      SendToAdds(Closed(s, h), h.client, h.response);
    } else {
      match h.actions[h.pc]
      case Subscribe(unit, eventType) => OneAdded(s, s', AddSubscription(unit, eventType, h.client));
      case Announce(unit, event) =>
        assert s'.daemon.handler.value.sentAt[|h.sentAt|] == |s.manager.hist|;
        OneAdded(s, s', Raise(unit, event));
      case _ =>
    }
  }

  lemma RunAdds(s: State, t: nat)
    requires t < |s.threads| && s.threads[t].pc < |s.threads[t].actions|
    ensures AddsSent(s, DoRun(s, t))
  {
    var s', thread := DoRun(s, t), s.threads[t];
    match thread.actions[thread.pc]
    case RaiseEvent(unit, event) =>
      assert s'.threads[t].sentAt[|thread.sentAt|] == |s.manager.hist|;
      OneAdded(s, s', Raise(unit, event));
    case _ =>
  }

  lemma StepAdds(keep: Keep, s: State, step: Step)
    requires Enabled(s, step)
    ensures AddsSent(s, Apply(keep, s, step))
  {
    match step
    case Take(choice) =>
      if s.daemon.dq[0].SendEvent? {
        SendToAdds(Noted(Popped(s), Delivery(s.daemon.dq[0].clientId, s.daemon.dq[0].event)),
                   s.daemon.dq[0].clientId, Notice(s.daemon.dq[0].event));
      }
    case Work => WorkAdds(s, s.daemon.handler.value);
    case RunThread(t) => RunAdds(s, t);
    case HangUp(client) => OneAdded(s, Apply(keep, s, step), RemoveAllSubscriptions(client));
    case _ =>
  }

  lemma SourcedStep(keep: Keep, s: State, step: Step)
    requires Sourced(s) && Enabled(s, step)
    ensures Sourced(Apply(keep, s, step))
  {
    var s' := Apply(keep, s, step);
    StepRemembers(keep, s, step);
    StepAdds(keep, s, step);
    forall i: nat | i < |s'.manager.hist| && s'.manager.hist[i].DispatchEvent? ensures Sent(s', i) {
      if i < |s.manager.hist| {
        assert s'.manager.hist[i] == s.manager.hist[i];
        RemembersSent(s, s', i);
      }
    }
  }

  // ---------- Threads ----------

  /** The command installs or updates the unit. */
  predicate JobOn(cmd: DaemonCmd, id: UnitId) {
    (cmd.InstallServer? && cmd.request.unitId == id) || (cmd.UpdateServer? && cmd.unitId == id)
  }

  /** Only installations and updates raise these. */
  predicate JobEvent(event: ServerEvent) {
    event.ActionProgress? || event.Final()
  }

  /** Every job event in the script is about a unit the command installs or updates. */
  ghost predicate JobsOf(cmd: DaemonCmd, script: seq<ThreadAction>) {
    forall j :: 0 <= j < |script| && script[j].RaiseEvent? && JobEvent(script[j].event) ==> JobOn(cmd, script[j].unit)
  }

  ghost predicate Quiet(script: seq<ThreadAction>) {
    forall j :: 0 <= j < |script| && script[j].RaiseEvent? ==> !JobEvent(script[j].event)
  }

  ghost predicate Fathers(h: Handler, t: nat, script: seq<ThreadAction>) {
    h.child == Some(t) && JobsOf(h.cmd, script)
  }

  ghost predicate HasFather(handled: seq<Handler>, handler: Option<Handler>, t: nat, script: seq<ThreadAction>) {
    || (handler.Some? && Fathers(handler.value, t, script))
    || exists k :: 0 <= k < |handled| && Fathers(handled[k], t, script)
  }

  /** Before it launches a thread, a command has no child. */
  ghost predicate ChildAfterLaunch(h: Handler) {
    (forall i :: 0 <= i < h.pc && i < |h.actions| ==> !h.actions[i].Launch?) ==> h.child.None?
  }

  /** A thread that announces job events was launched by a command for that job. */
  ghost predicate Fathered(s: State) {
    && (forall t :: 0 <= t < |s.threads| ==>
          Quiet(s.threads[t].actions) || HasFather(s.daemon.handled, s.daemon.handler, t, s.threads[t].actions))
    && (forall k :: 0 <= k < |s.daemon.handled| ==> ChildAfterLaunch(s.daemon.handled[k]))
    && (s.daemon.handler.Some? ==> ChildAfterLaunch(s.daemon.handler.value))
  }

  lemma JobScriptJobs<E>(install: bool, unit: UnitId, run: Run<ServerUnitConfig, E>, describe: E -> string, cmd: DaemonCmd)
    requires JobOn(cmd, unit) && (run.outcome.Finished? ==> run.outcome.value.unit.id == unit)
    ensures JobsOf(cmd, JobScript(install, unit, run, describe))
  {
    var script := JobScript(install, unit, run, describe);
    forall j | 0 <= j < |script| && script[j].RaiseEvent? ensures JobOn(cmd, script[j].unit) {
      JobScriptAt(install, unit, run, describe, j);
    }
  }

  lemma LogIsQuiet(unit: UnitId, lines: seq<LogParser.Line>)
    ensures Quiet(LogParser.Script(unit, lines))
  {
    LogParser.CollectedStates(lines[..LogParser.Readable(lines)]);
  }

  lemma InstallJobs(request: InstallRequest, env: Installer.InstallEnv)
    ensures JobsOf(InstallServer(request), Installer.InstallScript(request, env))
  {
    Installer.InstallOutcome(request, env);
    JobScriptJobs(true, request.unitId, Installer.PerformRun(request, env), env.describe, InstallServer(request));
  }

  lemma UpdateJobs(requested: Option<Semver.Version>, config: ServerUnitConfig, env: Updater.UpdateEnv)
    ensures JobsOf(UpdateServer(config.unit.id, requested), Updater.UpdateScript(requested, config, env))
  {
    Updater.UpdateOutcome(requested, config, env);
    JobScriptJobs(false, config.unit.id, Updater.PerformRun(requested, config, env), env.describe,
                  UpdateServer(config.unit.id, requested));
  }

  lemma PlausibleJobs(servers: map<UnitId, ServerUnitConfig>, cmd: DaemonCmd, script: seq<ThreadAction>)
    requires Plausible(servers, cmd, script)
    requires forall id :: id in servers ==> servers[id].unit.id == id
    requires cmd.Start? || cmd.InstallServer? || (cmd.UpdateServer? && cmd.unitId in servers)
    ensures Quiet(script) || JobsOf(cmd, script)
  {
    match cmd
    case Start(id, _) =>
      var lines :| script == LogParser.Script(id, lines);
      LogIsQuiet(id, lines);
    case InstallServer(request) =>
      var env :| script == Installer.InstallScript(request, env);
      InstallJobs(request, env);
    case UpdateServer(id, requested) =>
      var env :| script == Updater.UpdateScript(requested, servers[id], env);
      UpdateJobs(requested, servers[id], env);
  }

  lemma ProgramLaunches(servers: map<UnitId, ServerUnitConfig>, cmd: DaemonCmd, choice: Choice, i: nat)
    requires i < |Program(servers, cmd, choice)| && Program(servers, cmd, choice)[i].Launch?
    ensures cmd.Start? || cmd.InstallServer? || (cmd.UpdateServer? && cmd.unitId in servers)
    ensures Program(servers, cmd, choice)[i].script == choice.script
  {
  }

  lemma LaunchesJobs(h: Handler, i: nat)
    requires Proper(h) && i < |h.actions| && h.actions[i].Launch?
    ensures Quiet(h.actions[i].script) || JobsOf(h.cmd, h.actions[i].script)
  {
    var choice :| ProperFor(h, choice);
    ProgramLaunches(h.seen, h.cmd, choice, i);
    PlausibleJobs(h.seen, h.cmd, choice.script);
  }

  /** What fatherhood depends on. */
  ghost predicate SameFathers(s: State, s': State) {
    && |s'.threads| == |s.threads| && (forall t :: 0 <= t < |s.threads| ==> s'.threads[t].actions == s.threads[t].actions)
    && s'.daemon.handled == s.daemon.handled
    && (s.daemon.handler.Some? ==> s'.daemon.handler.Some?)
    && (s'.daemon.handler.Some? ==> ChildAfterLaunch(s'.daemon.handler.value))
    && (s.daemon.handler.Some? ==>
          && s'.daemon.handler.value.cmd == s.daemon.handler.value.cmd
          && s'.daemon.handler.value.child == s.daemon.handler.value.child)
  }

  lemma SameFathered(s: State, s': State)
    requires Fathered(s) && SameFathers(s, s')
    ensures Fathered(s')
  {
    forall t | 0 <= t < |s'.threads|
      ensures Quiet(s'.threads[t].actions) || HasFather(s'.daemon.handled, s'.daemon.handler, t, s'.threads[t].actions)
    {
      assert Quiet(s.threads[t].actions) || HasFather(s.daemon.handled, s.daemon.handler, t, s.threads[t].actions);
    }
  }

  lemma CloseFathered(s: State, h: Handler)
    requires Fathered(s) && s.daemon.handler == Some(h)
    ensures Fathered(Closed(s, h))
  {
    var handled' := s.daemon.handled + [h];
    forall t | 0 <= t < |s.threads|
      ensures Quiet(s.threads[t].actions) || HasFather(handled', None, t, s.threads[t].actions)
    {
      if !Quiet(s.threads[t].actions) {
        if Fathers(h, t, s.threads[t].actions) {
          assert handled'[|s.daemon.handled|] == h;
        } else {
          var k :| 0 <= k < |s.daemon.handled| && Fathers(s.daemon.handled[k], t, s.threads[t].actions);
          assert handled'[k] == s.daemon.handled[k];
        }
      }
    }
  }

  lemma LaunchFathered(s: State, h: Handler)
    requires Fathered(s) && s.daemon.handler == Some(h) && h.pc < |h.actions| && h.actions[h.pc].Launch?
    requires LaunchesOnce(h.actions) && (Quiet(h.actions[h.pc].script) || JobsOf(h.cmd, h.actions[h.pc].script))
    ensures Fathered(DoLaunch(s, h, h.actions[h.pc].script))
  {
    var s' := DoLaunch(s, h, h.actions[h.pc].script);
    assert h.child.None?;
    forall t | 0 <= t < |s'.threads|
      ensures Quiet(s'.threads[t].actions) || HasFather(s'.daemon.handled, s'.daemon.handler, t, s'.threads[t].actions)
    {
      if t < |s.threads| && !Quiet(s.threads[t].actions) {
        assert HasFather(s.daemon.handled, s.daemon.handler, t, s.threads[t].actions);
      }
    }
  }

  lemma ActSameFathers(s: State, h: Handler)
    requires s.daemon.handler == Some(h) && h.pc < |h.actions| && !h.actions[h.pc].Launch? && ChildAfterLaunch(h)
    ensures SameFathers(s, DoWork(s))
  {
  }

  lemma AnswerSameFathers(s: State, h: Handler)
    requires s.daemon.handler == Some(h) && h.pc >= |h.actions|
    ensures SameFathers(Closed(s, h), DoWork(s))
  {
  }

  lemma WorkFathered(s: State, h: Handler)
    requires Fathered(s) && s.daemon.handler == Some(h)
    requires h.pc < |h.actions| && h.actions[h.pc].Launch? ==>
      LaunchesOnce(h.actions) && (Quiet(h.actions[h.pc].script) || JobsOf(h.cmd, h.actions[h.pc].script))
    ensures Fathered(DoWork(s))
  {
    if h.pc >= |h.actions| {
      CloseFathered(s, h);
      AnswerSameFathers(s, h);
      SameFathered(Closed(s, h), DoWork(s));
    } else if h.actions[h.pc].Launch? {
      LaunchFathered(s, h);
    } else {
      ActSameFathers(s, h);
      SameFathered(s, DoWork(s));
    }
  }

  lemma OtherSameFathers(keep: Keep, s: State, step: Step)
    requires Enabled(s, step) && !step.Work? && (s.daemon.handler.Some? ==> ChildAfterLaunch(s.daemon.handler.value))
    ensures SameFathers(s, Apply(keep, s, step))
  {
  }

  lemma FatheredStep(keep: Keep, s: State, step: Step)
    requires Fathered(s) && AllProper(s.daemon) && AllPlaced(s) && Enabled(s, step)
    ensures Fathered(Apply(keep, s, step))
  {
    if step.Work? {
      var h := s.daemon.handler.value;
      if h.pc < |h.actions| && h.actions[h.pc].Launch? {
        LaunchesJobs(h, h.pc);
      }
      WorkFathered(s, h);
    } else {
      OtherSameFathers(keep, s, step);
      SameFathered(s, Apply(keep, s, step));
    }
  }

  // ---------- Removals ----------

  /** Only clients that no longer listen or no longer send are removed. */
  ghost predicate Gone(c: Clients, m: ManagerCmd) {
    m.Removal() ==> m.RemoveAllSubscriptions? && m.clientId in c.streams && (m.clientId in c.dead || m.clientId !in c.open)
  }

  ghost predicate OnlyGone(s: State) {
    forall i :: 0 <= i < |s.manager.hist| ==> Gone(s.clients, s.manager.hist[i])
  }

  lemma SendToGone(s: State, c: ClientId, r: DaemonResponse)
    requires OnlyGone(s)
    ensures OnlyGone(SendTo(s, c, r))
  {
  }

  lemma SameGone(s: State, s': State)
    requires OnlyGone(s) && s'.manager.hist == s.manager.hist
    requires s.clients.streams.Keys <= s'.clients.streams.Keys && s.clients.dead <= s'.clients.dead
    requires s'.clients.open * s.clients.streams.Keys <= s.clients.open
    ensures OnlyGone(s')
  {
    forall i | 0 <= i < |s'.manager.hist| ensures Gone(s'.clients, s'.manager.hist[i]) {
      assert Gone(s.clients, s.manager.hist[i]);
    }
  }

  lemma WorkGone(s: State, h: Handler)
    requires OnlyGone(s) && s.daemon.handler == Some(h)
    ensures OnlyGone(DoWork(s))
  {
    if h.pc >= |h.actions| {
      SendToGone(Closed(s, h), h.client, h.response);
    }
  }

  lemma TakeGone(s: State, choice: Choice)
    requires OnlyGone(s) && s.daemon.dq != []
    ensures OnlyGone(DoTake(s, choice))
  {
    match s.daemon.dq[0]
    case SendEvent(client, event) => SendToGone(Noted(Popped(s), Delivery(client, event)), client, Notice(event));
    case _ => SameGone(s, DoTake(s, choice));
  }

  lemma GoneStep(keep: Keep, s: State, step: Step)
    requires OnlyGone(s) && Lookups.Known(s) && Enabled(s, step)
    ensures OnlyGone(Apply(keep, s, step))
  {
    match step
    case Take(choice) => TakeGone(s, choice);
    case Work => WorkGone(s, s.daemon.handler.value);
    case RunThread(_) =>
    case HangUp(client) => SameGone(s, s.(clients := s.clients.(open := s.clients.open - {client})));
    case _ => SameGone(s, Apply(keep, s, step));
  }

  // ---------- Clients that hung up ----------

  /** For every client that hung up, the manager was told to remove its subscriptions. */
  ghost predicate HangUpsTold(s: State) {
    forall c :: c in s.clients.streams && c !in s.clients.open ==> RemoveAllSubscriptions(c) in s.manager.hist
  }

  lemma HistoryGrows(keep: Keep, s: State, step: Step)
    requires Enabled(s, step)
    ensures s.manager.hist <= Apply(keep, s, step).manager.hist
  {
    StepAdds(keep, s, step);
  }

  lemma ClientsSame(keep: Keep, s: State, step: Step)
    requires Enabled(s, step) && !step.Accept? && !step.HangUp?
    ensures var s' := Apply(keep, s, step); s'.clients.streams.Keys == s.clients.streams.Keys && s'.clients.open == s.clients.open
  {
  }

  lemma {:induction false} HangUpStep(keep: Keep, s: State, step: Step)
    requires HangUpsTold(s) && Enabled(s, step)
    ensures HangUpsTold(Apply(keep, s, step))
  {
    var s' := Apply(keep, s, step);
    HistoryGrows(keep, s, step);
    assert forall m :: m in s.manager.hist ==> m in s'.manager.hist;
    match step
    case Accept =>
    case HangUp(client) => assert s'.manager.hist[|s.manager.hist|] == RemoveAllSubscriptions(client);
    case _ => ClientsSame(keep, s, step);
  }
}
