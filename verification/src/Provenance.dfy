/** Where in the manager's history the messages of each handler and each thread are, and
    which subscriptions each client's commands have put there. */
module Provenance {
  import opened Sequences
  import opened Protocol
  import opened Subscriptions
  import opened System
  import opened Workers

  /** `cmds` are found in `hist` at the increasing positions `at`, none before `from`. */
  ghost predicate Placed(cmds: seq<ManagerCmd>, hist: seq<ManagerCmd>, at: seq<nat>, from: nat) {
    EmbedsAt(cmds, hist, at) && forall k :: 0 <= k < |at| ==> from <= at[k]
  }

  function RaisedCmds(actions: seq<ThreadAction>): seq<ManagerCmd> {
    Collect(actions, RaisedCmd)
  }

  ghost predicate ThreadPlaced(hist: seq<ManagerCmd>, t: Thread) {
    && t.pc <= |t.actions| && t.bornAt <= |hist|
    && Placed(RaisedCmds(t.actions[..t.pc]), hist, t.sentAt, t.bornAt)
    && forall a :: a in t.audience ==> a in hist[..t.bornAt]
  }

  ghost predicate ThreadsPlaced(hist: seq<ManagerCmd>, threads: seq<Thread>) {
    forall t :: 0 <= t < |threads| ==> ThreadPlaced(hist, threads[t])
  }

  /** The thread launched by the action before `pc` runs that action's script, for those the
      handler had subscribed before. */
  ghost predicate ChildLaunched(threads: seq<Thread>, h: Handler) {
    forall i :: 0 <= i < h.pc && i < |h.actions| && h.actions[i].Launch? ==>
      && h.child.Some? && h.child.value < |threads|
      && threads[h.child.value].actions == h.actions[i].script
      && threads[h.child.value].audience == PushedBy(h.client, h.actions[..i])
  }

  ghost predicate HandlerPlaced(hist: seq<ManagerCmd>, threads: seq<Thread>, h: Handler) {
    && h.pc <= |h.actions|
    && Placed(PushedBy(h.client, h.actions[..h.pc]), hist, h.sentAt, 0)
    && LaunchesOnce(h.actions)
    && ChildLaunched(threads, h)
  }

  ghost predicate HandledPlaced(hist: seq<ManagerCmd>, threads: seq<Thread>, handled: seq<Handler>) {
    forall i :: 0 <= i < |handled| ==> HandlerPlaced(hist, threads, handled[i]) && handled[i].pc == |handled[i].actions|
  }

  ghost predicate AllPlaced(s: State) {
    && ThreadsPlaced(s.manager.hist, s.threads)
    && HandledPlaced(s.manager.hist, s.threads, s.daemon.handled)
    && (s.daemon.handler.Some? ==> HandlerPlaced(s.manager.hist, s.threads, s.daemon.handler.value))
  }

  /** A longer history, with threads that still run the same scripts. */
  ghost predicate Extends(threads: seq<Thread>, threads': seq<Thread>) {
    && |threads| <= |threads'|
    && forall t :: 0 <= t < |threads| ==>
         threads'[t].actions == threads[t].actions && threads'[t].audience == threads[t].audience
  }

  lemma PlacedGrows(cmds: seq<ManagerCmd>, hist: seq<ManagerCmd>, hist': seq<ManagerCmd>, at: seq<nat>, from: nat)
    requires Placed(cmds, hist, at, from) && hist <= hist'
    ensures Placed(cmds, hist', at, from)
  {
  }

  lemma ThreadGrows(hist: seq<ManagerCmd>, hist': seq<ManagerCmd>, t: Thread)
    requires ThreadPlaced(hist, t) && hist <= hist'
    ensures ThreadPlaced(hist', t)
  {
    assert hist'[..t.bornAt] == hist[..t.bornAt];
  }

  lemma HandlerGrows(hist: seq<ManagerCmd>, hist': seq<ManagerCmd>, threads: seq<Thread>, threads': seq<Thread>, h: Handler)
    requires HandlerPlaced(hist, threads, h) && hist <= hist' && Extends(threads, threads')
    ensures HandlerPlaced(hist', threads', h)
  {
    PlacedGrows(PushedBy(h.client, h.actions[..h.pc]), hist, hist', h.sentAt, 0);
  }

  lemma AllGrow(s: State, hist': seq<ManagerCmd>, threads': seq<Thread>)
    requires AllPlaced(s) && s.manager.hist <= hist' && Extends(s.threads, threads')
    ensures HandledPlaced(hist', threads', s.daemon.handled)
    ensures s.daemon.handler.Some? ==> HandlerPlaced(hist', threads', s.daemon.handler.value)
    ensures ThreadsPlaced(hist', s.threads)
  {
    forall i | 0 <= i < |s.daemon.handled| ensures HandlerPlaced(hist', threads', s.daemon.handled[i]) {
      HandlerGrows(s.manager.hist, hist', s.threads, threads', s.daemon.handled[i]);
    }
    if s.daemon.handler.Some? {
      HandlerGrows(s.manager.hist, hist', s.threads, threads', s.daemon.handler.value);
    }
    forall t | 0 <= t < |s.threads| ensures ThreadPlaced(hist', s.threads[t]) {
      ThreadGrows(s.manager.hist, hist', s.threads[t]);
    }
  }

  lemma PushManagerPlaced(s: State, cmd: ManagerCmd)
    requires AllPlaced(s)
    ensures AllPlaced(PushManager(s, cmd))
  {
    AllGrow(s, s.manager.hist + [cmd], s.threads);
  }

  /** One more message, at the end of the history. */
  lemma PlacedSnoc(cmds: seq<ManagerCmd>, hist: seq<ManagerCmd>, at: seq<nat>, from: nat, cmd: ManagerCmd)
    requires Placed(cmds, hist, at, from) && from <= |hist|
    ensures Placed(cmds + [cmd], hist + [cmd], at + [|hist|], from)
  {
  }

  lemma PrefixSnoc<A>(xs: seq<A>, n: nat)
    requires n < |xs|
    ensures xs[..n + 1] == xs[..n] + [xs[n]]
  {
  }

  lemma RaisePlaced(s: State, t: nat)
    requires AllPlaced(s) && t < |s.threads| && s.threads[t].pc < |s.threads[t].actions|
    requires s.threads[t].actions[s.threads[t].pc].RaiseEvent?
    ensures AllPlaced(DoRun(s, t))
  {
    var thread, hist := s.threads[t], s.manager.hist;
    var action := thread.actions[thread.pc];
    var cmd := Raise(action.unit, action.event);
    var s' := DoRun(s, t);
    AllGrow(s, hist + [cmd], s'.threads);
    PrefixSnoc(thread.actions, thread.pc);
    CollectSnoc(thread.actions[..thread.pc], action, RaisedCmd);
    assert ThreadPlaced(hist, thread) && ThreadPlaced(hist + [cmd], thread);
    PlacedSnoc(RaisedCmds(thread.actions[..thread.pc]), hist, thread.sentAt, thread.bornAt, cmd);
    assert ThreadPlaced(hist + [cmd], s'.threads[t]);
  }

  lemma HandOverPlaced(s: State, t: nat)
    requires AllPlaced(s) && t < |s.threads| && s.threads[t].pc < |s.threads[t].actions|
    requires s.threads[t].actions[s.threads[t].pc].Register?
    ensures AllPlaced(DoRun(s, t))
  {
    var thread, hist := s.threads[t], s.manager.hist;
    var s' := DoRun(s, t);
    AllGrow(s, hist, s'.threads);
    PrefixSnoc(thread.actions, thread.pc);
    CollectSnoc(thread.actions[..thread.pc], thread.actions[thread.pc], RaisedCmd);
    assert ThreadPlaced(hist, thread);
    assert RaisedCmds(thread.actions[..thread.pc + 1]) == RaisedCmds(thread.actions[..thread.pc]) + [];
    assert ThreadPlaced(hist, s'.threads[t]);
  }

  /** A handler action that sends one message to the manager. */
  lemma SendPlaced(s: State, h: Handler, cmd: ManagerCmd)
    requires AllPlaced(s) && s.daemon.handler == Some(h) && h.pc < |h.actions|
    requires PushedAction(h.client)(h.actions[h.pc]) == [cmd]
    ensures AllPlaced(PushManager(WithHandler(s, Sending(s, h)), cmd))
  {
    var hist := s.manager.hist;
    AllGrow(s, hist + [cmd], s.threads);
    PrefixSnoc(h.actions, h.pc);
    CollectSnoc(h.actions[..h.pc], h.actions[h.pc], PushedAction(h.client));
    PlacedSnoc(PushedBy(h.client, h.actions[..h.pc]), hist, h.sentAt, 0, cmd);
    assert HandlerPlaced(hist + [cmd], s.threads, Sending(s, h).value);
  }

  lemma LaunchPlaced(s: State, h: Handler)
    requires AllPlaced(s) && s.daemon.handler == Some(h) && h.pc < |h.actions| && h.actions[h.pc].Launch?
    ensures AllPlaced(DoLaunch(s, h, h.actions[h.pc].script))
  {
    var s', hist := DoLaunch(s, h, h.actions[h.pc].script), s.manager.hist;
    AllGrow(s, hist, s'.threads);
    PrefixSnoc(h.actions, h.pc);
    CollectSnoc(h.actions[..h.pc], h.actions[h.pc], PushedAction(h.client));
    assert PushedBy(h.client, h.actions[..h.pc + 1]) == PushedBy(h.client, h.actions[..h.pc]) + [];
    var thread := s'.threads[|s.threads|];
    assert hist[..|hist|] == hist;
    assert thread.actions[..0] == [];
    assert ThreadPlaced(hist, thread) by {
      var cmds := PushedBy(h.client, h.actions[..h.pc]);
      forall a | a in cmds ensures a in hist {
        var k :| 0 <= k < |cmds| && cmds[k] == a;
        assert hist[h.sentAt[k]] == a;
      }
    }
    assert HandlerPlaced(hist, s'.threads, s'.daemon.handler.value);
  }

  lemma StopPlaced(s: State, h: Handler)
    requires AllPlaced(s) && s.daemon.handler == Some(h) && h.pc < |h.actions| && h.actions[h.pc].RequestStop?
    ensures AllPlaced(PushDaemon(WithHandler(s, Some(h.(pc := h.pc + 1))), StopRequested))
  {
    PrefixSnoc(h.actions, h.pc);
    CollectSnoc(h.actions[..h.pc], h.actions[h.pc], PushedAction(h.client));
    assert PushedBy(h.client, h.actions[..h.pc + 1]) == PushedBy(h.client, h.actions[..h.pc]) + [];
    assert HandlerPlaced(s.manager.hist, s.threads, h);
    assert HandlerPlaced(s.manager.hist, s.threads, h.(pc := h.pc + 1));
  }

  lemma SamePlaced(s: State, s': State)
    requires AllPlaced(s)
    requires s'.manager.hist == s.manager.hist && s'.threads == s.threads && s'.daemon.handled == s.daemon.handled
    requires s'.daemon.handler == s.daemon.handler || s'.daemon.handler.None?
    ensures AllPlaced(s')
  {
  }

  lemma SendToPlaced(s: State, c: ClientId, r: DaemonResponse)
    requires AllPlaced(s)
    ensures AllPlaced(SendTo(s, c, r))
  {
    PushManagerPlaced(s, RemoveAllSubscriptions(c));
  }

  lemma AnswerPlaced(s: State, h: Handler)
    requires AllPlaced(s) && s.daemon.handler == Some(h) && h.pc >= |h.actions|
    ensures AllPlaced(DoWork(s))
  {
    assert AllPlaced(Closed(s, h));
    SendToPlaced(Closed(s, h), h.client, h.response);
  }

  ghost predicate LaunchesOnce(actions: seq<HandlerAction>) {
    forall i, j :: 0 <= i < j < |actions| ==> !(actions[i].Launch? && actions[j].Launch?)
  }

  lemma ProgramLaunchesOnce(servers: map<UnitId, ServerUnitConfig>, cmd: DaemonCmd, choice: Choice)
    ensures LaunchesOnce(Program(servers, cmd, choice))
  {
  }

  lemma FreshPlaced(hist: seq<ManagerCmd>, threads: seq<Thread>, h: Handler)
    requires h.pc == 0 && h.sentAt == [] && LaunchesOnce(h.actions)
    ensures HandlerPlaced(hist, threads, h)
  {
    assert h.actions[..0] == [];
  }

  lemma BeginPlaced(s: State, choice: Choice)
    requires AllPlaced(s) && s.daemon.dq != [] && s.daemon.dq[0].IncomingCmd?
    ensures AllPlaced(DoTake(s, choice))
  {
    ProgramLaunchesOnce(s.daemon.servers, s.daemon.dq[0].cmd, choice);
    FreshPlaced(s.manager.hist, s.threads, Begin(s, s.daemon.dq[0].id, s.daemon.dq[0].cmd, choice));
  }

  lemma {:induction false} TakePlaced(s: State, choice: Choice)
    requires AllPlaced(s) && s.daemon.dq != [] && s.daemon.handler.None?
    ensures AllPlaced(DoTake(s, choice))
  {
    match s.daemon.dq[0]
    case IncomingCmd(_, _) => BeginPlaced(s, choice);
    case SendEvent(client, event) =>
      SamePlaced(s, Noted(Popped(s), Delivery(client, event)));
      SendToPlaced(Noted(Popped(s), Delivery(client, event)), client, Notice(event));
    case _ => SamePlaced(s, DoTake(s, choice));
  }

  lemma WorkPlaced(s: State)
    requires AllPlaced(s) && s.daemon.handler.Some?
    ensures AllPlaced(DoWork(s))
  {
    var h := s.daemon.handler.value;
    if h.pc >= |h.actions| {
      AnswerPlaced(s, h);
    } else {
      match h.actions[h.pc]
      case Subscribe(unit, eventType) => SendPlaced(s, h, AddSubscription(unit, eventType, h.client));
      case Announce(unit, event) => SendPlaced(s, h, Raise(unit, event));
      case Launch(_) => LaunchPlaced(s, h);
      case RequestStop => StopPlaced(s, h);
    }
  }

  lemma PlacedStep(keep: Keep, s: State, step: Step)
    requires AllPlaced(s) && Enabled(s, step)
    ensures AllPlaced(Apply(keep, s, step))
  {
    match step
    case Take(choice) => TakePlaced(s, choice);
    case Work => WorkPlaced(s);
    case HangUp(client) =>
      var s' := s.(clients := s.clients.(open := s.clients.open - {client}));
      SamePlaced(s, s');
      PushManagerPlaced(s', RemoveAllSubscriptions(client));
    case RunThread(t) =>
      if s.threads[t].actions[s.threads[t].pc].RaiseEvent? {
        RaisePlaced(s, t);
      } else {
        HandOverPlaced(s, t);
      }
    case _ => SamePlaced(s, Apply(keep, s, step));
  }

  // ---------- Subscriptions by client ----------

  function AddedBy(c: ClientId): ManagerCmd -> seq<Key> {
    (m: ManagerCmd) => if m.AddSubscription? && m.clientId == c then [(m.serverId, m.eventType)] else []
  }

  /** The keys client `c` has been subscribed to, in order. */
  function KeysAdded(hist: seq<ManagerCmd>, c: ClientId): seq<Key> {
    Collect(hist, AddedBy(c))
  }

  function SubscribedKey(a: HandlerAction): seq<Key> {
    if a.Subscribe? then [(a.unit, a.eventType)] else []
  }

  function KeysOf(actions: seq<HandlerAction>): seq<Key> {
    Collect(actions, SubscribedKey)
  }

  function KeysHandled(c: ClientId): Handler -> seq<Key> {
    (h: Handler) => if h.client == c then KeysOf(h.actions) else []
  }

  function KeysNow(handler: Option<Handler>, c: ClientId): seq<Key> {
    if handler.Some? && handler.value.client == c && handler.value.pc <= |handler.value.actions|
    then KeysOf(handler.value.actions[..handler.value.pc]) else []
  }

  /** A client's subscriptions are exactly those its commands asked for, in order. */
  ghost predicate KeysAccounted(s: State, c: ClientId) {
    KeysAdded(s.manager.hist, c) == Collect(s.daemon.handled, KeysHandled(c)) + KeysNow(s.daemon.handler, c)
  }

  lemma PushOtherKeys(s: State, cmd: ManagerCmd, c: ClientId)
    requires KeysAccounted(s, c) && !cmd.AddSubscription?
    ensures KeysAccounted(PushManager(s, cmd), c)
  {
    CollectSnoc(s.manager.hist, cmd, AddedBy(c));
    assert KeysAdded(s.manager.hist, c) + [] == KeysAdded(s.manager.hist, c);
  }

  lemma SameKeys(s: State, s': State, c: ClientId)
    requires KeysAccounted(s, c)
    requires s'.manager.hist == s.manager.hist && s'.daemon.handled == s.daemon.handled
    requires KeysNow(s'.daemon.handler, c) == KeysNow(s.daemon.handler, c)
    ensures KeysAccounted(s', c)
  {
  }

  /** The next action of the handler, and what it adds for `c`. */
  lemma AdvanceKeys(h: Handler, next: Handler, c: ClientId)
    requires h.pc < |h.actions| && next.client == h.client && next.actions == h.actions && next.pc == h.pc + 1
    ensures KeysNow(Some(next), c)
         == KeysNow(Some(h), c) + if h.client == c then SubscribedKey(h.actions[h.pc]) else []
  {
    PrefixSnoc(h.actions, h.pc);
    CollectSnoc(h.actions[..h.pc], h.actions[h.pc], SubscribedKey);
  }

  lemma SubscribeKeys(s: State, h: Handler, c: ClientId)
    requires KeysAccounted(s, c) && s.daemon.handler == Some(h) && h.pc < |h.actions| && h.actions[h.pc].Subscribe?
    ensures KeysAccounted(DoWork(s), c)
  {
    var a := h.actions[h.pc];
    var cmd := AddSubscription(a.unit, a.eventType, h.client);
    AdvanceKeys(h, Sending(s, h).value, c);
    CollectSnoc(s.manager.hist, cmd, AddedBy(c));
    var new' := if h.client == c then SubscribedKey(a) else [];
    assert AddedBy(c)(cmd) == new';
    assert Collect(s.daemon.handled, KeysHandled(c)) + KeysNow(Some(h), c) + new'
        == Collect(s.daemon.handled, KeysHandled(c)) + (KeysNow(Some(h), c) + new');
  }

  lemma OtherActionKeys(s: State, h: Handler, next: Handler, c: ClientId)
    requires KeysAccounted(s, c) && s.daemon.handler == Some(h) && h.pc < |h.actions| && !h.actions[h.pc].Subscribe?
    requires next.client == h.client && next.actions == h.actions && next.pc == h.pc + 1
    ensures KeysAccounted(WithHandler(s, Some(next)), c)
  {
    AdvanceKeys(h, next, c);
    assert KeysNow(Some(next), c) == KeysNow(Some(h), c) + [] == KeysNow(Some(h), c);
  }

  lemma ClosedKeys(s: State, h: Handler, c: ClientId)
    requires KeysAccounted(s, c) && s.daemon.handler == Some(h) && h.pc == |h.actions|
    ensures KeysAccounted(Closed(s, h), c)
  {
    CollectSnoc(s.daemon.handled, h, KeysHandled(c));
    assert h.actions[..h.pc] == h.actions;
    assert KeysNow(Some(h), c) == KeysHandled(c)(h);
    assert Collect(s.daemon.handled + [h], KeysHandled(c)) + [] == Collect(s.daemon.handled, KeysHandled(c)) + KeysHandled(c)(h);
  }

  lemma SendToKeys(s: State, client: ClientId, r: DaemonResponse, c: ClientId)
    requires KeysAccounted(s, c)
    ensures KeysAccounted(SendTo(s, client, r), c)
  {
    PushOtherKeys(s, RemoveAllSubscriptions(client), c);
  }

  lemma AnswerKeys(s: State, h: Handler, c: ClientId)
    requires KeysAccounted(s, c) && s.daemon.handler == Some(h) && h.pc == |h.actions|
    ensures KeysAccounted(DoWork(s), c)
  {
    ClosedKeys(s, h, c);
    SendToKeys(Closed(s, h), h.client, h.response, c);
  }

  lemma ActKeys(s: State, h: Handler, c: ClientId)
    requires KeysAccounted(s, c) && s.daemon.handler == Some(h) && h.pc < |h.actions|
    ensures KeysAccounted(DoWork(s), c)
  {
    match h.actions[h.pc]
    case Subscribe(_, _) => SubscribeKeys(s, h, c);
    case Announce(unit, event) =>
      OtherActionKeys(s, h, Sending(s, h).value, c);
      PushOtherKeys(WithHandler(s, Sending(s, h)), Raise(unit, event), c);
    case Launch(script) =>
      var next := DoLaunch(s, h, script).daemon.handler.value;
      OtherActionKeys(s, h, next, c);
      SameKeys(WithHandler(s, Some(next)), DoLaunch(s, h, script), c);
    case RequestStop =>
      var next := h.(pc := h.pc + 1);
      OtherActionKeys(s, h, next, c);
      SameKeys(WithHandler(s, Some(next)), PushDaemon(WithHandler(s, Some(next)), StopRequested), c);
  }

  lemma TakeKeys(s: State, choice: Choice, c: ClientId)
    requires KeysAccounted(s, c) && s.daemon.dq != [] && s.daemon.handler.None?
    ensures KeysAccounted(DoTake(s, choice), c)
  {
    match s.daemon.dq[0]
    case IncomingCmd(id, cmd) =>
      assert Begin(s, id, cmd, choice).actions[..0] == [];
      SameKeys(s, DoTake(s, choice), c);
    case SendEvent(client, event) =>
      SameKeys(s, Noted(Popped(s), Delivery(client, event)), c);
      SendToKeys(Noted(Popped(s), Delivery(client, event)), client, Notice(event), c);
    case _ => SameKeys(s, DoTake(s, choice), c);
  }

  lemma RunKeys(s: State, t: nat, c: ClientId)
    requires KeysAccounted(s, c) && t < |s.threads| && s.threads[t].pc < |s.threads[t].actions|
    ensures KeysAccounted(DoRun(s, t), c)
  {
    var action := s.threads[t].actions[s.threads[t].pc];
    if action.RaiseEvent? {
      PushOtherKeys(s, Raise(action.unit, action.event), c);
    }
  }

  lemma KeysStep(keep: Keep, s: State, step: Step, c: ClientId)
    requires KeysAccounted(s, c) && AllPlaced(s) && Enabled(s, step)
    ensures KeysAccounted(Apply(keep, s, step), c)
  {
    match step
    case Take(choice) => TakeKeys(s, choice, c);
    case Work =>
      var h := s.daemon.handler.value;
      if h.pc < |h.actions| {
        ActKeys(s, h, c);
      } else {
        AnswerKeys(s, h, c);
      }
    case HangUp(client) => PushOtherKeys(s, RemoveAllSubscriptions(client), c);
    case RunThread(t) => RunKeys(s, t, c);
    case _ => SameKeys(s, Apply(keep, s, step), c);
  }
}
