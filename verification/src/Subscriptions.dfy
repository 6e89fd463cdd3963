/** The event manager as a function: what one command does to the subscriptions, what it
    sends to the daemon thread, and what a whole command history amounts to.

    `keep(removed, id)` says whether an entry of client `id` stays in a list when the
    subscriptions of client `removed` are removed. The program keeps exactly the entries it
    should drop; everything that does not depend on this is proved for every `keep`. */
module Subscriptions {
  import opened Sequences
  import opened Protocol

  type Key = (UnitId, ServerEventType)
  type Subs = map<Key, seq<ClientId>>
  type Keep = (ClientId, ClientId) -> bool

  /** One `SendEvent` on its way to a client. */
  datatype Delivery = Delivery(client: ClientId, event: ServerEvent)

  /** `retain(|id| id == &client_id)`, as the program has it. */
  predicate KeepAsWritten(removed: ClientId, id: ClientId) {
    id == removed
  }

  /** Removal as its documentation describes it. */
  predicate KeepAsDocumented(removed: ClientId, id: ClientId) {
    id != removed
  }

  function Listeners(subs: Subs, key: Key): seq<ClientId> {
    if key in subs then subs[key] else []
  }

  /** `Vec::retain`: the entries that are kept, in their order. */
  function Retain(keep: Keep, removed: ClientId, ids: seq<ClientId>): (kept: seq<ClientId>)
  {
    if ids == [] then []
    else (if keep(removed, ids[0]) then [ids[0]] else []) + Retain(keep, removed, ids[1..])
  }

  /** One `SendEvent` per entry, in list order. */
  function Fanout(ids: seq<ClientId>, event: ServerEvent): seq<Delivery> {
    if ids == [] then [] else [Delivery(ids[0], event)] + Fanout(ids[1..], event)
  }

  function NextSubs(keep: Keep, subs: Subs, cmd: ManagerCmd): Subs {
    match cmd
    case DispatchEvent(_, _) => subs
    case AddSubscription(unit, eventType, client) =>
      subs[(unit, eventType) := Listeners(subs, (unit, eventType)) + [client]]
    case RemoveSubscription(unit, eventType, client) =>
      if (unit, eventType) in subs
      then subs[(unit, eventType) := Retain(keep, client, subs[(unit, eventType)])]
      else subs
    case RemoveAllSubscriptions(client) =>
      map key | key in subs :: Retain(keep, client, subs[key])
  }

  function Emitted(subs: Subs, cmd: ManagerCmd): seq<Delivery> {
    match cmd
    case DispatchEvent(unit, event) => Fanout(Listeners(subs, (unit, EventType(event))), event)
    case _ => []
  }

  /** The subscriptions after a command history. */
  function SubsAfter(keep: Keep, subs: Subs, cmds: seq<ManagerCmd>): Subs
    decreases |cmds|
  {
    if cmds == [] then subs else SubsAfter(keep, NextSubs(keep, subs, cmds[0]), cmds[1..])
  }

  /** Everything a command history makes the manager send. */
  function Replay(keep: Keep, subs: Subs, cmds: seq<ManagerCmd>): seq<Delivery>
    decreases |cmds|
  {
    if cmds == [] then []
    else Emitted(subs, cmds[0]) + Replay(keep, NextSubs(keep, subs, cmds[0]), cmds[1..])
  }

  lemma {:induction false} ReplayAppend(keep: Keep, subs: Subs, a: seq<ManagerCmd>, b: seq<ManagerCmd>)
    ensures SubsAfter(keep, subs, a + b) == SubsAfter(keep, SubsAfter(keep, subs, a), b)
    ensures Replay(keep, subs, a + b) == Replay(keep, subs, a) + Replay(keep, SubsAfter(keep, subs, a), b)
    decreases |a|
  {
    if a == [] {
      AppendNothing(b);
      AppendNothing(Replay(keep, subs, b));
    } else {
      var subs' := NextSubs(keep, subs, a[0]);
      ReplayAppend(keep, subs', a[1..], b);
      TailAppend(a, b);
      Associative(Emitted(subs, a[0]), Replay(keep, subs', a[1..]), Replay(keep, SubsAfter(keep, subs, a), b));
    }
  }

  lemma {:induction false} ReplaySnoc(keep: Keep, subs: Subs, cmds: seq<ManagerCmd>, cmd: ManagerCmd)
    ensures SubsAfter(keep, subs, cmds + [cmd]) == NextSubs(keep, SubsAfter(keep, subs, cmds), cmd)
    ensures Replay(keep, subs, cmds + [cmd])
         == Replay(keep, subs, cmds) + Emitted(SubsAfter(keep, subs, cmds), cmd)
  {
    ReplayAppend(keep, subs, cmds, [cmd]);
    assert [cmd][1..] == [];
  }

  // ---------- Which subscriptions are live: a definition over positions in the history ----------

  predicate Adds(cmd: ManagerCmd, key: Key) {
    cmd.AddSubscription? && (cmd.serverId, cmd.eventType) == key
  }

  /** The entry of client `id` under `key` outlives `cmd`. */
  predicate Survives(keep: Keep, cmd: ManagerCmd, key: Key, id: ClientId) {
    match cmd
    case RemoveSubscription(unit, eventType, removed) => (unit, eventType) == key ==> keep(removed, id)
    case RemoveAllSubscriptions(removed) => keep(removed, id)
    case _ => true
  }

  /** Command `j` subscribed someone to `key`, and no later command took that entry away. */
  predicate LiveAt(keep: Keep, cmds: seq<ManagerCmd>, key: Key, j: nat)
    requires j < |cmds|
  {
    && Adds(cmds[j], key)
    && forall m :: j < m < |cmds| ==> Survives(keep, cmds[m], key, cmds[j].clientId)
  }

  /** The clients of the live entries among the first `n` commands, oldest first. */
  function LiveOwners(keep: Keep, cmds: seq<ManagerCmd>, key: Key, n: nat): seq<ClientId>
    requires n <= |cmds|
  {
    if n == 0 then []
    else LiveOwners(keep, cmds, key, n - 1)
         + if LiveAt(keep, cmds, key, n - 1) then [cmds[n - 1].clientId] else []
  }

  lemma {:induction false} RetainAppend(keep: Keep, removed: ClientId, a: seq<ClientId>, b: seq<ClientId>)
    ensures Retain(keep, removed, a + b) == Retain(keep, removed, a) + Retain(keep, removed, b)
  {
    if a == [] {
      AppendNothing(b);
      AppendNothing(Retain(keep, removed, b));
    } else {
      RetainAppend(keep, removed, a[1..], b);
      TailAppend(a, b);
      Associative(if keep(removed, a[0]) then [a[0]] else [], Retain(keep, removed, a[1..]), Retain(keep, removed, b));
    }
  }

  /** What a removal leaves of one list; other commands leave all of it. */
  function Filtered(keep: Keep, ids: seq<ClientId>, cmd: ManagerCmd, key: Key): seq<ClientId> {
    match cmd
    case RemoveSubscription(unit, eventType, removed) =>
      if (unit, eventType) == key then Retain(keep, removed, ids) else ids
    case RemoveAllSubscriptions(removed) => Retain(keep, removed, ids)
    case _ => ids
  }

  lemma {:induction false} ListStep(keep: Keep, subs: Subs, cmd: ManagerCmd, key: Key)
    ensures Listeners(NextSubs(keep, subs, cmd), key)
         == Filtered(keep, Listeners(subs, key), cmd, key) + if Adds(cmd, key) then [cmd.clientId] else []
  {
  }

  lemma {:induction false} FilteredAppend(keep: Keep, a: seq<ClientId>, b: seq<ClientId>, cmd: ManagerCmd, key: Key)
    ensures Filtered(keep, a + b, cmd, key) == Filtered(keep, a, cmd, key) + Filtered(keep, b, cmd, key)
  {
    if cmd.Removal() {
      RetainAppend(keep, cmd.clientId, a, b);
    }
  }

  lemma {:induction false} FilteredOne(keep: Keep, id: ClientId, cmd: ManagerCmd, key: Key)
    ensures Filtered(keep, [id], cmd, key) == if Survives(keep, cmd, key, id) then [id] else []
    ensures Filtered(keep, [], cmd, key) == []
  {
    if cmd.Removal() {
      var removed := cmd.clientId;
      assert Retain(keep, removed, [id]) == if keep(removed, id) then [id] else [] by {
        assert [id][1..] == [];
      }
    }
  }

  lemma {:induction false} LiveAtStep(keep: Keep, cmds: seq<ManagerCmd>, cmd: ManagerCmd, key: Key, j: nat)
    requires j < |cmds|
    ensures LiveAt(keep, cmds + [cmd], key, j)
        <==> LiveAt(keep, cmds, key, j) && Survives(keep, cmd, key, cmds[j].clientId)
  {
    var all := cmds + [cmd];
    assert forall m :: 0 <= m < |cmds| ==> all[m] == cmds[m];
    assert all[|cmds|] == cmd;
  }

  lemma {:induction false} LiveOwnersStep(keep: Keep, cmds: seq<ManagerCmd>, cmd: ManagerCmd, key: Key, n: nat)
    requires n <= |cmds|
    ensures LiveOwners(keep, cmds + [cmd], key, n) == Filtered(keep, LiveOwners(keep, cmds, key, n), cmd, key)
  {
    if n > 0 {
      var j := n - 1;
      LiveOwnersStep(keep, cmds, cmd, key, j);
      LiveAtStep(keep, cmds, cmd, key, j);
      assert (cmds + [cmd])[j] == cmds[j];
      var last := if LiveAt(keep, cmds, key, j) then [cmds[j].clientId] else [];
      FilteredAppend(keep, LiveOwners(keep, cmds, key, j), last, cmd, key);
      if Adds(cmds[j], key) {
        FilteredOne(keep, cmds[j].clientId, cmd, key);
      } else {
        FilteredOne(keep, 0, cmd, key);
      }
    }
  }

  /** The manager's lists hold exactly the live entries of the history, oldest first. */
  lemma {:induction false} ListenersAreLive(keep: Keep, cmds: seq<ManagerCmd>, key: Key)
    ensures Listeners(SubsAfter(keep, map[], cmds), key) == LiveOwners(keep, cmds, key, |cmds|)
  {
    if cmds != [] {
      var front, cmd := cmds[..|cmds| - 1], cmds[|cmds| - 1];
      assert cmds == front + [cmd];
      ListenersAreLive(keep, front, key);
      ReplaySnoc(keep, map[], front, cmd);
      ListStep(keep, SubsAfter(keep, map[], front), cmd, key);
      LiveOwnersStep(keep, front, cmd, key, |front|);
    }
  }

  /** The deliveries of a history, command by command: each dispatched event goes once to
      the client of every subscription that is live at that moment, oldest first. */
  function Ideal(keep: Keep, cmds: seq<ManagerCmd>): seq<Delivery> {
    if cmds == [] then []
    else
      var front, cmd := cmds[..|cmds| - 1], cmds[|cmds| - 1];
      Ideal(keep, front)
      + match cmd
        case DispatchEvent(unit, event) =>
          Fanout(LiveOwners(keep, front, (unit, EventType(event)), |front|), event)
        case _ => []
  }

  lemma {:induction false} ReplayIsIdeal(keep: Keep, cmds: seq<ManagerCmd>)
    ensures Replay(keep, map[], cmds) == Ideal(keep, cmds)
  {
    if cmds != [] {
      var front, cmd := cmds[..|cmds| - 1], cmds[|cmds| - 1];
      assert cmds == front + [cmd];
      ReplayIsIdeal(keep, front);
      ReplaySnoc(keep, map[], front, cmd);
      if cmd.DispatchEvent? {
        ListenersAreLive(keep, front, (cmd.serverId, EventType(cmd.event)));
      }
    }
  }
}
