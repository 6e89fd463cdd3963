/** What one client hears of a history in which it subscribed to each key at most once. */
module Hearing {
  import opened Sequences
  import opened Protocol
  import opened Subscriptions
  import opened Replies
  import opened Provenance
  import opened Removal

  /** No two subscriptions of `c` are for the same key. */
  ghost predicate OncePerKey(hist: seq<ManagerCmd>, c: ClientId) {
    var keys := KeysAdded(hist, c);
    forall i, j :: 0 <= i < j < |keys| ==> keys[i] != keys[j]
  }

  /** Removal `cmd` leaves the subscriptions `c` made in `before` alone. */
  ghost predicate Spares(keep: Keep, before: seq<ManagerCmd>, cmd: ManagerCmd, c: ClientId) {
    cmd.Removal() ==> forall key :: key in KeysAdded(before, c) ==> Survives(keep, cmd, key, c)
  }

  /** The subscriptions of `c` survive every removal that comes after them. */
  ghost predicate Undisturbed(keep: Keep, hist: seq<ManagerCmd>, c: ClientId) {
    forall i :: 0 <= i < |hist| ==> Spares(keep, hist[..i], hist[i], c)
  }

  /** The events dispatched after `c` subscribed to their key, in order. */
  function Heard(hist: seq<ManagerCmd>, c: ClientId): seq<ServerEvent> {
    if hist == [] then []
    else
      var front, cmd := hist[..|hist| - 1], hist[|hist| - 1];
      Heard(front, c)
      + if cmd.DispatchEvent? && (cmd.serverId, EventType(cmd.event)) in KeysAdded(front, c) then [cmd.event] else []
  }

  lemma {:induction false} RetainCount(keep: Keep, removed: ClientId, ids: seq<ClientId>, c: ClientId)
    ensures Occurrences(Retain(keep, removed, ids), c) == if keep(removed, c) then Occurrences(ids, c) else 0
  {
    if ids != [] {
      RetainCount(keep, removed, ids[1..], c);
      OccurrencesAppend(if keep(removed, ids[0]) then [ids[0]] else [], Retain(keep, removed, ids[1..]), c);
      assert [ids[0]][1..] == [];
    }
  }

  lemma FrontFacts(keep: Keep, hist: seq<ManagerCmd>, c: ClientId)
    requires hist != [] && Undisturbed(keep, hist, c)
    ensures var front := hist[..|hist| - 1];
            && Undisturbed(keep, front, c)
            && KeysAdded(hist, c) == KeysAdded(front, c) + AddedBy(c)(hist[|hist| - 1])
            && Spares(keep, front, hist[|hist| - 1], c)
  {
    var front := hist[..|hist| - 1];
    SplitAt(hist, |hist| - 1);
    assert hist == front + [hist[|hist| - 1]];
    CollectSnoc(front, hist[|hist| - 1], AddedBy(c));
    forall i | 0 <= i < |front| ensures Spares(keep, front[..i], front[i], c) {
      assert front[..i] == hist[..i] && front[i] == hist[i];
    }
  }

  lemma {:induction false} KeyCount(added: seq<Key>, more: seq<Key>, key: Key)
    ensures Occurrences(added + more, key) == Occurrences(added, key) + Occurrences(more, key)
    ensures |more| == 1 ==> Occurrences(more, key) == if more[0] == key then 1 else 0
  {
    OccurrencesAppend(added, more, key);
    if |more| == 1 {
      assert more[1..] == [];
    }
  }

  /** What a removal that spares `c` leaves of one list. */
  lemma FilteredCount(keep: Keep, front: seq<ManagerCmd>, ids: seq<ClientId>, cmd: ManagerCmd, c: ClientId, key: Key)
    requires Spares(keep, front, cmd, c) && Occurrences(ids, c) == Occurrences(KeysAdded(front, c), key)
    ensures Occurrences(Filtered(keep, ids, cmd, key), c) == Occurrences(ids, c)
  {
    OccurrencesIn(KeysAdded(front, c), key);
    if cmd.Removal() {
      RetainCount(keep, cmd.clientId, ids, c);
    }
  }

  /** As long as `c` is undisturbed, it is in the list of a key as often as it subscribed. */
  lemma {:induction false} ListedAsSubscribed(keep: Keep, hist: seq<ManagerCmd>, c: ClientId, key: Key)
    requires Undisturbed(keep, hist, c)
    ensures Occurrences(Listeners(SubsAfter(keep, map[], hist), key), c) == Occurrences(KeysAdded(hist, c), key)
  {
    if hist != [] {
      var front, cmd := hist[..|hist| - 1], hist[|hist| - 1];
      assert hist == front + [cmd];
      FrontFacts(keep, hist, c);
      ListedAsSubscribed(keep, front, c, key);
      ReplaySnoc(keep, map[], front, cmd);
      var before := Listeners(SubsAfter(keep, map[], front), key);
      ListStep(keep, SubsAfter(keep, map[], front), cmd, key);
      var added := if Adds(cmd, key) then [cmd.clientId] else [];
      OccurrencesAppend(Filtered(keep, before, cmd, key), added, c);
      KeyCount(KeysAdded(front, c), AddedBy(c)(cmd), key);
      FilteredCount(keep, front, before, cmd, c, key);
      assert Adds(cmd, key) ==> added[1..] == [];
    }
  }

  lemma {:induction false} FanoutToOne(ids: seq<ClientId>, event: ServerEvent, c: ClientId)
    requires Occurrences(ids, c) <= 1
    ensures Collect(Fanout(ids, event), EventDelivered(c)) == if c in ids then [event] else []
  {
    OccurrencesIn(ids, c);
    if ids != [] {
      FanoutToOne(ids[1..], event, c);
      OccurrencesIn(ids[1..], c);
      assert Fanout(ids, event)[1..] == Fanout(ids[1..], event);
    }
  }

  lemma {:induction false} OnceMeansOne(keys: seq<Key>, key: Key)
    requires forall i, j :: 0 <= i < j < |keys| ==> keys[i] != keys[j]
    ensures Occurrences(keys, key) <= 1
  {
    if keys != [] {
      OnceMeansOne(keys[1..], key);
      OccurrencesIn(keys[1..], key);
    }
  }

  /** What the manager emits to `c` over the whole history is what `c` should hear. */
  lemma {:induction false} HearsEverything(keep: Keep, hist: seq<ManagerCmd>, c: ClientId)
    requires OncePerKey(hist, c) && Undisturbed(keep, hist, c)
    ensures Collect(Replay(keep, map[], hist), EventDelivered(c)) == Heard(hist, c)
  {
    if hist != [] {
      var front, cmd := hist[..|hist| - 1], hist[|hist| - 1];
      assert hist == front + [cmd];
      FrontFacts(keep, hist, c);
      var keys, more := KeysAdded(front, c), AddedBy(c)(cmd);
      assert forall i :: 0 <= i < |keys| ==> (keys + more)[i] == keys[i];
      HearsEverything(keep, front, c);
      ReplaySnoc(keep, map[], front, cmd);
      CollectAppend(Replay(keep, map[], front), Emitted(SubsAfter(keep, map[], front), cmd), EventDelivered(c));
      if cmd.DispatchEvent? {
        DispatchHeard(keep, front, cmd, c);
      }
    }
  }

  lemma DispatchHeard(keep: Keep, front: seq<ManagerCmd>, cmd: ManagerCmd, c: ClientId)
    requires OncePerKey(front, c) && Undisturbed(keep, front, c) && cmd.DispatchEvent?
    ensures Collect(Emitted(SubsAfter(keep, map[], front), cmd), EventDelivered(c))
         == if (cmd.serverId, EventType(cmd.event)) in KeysAdded(front, c) then [cmd.event] else []
  {
    var key := (cmd.serverId, EventType(cmd.event));
    ListedAsSubscribed(keep, front, c, key);
    OnceMeansOne(KeysAdded(front, c), key);
    OccurrencesIn(KeysAdded(front, c), key);
    OccurrencesIn(Listeners(SubsAfter(keep, map[], front), key), c);
    FanoutToOne(Listeners(SubsAfter(keep, map[], front), key), cmd.event, c);
  }

  // ---------- Where a given message is heard ----------

  lemma {:induction false} HeardPrefix(hist: seq<ManagerCmd>, n: nat, c: ClientId)
    requires n <= |hist|
    ensures Heard(hist[..n], c) <= Heard(hist, c)
  {
    if n < |hist| {
      var front := hist[..|hist| - 1];
      assert front[..n] == hist[..n];
      HeardPrefix(front, n, c);
    } else {
      assert hist[..n] == hist;
    }
  }

  ghost predicate Dispatches(cmd: ManagerCmd, event: ServerEvent, keys: seq<Key>) {
    cmd.DispatchEvent? && cmd.event == event && (cmd.serverId, EventType(event)) in keys
  }

  lemma HeardAt(hist: seq<ManagerCmd>, n: nat, c: ClientId)
    requires n < |hist| && hist[n].DispatchEvent? && Dispatches(hist[n], hist[n].event, KeysAdded(hist[..n], c))
    ensures |Heard(hist[..n], c)| < |Heard(hist, c)|
    ensures Heard(hist, c)[|Heard(hist[..n], c)|] == hist[n].event
    ensures |Heard(hist[..n + 1], c)| == |Heard(hist[..n], c)| + 1
  {
    var next := hist[..n + 1];
    assert next[..|next| - 1] == hist[..n] && next[|next| - 1] == hist[n];
    HeardPrefix(hist, n + 1, c);
  }

  /** The k-th message dispatches the k-th event, at its place, after `c` subscribed to its key. */
  ghost predicate AddressedAt(
    cmds: seq<ManagerCmd>, events: seq<ServerEvent>, hist: seq<ManagerCmd>, at: seq<nat>, c: ClientId, k: nat)
  {
    && k < |cmds| && k < |events| && k < |at| && at[k] <= |hist|
    && Dispatches(cmds[k], events[k], KeysAdded(hist[..at[k]], c))
  }

  /** The messages `cmds` with these events are in the history at `at`, each after `c` subscribed
      to its key. */
  ghost predicate Addressed(cmds: seq<ManagerCmd>, events: seq<ServerEvent>, hist: seq<ManagerCmd>, at: seq<nat>, c: ClientId) {
    && EmbedsAt(cmds, hist, at) && |events| == |cmds|
    && forall k: nat :: k < |cmds| ==> AddressedAt(cmds, events, hist, at, c, k)
  }

  lemma AddressedHeard(cmds: seq<ManagerCmd>, events: seq<ServerEvent>, hist: seq<ManagerCmd>, at: seq<nat>, c: ClientId, k: nat)
    requires Addressed(cmds, events, hist, at, c) && k < |at|
    ensures at[k] < |hist| && |Heard(hist[..at[k]], c)| < |Heard(hist, c)|
    ensures Heard(hist, c)[|Heard(hist[..at[k]], c)|] == events[k]
    ensures |Heard(hist[..at[k] + 1], c)| == |Heard(hist[..at[k]], c)| + 1
  {
    assert AddressedAt(cmds, events, hist, at, c, k) && hist[at[k]] == cmds[k];
    HeardAt(hist, at[k], c);
  }

  lemma HeardEarlier(hist: seq<ManagerCmd>, i: nat, j: nat, c: ClientId)
    requires i < j <= |hist|
    ensures |Heard(hist[..i + 1], c)| <= |Heard(hist[..j], c)|
  {
    assert hist[..j][..i + 1] == hist[..i + 1];
    HeardPrefix(hist[..j], i + 1, c);
  }

  /** Messages sent after `c` subscribed to their keys are heard once each, in their order. */
  lemma {:induction false} SentIsHeard(cmds: seq<ManagerCmd>, events: seq<ServerEvent>, hist: seq<ManagerCmd>, at: seq<nat>, c: ClientId)
    requires Addressed(cmds, events, hist, at, c)
    ensures exists heardAt :: EmbedsAt(events, Heard(hist, c), heardAt)
  {
    var heardAt: seq<nat> := seq(|at|, k requires 0 <= k < |at| => |Heard(hist[..at[k]], c)|);
    forall k | 0 <= k < |at|
      ensures heardAt[k] < |Heard(hist, c)| && Heard(hist, c)[heardAt[k]] == events[k]
    {
      AddressedHeard(cmds, events, hist, at, c, k);
    }
    forall i, j | 0 <= i < j < |at| ensures heardAt[i] < heardAt[j] {
      AddressedHeard(cmds, events, hist, at, c, i);
      HeardEarlier(hist, at[i], at[j], c);
    }
    assert EmbedsAt(events, Heard(hist, c), heardAt);
  }

  /** Message `i` of the history is one that `c` hears. */
  ghost predicate Contributes(hist: seq<ManagerCmd>, i: nat, c: ClientId)
    requires i < |hist|
  {
    hist[i].DispatchEvent? && Dispatches(hist[i], hist[i].event, KeysAdded(hist[..i], c))
  }

  lemma PrefixContributes(hist: seq<ManagerCmd>, n: nat, i: nat, c: ClientId)
    requires i < n <= |hist|
    ensures Contributes(hist[..n], i, c) <==> Contributes(hist, i, c)
  {
    assert hist[..n][..i] == hist[..i];
  }

  ghost predicate NothingElse(hist: seq<ManagerCmd>, at: seq<nat>, c: ClientId) {
    forall i: nat {:trigger Contributes(hist, i, c)} :: i < |hist| && Contributes(hist, i, c) ==> i in at
  }

  /** What `c` hears is exactly the messages `cmds`, found at `at`, with these events. */
  ghost predicate HeardAs(cmds: seq<ManagerCmd>, events: seq<ServerEvent>, hist: seq<ManagerCmd>, at: seq<nat>, c: ClientId) {
    Addressed(cmds, events, hist, at, c) && NothingElse(hist, at, c)
  }

  lemma {:induction false} HeardExactly(cmds: seq<ManagerCmd>, events: seq<ServerEvent>, hist: seq<ManagerCmd>, at: seq<nat>, c: ClientId)
    requires HeardAs(cmds, events, hist, at, c)
    ensures Heard(hist, c) == events
    decreases |hist|
  {
    if hist == [] {
      assert |at| == 0;
    } else if at != [] && at[|at| - 1] == |hist| - 1 {
      var m := |at| - 1;
      LastHeard(cmds, events, hist, at, c);
      HeardExactly(cmds[..m], events[..m], hist[..|hist| - 1], at[..m], c);
      LastSplit(events);
    } else {
      EarlierHeard(cmds, events, hist, at, c);
      HeardExactly(cmds, events, hist[..|hist| - 1], at, c);
    }
  }

  /** The first `m` of the messages, in a part of the history that has them all. */
  lemma AddressedPrefix(
    cmds: seq<ManagerCmd>, events: seq<ServerEvent>, hist: seq<ManagerCmd>, at: seq<nat>, c: ClientId, m: nat, n: nat)
    requires Addressed(cmds, events, hist, at, c) && m <= |at| && n <= |hist| && forall k :: 0 <= k < m ==> at[k] < n
    ensures Addressed(cmds[..m], events[..m], hist[..n], at[..m], c)
  {
    forall k: nat | k < m ensures AddressedAt(cmds[..m], events[..m], hist[..n], at[..m], c, k) {
      assert AddressedAt(cmds, events, hist, at, c, k);
      assert hist[..n][..at[k]] == hist[..at[k]];
    }
  }

  /** The last of the messages is the last of the history: the others are in front of it. */
  lemma LastHeard(cmds: seq<ManagerCmd>, events: seq<ServerEvent>, hist: seq<ManagerCmd>, at: seq<nat>, c: ClientId)
    requires HeardAs(cmds, events, hist, at, c) && hist != [] && at != [] && at[|at| - 1] == |hist| - 1
    ensures var m, front := |at| - 1, hist[..|hist| - 1];
            HeardAs(cmds[..m], events[..m], front, at[..m], c) && Heard(hist, c) == Heard(front, c) + [events[m]]
  {
    var m, front := |at| - 1, hist[..|hist| - 1];
    assert hist[at[m]] == cmds[m] && AddressedAt(cmds, events, hist, at, c, m);
    AddressedPrefix(cmds, events, hist, at, c, m, |hist| - 1);
    forall i: nat | i < |front| && Contributes(front, i, c) ensures i in at[..m] {
      PrefixContributes(hist, |hist| - 1, i, c);
      var k :| 0 <= k < |at| && at[k] == i;
      assert at[..m][k] == i;
    }
  }

  /** The last of the history is not among the messages. */
  lemma EarlierHeard(cmds: seq<ManagerCmd>, events: seq<ServerEvent>, hist: seq<ManagerCmd>, at: seq<nat>, c: ClientId)
    requires HeardAs(cmds, events, hist, at, c) && hist != [] && (at == [] || at[|at| - 1] != |hist| - 1)
    ensures var front := hist[..|hist| - 1]; HeardAs(cmds, events, front, at, c) && Heard(hist, c) == Heard(front, c)
  {
    var n, front := |hist| - 1, hist[..|hist| - 1];
    forall k | 0 <= k < |at| ensures at[k] < n {
      assert at[k] <= at[|at| - 1];
    }
    AddressedPrefix(cmds, events, hist, at, c, |at|, n);
    assert cmds[..|at|] == cmds && events[..|at|] == events && at[..|at|] == at;
    assert !Contributes(hist, n, c);
    AppendNothing(Heard(front, c));
    forall i: nat | i < n && Contributes(front, i, c) ensures i in at {
      PrefixContributes(hist, n, i, c);
    }
  }

  // ---------- After a disturbance ----------

  /** What was subscribed to by some point stays subscribed to. */
  lemma {:induction false} KeysGrow(hist: seq<ManagerCmd>, i: nat, c: ClientId)
    requires i <= |hist|
    ensures KeysAdded(hist[..i], c) <= KeysAdded(hist, c)
  {
    assert hist == hist[..i] + hist[i..];
    CollectAppend(hist[..i], hist[i..], AddedBy(c));
  }

  /** Who has subscribed to a key has done so by some message. */
  lemma {:induction false} KeyIsAdded(hist: seq<ManagerCmd>, c: ClientId, key: Key)
    ensures key in KeysAdded(hist, c) <==> AddSubscription(key.0, key.1, c) in hist
  {
    if hist != [] {
      KeyIsAdded(hist[1..], c, key);
      assert hist[0] == hist[0] && forall m :: m in hist <==> m == hist[0] || m in hist[1..];
    }
  }

  /** Who is in a list has subscribed to its key. */
  lemma {:induction false} ListedHasSubscribed(keep: Keep, hist: seq<ManagerCmd>, c: ClientId, key: Key)
    requires c in Listeners(SubsAfter(keep, map[], hist), key)
    ensures key in KeysAdded(hist, c)
  {
    var front, cmd := hist[..|hist| - 1], hist[|hist| - 1];
    assert hist == front + [cmd];
    CollectSnoc(front, cmd, AddedBy(c));
    ReplaySnoc(keep, map[], front, cmd);
    var before := Listeners(SubsAfter(keep, map[], front), key);
    ListStep(keep, SubsAfter(keep, map[], front), cmd, key);
    if c in Filtered(keep, before, cmd, key) {
      FilteredFrom(keep, before, cmd, key, c);
      ListedHasSubscribed(keep, front, c, key);
    }
  }

  lemma FilteredFrom(keep: Keep, ids: seq<ClientId>, cmd: ManagerCmd, key: Key, c: ClientId)
    requires c in Filtered(keep, ids, cmd, key)
    ensures c in ids
  {
    if cmd.Removal() {
      RetainFrom(keep, cmd.clientId, ids, c);
    }
  }

  lemma {:induction false} FanoutOnly(ids: seq<ClientId>, event: ServerEvent, c: ClientId)
    ensures forall e :: e in Collect(Fanout(ids, event), EventDelivered(c)) ==> e == event && c in ids
  {
    if ids != [] {
      FanoutOnly(ids[1..], event, c);
      assert Fanout(ids, event)[1..] == Fanout(ids[1..], event);
    }
  }

  /** Message `i`, after the first `n`, announces `event` and is one `c` subscribed to. */
  ghost predicate HeardFrom(hist: seq<ManagerCmd>, n: nat, c: ClientId, event: ServerEvent, i: nat) {
    n <= i < |hist| && Contributes(hist, i, c) && hist[i].event == event
  }

  ghost predicate HeardSince(hist: seq<ManagerCmd>, n: nat, c: ClientId, events: seq<ServerEvent>) {
    forall event :: event in events ==> exists i: nat :: HeardFrom(hist, n, c, event, i)
  }

  /** The manager emits to `c` at most what it subscribed to. */
  lemma LastIsSubscribed(keep: Keep, hist: seq<ManagerCmd>, n: nat, c: ClientId)
    requires n < |hist|
    ensures var front, cmd := hist[..|hist| - 1], hist[|hist| - 1];
            HeardSince(hist, n, c, Collect(Emitted(SubsAfter(keep, map[], front), cmd), EventDelivered(c)))
  {
    var last := |hist| - 1;
    var front, cmd := hist[..last], hist[last];
    if cmd.DispatchEvent? {
      var ids := Listeners(SubsAfter(keep, map[], front), (cmd.serverId, EventType(cmd.event)));
      FanoutOnly(ids, cmd.event, c);
      if c in ids {
        ListedHasSubscribed(keep, front, c, (cmd.serverId, EventType(cmd.event)));
        assert HeardFrom(hist, n, c, cmd.event, last);
      }
    }
  }

  lemma FrontHeardSince(hist: seq<ManagerCmd>, n: nat, c: ClientId, events: seq<ServerEvent>)
    requires hist != [] && HeardSince(hist[..|hist| - 1], n, c, events)
    ensures HeardSince(hist, n, c, events)
  {
    var front := hist[..|hist| - 1];
    forall event | event in events ensures exists i: nat :: HeardFrom(hist, n, c, event, i) {
      var i: nat :| HeardFrom(front, n, c, event, i);
      PrefixContributes(hist, |front|, i, c);
      assert HeardFrom(hist, n, c, event, i);
    }
  }

  /** If `c` was undisturbed for the first `n` messages, it is sent what it should hear of those,
      and then only events that were dispatched later and that it had subscribed to. */
  lemma {:induction false} HearsLater(keep: Keep, hist: seq<ManagerCmd>, n: nat, c: ClientId) returns (more: seq<ServerEvent>)
    requires n <= |hist| && OncePerKey(hist, c) && Undisturbed(keep, hist[..n], c)
    ensures Collect(Replay(keep, map[], hist), EventDelivered(c)) == Heard(hist[..n], c) + more
    ensures HeardSince(hist, n, c, more)
    decreases |hist|
  {
    if n == |hist| {
      assert hist[..n] == hist;
      HearsEverything(keep, hist, c);
      AppendNothing(Heard(hist, c));
      more := [];
    } else {
      var front, cmd := hist[..|hist| - 1], hist[|hist| - 1];
      assert hist == front + [cmd] && front[..n] == hist[..n];
      OnceInFront(front, cmd, c);
      var earlier := HearsLater(keep, front, n, c);
      var last := Collect(Emitted(SubsAfter(keep, map[], front), cmd), EventDelivered(c));
      FrontHeardSince(hist, n, c, earlier);
      LastIsSubscribed(keep, hist, n, c);
      ReplaySnoc(keep, map[], front, cmd);
      CollectAppend(Replay(keep, map[], front), Emitted(SubsAfter(keep, map[], front), cmd), EventDelivered(c));
      Associative(Heard(hist[..n], c), earlier, last);
      more := earlier + last;
    }
  }

  lemma OnceInFront(front: seq<ManagerCmd>, cmd: ManagerCmd, c: ClientId)
    requires OncePerKey(front + [cmd], c)
    ensures OncePerKey(front, c)
  {
    CollectSnoc(front, cmd, AddedBy(c));
    var keys := KeysAdded(front, c);
    assert forall i :: 0 <= i < |keys| ==> KeysAdded(front + [cmd], c)[i] == keys[i];
  }
}
