/** What removing subscriptions does: as it is documented, and as it is written. */
module Removal {
  import opened Sequences
  import opened Protocol
  import opened Subscriptions
  import Replies

  // ---------- What is kept ----------

  /** `kept` consists of exactly the entries of `ids` that pass, in their order. */
  ghost predicate KeepsExactly(passes: ClientId -> bool, ids: seq<ClientId>, kept: seq<ClientId>) {
    exists at: seq<nat> :: SelectedAt(passes, ids, kept, at)
  }

  ghost predicate SelectedAt(passes: ClientId -> bool, ids: seq<ClientId>, kept: seq<ClientId>, at: seq<nat>) {
    EmbedsAt(kept, ids, at) && forall i: nat :: i < |ids| ==> (passes(ids[i]) <==> i in at)
  }

  function Shifted(at: seq<nat>): (shifted: seq<nat>)
    ensures |shifted| == |at| && forall k :: 0 <= k < |at| ==> shifted[k] == at[k] + 1
  {
    seq(|at|, k requires 0 <= k < |at| => at[k] + 1)
  }

  lemma ShiftedIn(at: seq<nat>, i: nat)
    requires i > 0
    ensures i in Shifted(at) <==> i - 1 in at
  {
    if i - 1 in at {
      var k :| 0 <= k < |at| && at[k] == i - 1;
      assert Shifted(at)[k] == i;
    }
  }

  /** An embedding in the tail is one in the whole; the head may go with it. */
  lemma EmbedsInWhole(sub: seq<ClientId>, whole: seq<ClientId>, at: seq<nat>)
    requires whole != [] && EmbedsAt(sub, whole[1..], at)
    ensures EmbedsAt(sub, whole, Shifted(at)) && EmbedsAt([whole[0]] + sub, whole, [0] + Shifted(at))
  {
  }

  lemma {:induction false} RetainSelects(keep: Keep, removed: ClientId, ids: seq<ClientId>) returns (at: seq<nat>)
    ensures EmbedsAt(Retain(keep, removed, ids), ids, at)
    ensures forall i: nat :: i < |ids| ==> (keep(removed, ids[i]) <==> i in at)
  {
    if ids == [] {
      at := [];
    } else {
      var rest := RetainSelects(keep, removed, ids[1..]);
      var kept := Retain(keep, removed, ids[1..]);
      EmbedsInWhole(kept, ids, rest);
      AppendNothing(kept);
      at := if keep(removed, ids[0]) then [0] + Shifted(rest) else Shifted(rest);
      SelectedInWhole((id: ClientId) => keep(removed, id), ids, rest);
    }
  }

  /** Positions in the tail and, if it passes, that of the head are the positions in the
      whole. */
  lemma SelectedInWhole(passes: ClientId -> bool, ids: seq<ClientId>, rest: seq<nat>)
    requires ids != [] && forall i: nat :: i < |ids[1..]| ==> (passes(ids[1..][i]) <==> i in rest)
    ensures var at := if passes(ids[0]) then [0] + Shifted(rest) else Shifted(rest);
            forall i: nat :: i < |ids| ==> (passes(ids[i]) <==> i in at)
  {
    var at := if passes(ids[0]) then [0] + Shifted(rest) else Shifted(rest);
    forall i: nat | i < |ids| ensures passes(ids[i]) <==> i in at {
      if i > 0 {
        ShiftedIn(rest, i);
        assert ids[i] == ids[1..][i - 1];
      }
    }
  }

  lemma AllSelected(ids: seq<ClientId>, passes: ClientId -> bool)
    requires forall id :: passes(id)
    ensures KeepsExactly(passes, ids, ids)
  {
    var at: seq<nat> := seq(|ids|, i requires 0 <= i < |ids| => i);
    forall i: nat | i < |ids| ensures i in at {
      assert at[i] == i;
    }
    assert SelectedAt(passes, ids, ids, at);
  }

  /** The list under `key` is one that the removal is about. */
  predicate Concerns(cmd: ManagerCmd, key: Key)
    requires cmd.Removal()
  {
    cmd.RemoveSubscription? ==> (cmd.serverId, cmd.eventType) == key
  }

  /** A removal keeps, in every list, exactly the entries that survive it, in their order:
      lists it does not concern keep all, the others what the predicate keeps. */
  lemma RemovalKeeps(keep: Keep, subs: Subs, cmd: ManagerCmd, key: Key)
    requires cmd.Removal()
    ensures KeepsExactly((id: ClientId) => Survives(keep, cmd, key, id), Listeners(subs, key), Listeners(NextSubs(keep, subs, cmd), key))
  {
    var survives := (id: ClientId) => Survives(keep, cmd, key, id);
    if !Concerns(cmd, key) {
      AllSelected(Listeners(subs, key), survives);
    } else {
      var at := RetainSelects(keep, cmd.clientId, Listeners(subs, key));
      assert SelectedAt(survives, Listeners(subs, key), Listeners(NextSubs(keep, subs, cmd), key), at);
    }
  }

  // ---------- Who hears more ----------

  /** Nothing in `cmds` subscribes `c`. */
  ghost predicate NeverAdds(cmds: seq<ManagerCmd>, c: ClientId) {
    forall i :: 0 <= i < |cmds| ==> !(cmds[i].AddSubscription? && cmds[i].clientId == c)
  }

  /** `c` is in no list. */
  ghost predicate Absent(subs: Subs, c: ClientId) {
    forall key :: key in subs ==> c !in subs[key]
  }

  ghost predicate SendsNothing(deliveries: seq<Delivery>, c: ClientId) {
    forall i :: 0 <= i < |deliveries| ==> deliveries[i].client != c
  }

  /** Whatever is commanded from here on, `c` is sent nothing until it subscribes again. */
  ghost predicate Silenced(keep: Keep, subs: Subs, c: ClientId) {
    forall cmds :: NeverAdds(cmds, c) ==> SendsNothing(Replay(keep, subs, cmds), c)
  }

  lemma {:induction false} RetainFrom(keep: Keep, removed: ClientId, ids: seq<ClientId>, id: ClientId)
    ensures id in Retain(keep, removed, ids) <==> id in ids && keep(removed, id)
  {
    if ids != [] {
      RetainFrom(keep, removed, ids[1..], id);
    }
  }

  lemma {:induction false} FanoutReaches(ids: seq<ClientId>, event: ServerEvent, c: ClientId)
    ensures SendsNothing(Fanout(ids, event), c) <==> c !in ids
  {
    if ids != [] {
      var rest := Fanout(ids[1..], event);
      FanoutReaches(ids[1..], event, c);
      assert Fanout(ids, event)[0].client == ids[0];
      if c in ids[1..] {
        var i :| 0 <= i < |rest| && rest[i].client == c;
        assert Fanout(ids, event)[i + 1] == rest[i];
      }
    }
  }

  lemma AbsentStep(keep: Keep, subs: Subs, cmd: ManagerCmd, c: ClientId)
    requires Absent(subs, c) && !(cmd.AddSubscription? && cmd.clientId == c)
    ensures Absent(NextSubs(keep, subs, cmd), c) && SendsNothing(Emitted(subs, cmd), c)
  {
    match cmd
    case DispatchEvent(unit, event) => FanoutReaches(Listeners(subs, (unit, EventType(event))), event, c);
    case AddSubscription(_, _, _) =>
    case RemoveSubscription(unit, eventType, removed) => RetainFrom(keep, removed, Listeners(subs, (unit, eventType)), c);
    case RemoveAllSubscriptions(removed) =>
      forall key | key in subs ensures c !in Retain(keep, removed, subs[key]) {
        RetainFrom(keep, removed, subs[key], c);
      }
  }

  lemma {:induction false} AbsentHearsNothing(keep: Keep, subs: Subs, cmds: seq<ManagerCmd>, c: ClientId)
    requires Absent(subs, c) && NeverAdds(cmds, c)
    ensures SendsNothing(Replay(keep, subs, cmds), c)
    decreases |cmds|
  {
    if cmds != [] {
      AbsentStep(keep, subs, cmds[0], c);
      AbsentHearsNothing(keep, NextSubs(keep, subs, cmds[0]), cmds[1..], c);
    }
  }

  /** An event of the given type. */
  function Sample(eventType: ServerEventType, unit: UnitId): (event: ServerEvent)
    ensures EventType(event) == eventType
  {
    match eventType
    case TServerStarting => ServerStarting(unit)
    case TServerStarted => ServerStarted(unit)
    case TServerStopping => ServerStopping(unit)
    case TServerStopped => ServerStopped(unit)
    case TActionProgress => ActionProgress(unit, "", None, None, 0)
    case TInstallationComplete => InstallationComplete(unit)
    case TInstallationFailed => InstallationFailed(unit, "")
    case TUpdateComplete => UpdateComplete(unit)
    case TUpdateFailed => UpdateFailed(unit, "")
    case TServerFailed => ServerFailed(unit, "")
  }

  /** A client is silenced exactly if it is in no list. */
  lemma SilencedMeansAbsent(keep: Keep, subs: Subs, c: ClientId)
    ensures Silenced(keep, subs, c) <==> Absent(subs, c)
  {
    if Absent(subs, c) {
      forall cmds | NeverAdds(cmds, c) ensures SendsNothing(Replay(keep, subs, cmds), c) {
        AbsentHearsNothing(keep, subs, cmds, c);
      }
    } else {
      var key :| key in subs && c in subs[key];
      var event := Sample(key.1, key.0);
      var cmds := [DispatchEvent(key.0, event)];
      FanoutReaches(subs[key], event, c);
      assert Replay(keep, subs, cmds) == Fanout(subs[key], event);
      assert NeverAdds(cmds, c);
    }
  }

  /** Nothing in `cmds` subscribes `c` under `key`. */
  ghost predicate NeverAddsUnder(cmds: seq<ManagerCmd>, key: Key, c: ClientId) {
    forall i :: 0 <= i < |cmds| ==> !(Adds(cmds[i], key) && cmds[i].clientId == c)
  }

  /** Whatever is commanded from here on, `c` is sent no event dispatched under `key` until it
      subscribes under `key` again. */
  ghost predicate SilencedUnder(keep: Keep, subs: Subs, key: Key, c: ClientId) {
    forall cmds, event :: NeverAddsUnder(cmds, key, c) && EventType(event) == key.1
      ==> SendsNothing(Emitted(SubsAfter(keep, subs, cmds), DispatchEvent(key.0, event)), c)
  }

  lemma {:induction false} StaysUnlisted(keep: Keep, subs: Subs, cmds: seq<ManagerCmd>, key: Key, c: ClientId)
    requires c !in Listeners(subs, key) && NeverAddsUnder(cmds, key, c)
    ensures c !in Listeners(SubsAfter(keep, subs, cmds), key)
    decreases |cmds|
  {
    if cmds != [] {
      if cmds[0].Removal() {
        RetainFrom(keep, cmds[0].clientId, Listeners(subs, key), c);
      }
      StaysUnlisted(keep, NextSubs(keep, subs, cmds[0]), cmds[1..], key, c);
    }
  }

  /** A client is silenced under a key exactly if it is not in its list. */
  lemma SilencedMeansUnlisted(keep: Keep, subs: Subs, key: Key, c: ClientId)
    ensures SilencedUnder(keep, subs, key, c) <==> c !in Listeners(subs, key)
  {
    if c !in Listeners(subs, key) {
      forall cmds, event | NeverAddsUnder(cmds, key, c) && EventType(event) == key.1
        ensures SendsNothing(Emitted(SubsAfter(keep, subs, cmds), DispatchEvent(key.0, event)), c)
      {
        StaysUnlisted(keep, subs, cmds, key, c);
        FanoutReaches(Listeners(SubsAfter(keep, subs, cmds), key), event, c);
      }
    } else {
      var event := Sample(key.1, key.0);
      FanoutReaches(Listeners(subs, key), event, c);
      assert NeverAddsUnder([], key, c);
      assert !SendsNothing(Emitted(SubsAfter(keep, subs, []), DispatchEvent(key.0, event)), c);
    }
  }

  /** What a removal leaves of a list that it concerns. */
  lemma RemovedFrom(keep: Keep, subs: Subs, cmd: ManagerCmd, key: Key, id: ClientId)
    requires cmd.Removal() && Concerns(cmd, key)
    ensures id in Listeners(NextSubs(keep, subs, cmd), key) <==> id in Listeners(subs, key) && keep(cmd.clientId, id)
  {
    RetainFrom(keep, cmd.clientId, Listeners(subs, key), id);
  }

  // ---------- As documented ----------

  /** As documented, either removal silences its client under every key that it concerns and
      no other client. */
  lemma DocumentedSilences(subs: Subs, cmd: ManagerCmd, key: Key, other: ClientId)
    requires cmd.Removal() && Concerns(cmd, key) && other != cmd.clientId
    ensures SilencedUnder(KeepAsDocumented, NextSubs(KeepAsDocumented, subs, cmd), key, cmd.clientId)
    ensures SilencedUnder(KeepAsDocumented, NextSubs(KeepAsDocumented, subs, cmd), key, other)
        <==> SilencedUnder(KeepAsDocumented, subs, key, other)
  {
    var subs' := NextSubs(KeepAsDocumented, subs, cmd);
    RemovedFrom(KeepAsDocumented, subs, cmd, key, cmd.clientId);
    RemovedFrom(KeepAsDocumented, subs, cmd, key, other);
    SilencedMeansUnlisted(KeepAsDocumented, subs', key, cmd.clientId);
    SilencedMeansUnlisted(KeepAsDocumented, subs', key, other);
    SilencedMeansUnlisted(KeepAsDocumented, subs, key, other);
  }

  /** As documented, removal silences the client until it subscribes again, and every other
      client's entries stay, in their order. */
  lemma DocumentedRemoval(subs: Subs, c: ClientId)
    ensures Silenced(KeepAsDocumented, NextSubs(KeepAsDocumented, subs, RemoveAllSubscriptions(c)), c)
    ensures forall key :: KeepsExactly((id: ClientId) => id != c, Listeners(subs, key),
              Listeners(NextSubs(KeepAsDocumented, subs, RemoveAllSubscriptions(c)), key))
  {
    var subs' := NextSubs(KeepAsDocumented, subs, RemoveAllSubscriptions(c));
    forall key | key in subs' ensures c !in subs'[key] {
      RetainFrom(KeepAsDocumented, c, subs[key], c);
    }
    SilencedMeansAbsent(KeepAsDocumented, subs', c);
    forall key ensures KeepsExactly((id: ClientId) => id != c, Listeners(subs, key), Listeners(subs', key)) {
      var at := RetainSelects(KeepAsDocumented, c, Listeners(subs, key));
      assert SelectedAt((id: ClientId) => id != c, Listeners(subs, key), Listeners(subs', key), at);
    }
  }

  /** The documented removal ends what a client hears of a whole history until it subscribes
      again: it has heard what came before, and nothing since. */
  lemma DocumentedRemovalInHistory(before: seq<ManagerCmd>, c: ClientId, since: seq<ManagerCmd>)
    requires NeverAdds(since, c)
    ensures Collect(Replay(KeepAsDocumented, map[], before + [RemoveAllSubscriptions(c)] + since), Replies.EventDelivered(c))
         == Collect(Replay(KeepAsDocumented, map[], before), Replies.EventDelivered(c))
  {
    var heard, removal := Replies.EventDelivered(c), before + [RemoveAllSubscriptions(c)];
    ReplaySnoc(KeepAsDocumented, map[], before, RemoveAllSubscriptions(c));
    ReplayAppend(KeepAsDocumented, map[], removal, since);
    var subs := SubsAfter(KeepAsDocumented, map[], before);
    DocumentedRemoval(subs, c);
    var after := Replay(KeepAsDocumented, NextSubs(KeepAsDocumented, subs, RemoveAllSubscriptions(c)), since);
    assert SendsNothing(after, c);
    CollectNothing(after, heard);
    CollectAppend(Replay(KeepAsDocumented, map[], removal), after, heard);
    var past := Replay(KeepAsDocumented, map[], before);
    assert Replay(KeepAsDocumented, map[], removal) == past + [] == past;
    assert Collect(past, heard) + [] == Collect(past, heard);
  }

  // ---------- As written ----------

  /** No list that the removal concerns has an entry. */
  ghost predicate NoEntries(subs: Subs, cmd: ManagerCmd)
    requires cmd.Removal()
  {
    forall key :: key in subs && Concerns(cmd, key) ==> subs[key] == []
  }

  /** As written, either removal keeps, in the lists it concerns, exactly the entries of the
      client that should go. */
  lemma WrittenRemovalKeepsTheWrongOnes(subs: Subs, cmd: ManagerCmd, key: Key)
    requires cmd.Removal()
    ensures KeepsExactly((id: ClientId) => Concerns(cmd, key) ==> id == cmd.clientId, Listeners(subs, key),
              Listeners(NextSubs(KeepAsWritten, subs, cmd), key))
  {
    var passes := (id: ClientId) => Concerns(cmd, key) ==> id == cmd.clientId;
    if Concerns(cmd, key) {
      var at := RetainSelects(KeepAsWritten, cmd.clientId, Listeners(subs, key));
      assert SelectedAt(passes, Listeners(subs, key), Listeners(NextSubs(KeepAsWritten, subs, cmd), key), at);
    } else {
      AllSelected(Listeners(subs, key), passes);
    }
  }

  /** As written, either removal does what it should exactly if there is no entry in any list
      that it concerns. */
  lemma WrittenIsDocumentedExactlyWhen(subs: Subs, cmd: ManagerCmd)
    requires cmd.Removal()
    ensures NextSubs(KeepAsWritten, subs, cmd) == NextSubs(KeepAsDocumented, subs, cmd) <==> NoEntries(subs, cmd)
  {
    var w, d := NextSubs(KeepAsWritten, subs, cmd), NextSubs(KeepAsDocumented, subs, cmd);
    if !NoEntries(subs, cmd) {
      var key :| key in subs && Concerns(cmd, key) && subs[key] != [];
      var id := subs[key][0];
      RetainFrom(KeepAsWritten, cmd.clientId, subs[key], id);
      RetainFrom(KeepAsDocumented, cmd.clientId, subs[key], id);
      assert w[key] != d[key];
    }
  }

  /** As written, either removal silences its client under a key that it concerns exactly if it
      was not in the list, and it always silences everyone else there. */
  lemma WrittenSilencesTheOthers(subs: Subs, cmd: ManagerCmd, key: Key, other: ClientId)
    requires cmd.Removal() && Concerns(cmd, key) && other != cmd.clientId
    ensures SilencedUnder(KeepAsWritten, NextSubs(KeepAsWritten, subs, cmd), key, cmd.clientId)
        <==> cmd.clientId !in Listeners(subs, key)
    ensures SilencedUnder(KeepAsWritten, NextSubs(KeepAsWritten, subs, cmd), key, other)
  {
    var subs' := NextSubs(KeepAsWritten, subs, cmd);
    RemovedFrom(KeepAsWritten, subs, cmd, key, cmd.clientId);
    RemovedFrom(KeepAsWritten, subs, cmd, key, other);
    SilencedMeansUnlisted(KeepAsWritten, subs', key, cmd.clientId);
    SilencedMeansUnlisted(KeepAsWritten, subs', key, other);
  }

  /** As written, the client is silenced exactly if it was in no list to begin with, and every
      other client is silenced instead. */
  lemma WrittenSilencesExactlyWhen(subs: Subs, c: ClientId, other: ClientId)
    requires other != c
    ensures Silenced(KeepAsWritten, NextSubs(KeepAsWritten, subs, RemoveAllSubscriptions(c)), c) <==> Absent(subs, c)
    ensures Silenced(KeepAsWritten, NextSubs(KeepAsWritten, subs, RemoveAllSubscriptions(c)), other)
  {
    var subs' := NextSubs(KeepAsWritten, subs, RemoveAllSubscriptions(c));
    forall key | key in subs
      ensures (c in subs'[key] <==> c in subs[key]) && other !in subs'[key]
    {
      RetainFrom(KeepAsWritten, c, subs[key], c);
      RetainFrom(KeepAsWritten, c, subs[key], other);
    }
    SilencedMeansAbsent(KeepAsWritten, subs', c);
    SilencedMeansAbsent(KeepAsWritten, subs', other);
  }

  /** Two clients listen for one key and the first leaves: as written, it is the second that
      is dropped. */
  lemma LeavingDropsTheOthers(unit: UnitId, eventType: ServerEventType)
    ensures var key := (unit, eventType);
            var cmds := [AddSubscription(unit, eventType, 0), AddSubscription(unit, eventType, 1), RemoveAllSubscriptions(0)];
            && Listeners(SubsAfter(KeepAsWritten, map[], cmds), key) == [0]
            && Listeners(SubsAfter(KeepAsDocumented, map[], cmds), key) == [1]
  {
    var first, second := AddSubscription(unit, eventType, 0), AddSubscription(unit, eventType, 1);
    TwoListen(KeepAsWritten, unit, eventType);
    TwoListen(KeepAsDocumented, unit, eventType);
    ReplaySnoc(KeepAsWritten, map[], [first, second], RemoveAllSubscriptions(0));
    ReplaySnoc(KeepAsDocumented, map[], [first, second], RemoveAllSubscriptions(0));
    var ids := [0, 1];
    assert ids[1..] == [1] && ids[1..][1..] == [];
    assert [first, second] + [RemoveAllSubscriptions(0)] == [first, second, RemoveAllSubscriptions(0)];
  }

  lemma TwoListen(keep: Keep, unit: UnitId, eventType: ServerEventType)
    ensures SubsAfter(keep, map[], [AddSubscription(unit, eventType, 0), AddSubscription(unit, eventType, 1)])
         == map[(unit, eventType) := [0, 1]]
  {
    var first, second := AddSubscription(unit, eventType, 0), AddSubscription(unit, eventType, 1);
    ReplaySnoc(keep, map[], [], first);
    ReplaySnoc(keep, map[], [first], second);
    assert [] + [first] == [first] && [first] + [second] == [first, second];
    var none: Subs := map[];
    assert Listeners(none, (unit, eventType)) + [0] == [0] && [0] + [1] == [0, 1];
  }
}
