/** What the daemon has stored: each unit as the last worker that finished it handed it over, and
    otherwise as it was loaded. */
module Storing {
  import opened Sequences
  import opened Protocol
  import opened Subscriptions
  import opened System
  import opened Workers
  import opened Stopping
  import Config

  /** Event `at` hands over the unit, and its server can be stored. */
  predicate Hands(taken: seq<DaemonEvent>, id: UnitId, at: nat) {
    at < |taken| && taken[at].AddServerUnit? && taken[at].config.unit.id == id && taken[at].config.server.typeName == "paper"
  }

  ghost predicate HandsLast(taken: seq<DaemonEvent>, id: UnitId, at: nat) {
    Hands(taken, id, at) && forall j: nat :: j > at ==> !Hands(taken, id, j)
  }

  /** The unit is stored as it was handed over last, or as it was loaded. */
  ghost predicate StoredAs(
    loaded: map<UnitId, ServerUnitConfig>, taken: seq<DaemonEvent>, servers: map<UnitId, ServerUnitConfig>, id: UnitId)
  {
    && (forall at: nat :: HandsLast(taken, id, at) ==> id in servers && servers[id] == taken[at].config)
    && ((forall at: nat :: !Hands(taken, id, at)) ==>
          (id in servers <==> id in loaded) && (id in loaded ==> servers[id] == loaded[id]))
  }

  ghost predicate AllStored(loaded: map<UnitId, ServerUnitConfig>, d: Daemon) {
    d.taken <= |d.arrivals| && forall id :: StoredAs(loaded, d.arrivals[..d.taken], d.servers, id)
  }

  lemma HandsMore(taken: seq<DaemonEvent>, e: DaemonEvent, id: UnitId)
    ensures var more := taken + [e];
            && (forall at: nat :: at < |taken| ==> (Hands(more, id, at) <==> Hands(taken, id, at)))
            && (Hands(more, id, |taken|) <==> e.AddServerUnit? && e.config.unit.id == id && e.config.server.typeName == "paper")
  {
  }

  /** One more event taken. */
  lemma {:induction false} StoredMore(
    loaded: map<UnitId, ServerUnitConfig>, taken: seq<DaemonEvent>, servers: map<UnitId, ServerUnitConfig>, e: DaemonEvent,
    servers': map<UnitId, ServerUnitConfig>, id: UnitId)
    requires StoredAs(loaded, taken, servers, id)
    requires servers' == if e.AddServerUnit? && e.config.server.typeName == "paper" then servers[e.config.unit.id := e.config] else servers
    ensures StoredAs(loaded, taken + [e], servers', id)
  {
    var more, n := taken + [e], |taken|;
    HandsMore(taken, e, id);
    forall at: nat | HandsLast(more, id, at) ensures id in servers' && servers'[id] == more[at].config {
      if at < n {
        assert !Hands(more, id, n);
        assert HandsLast(taken, id, at);
      }
    }
    if forall at: nat :: !Hands(more, id, at) {
      assert !Hands(more, id, n);
      forall at: nat ensures !Hands(taken, id, at) {
        assert !Hands(more, id, at);
      }
    }
  }

  lemma TakeStores(s: State, choice: Choice)
    requires s.daemon.dq != [] && s.daemon.handler.None?
    ensures var d, d', e := s.daemon, DoTake(s, choice).daemon, s.daemon.dq[0];
            && d'.taken == d.taken + 1 && d.arrivals <= d'.arrivals
            && d'.servers
               == if e.AddServerUnit? && e.config.server.typeName == "paper" then d.servers[e.config.unit.id := e.config] else d.servers
  {
    match s.daemon.dq[0]
    case SendEvent(client, event) => SendToStores(Noted(Popped(s), Delivery(client, event)), client, Notice(event));
    case _ =>
  }

  lemma SendToStores(s: State, client: ClientId, response: DaemonResponse)
    ensures var d, d' := s.daemon, SendTo(s, client, response).daemon;
            d'.taken == d.taken && d'.arrivals == d.arrivals && d'.servers == d.servers
  {
  }

  lemma OtherStores(keep: Keep, s: State, step: Step)
    requires Enabled(s, step) && !step.Take?
    ensures var d, d' := s.daemon, Apply(keep, s, step).daemon;
            d'.taken == d.taken && d.arrivals <= d'.arrivals && d'.servers == d.servers
  {
  }

  lemma {:induction false} StoredStep(keep: Keep, loaded: map<UnitId, ServerUnitConfig>, s: State, step: Step)
    requires AllStored(loaded, s.daemon) && TakenInOrder(s.daemon) && Enabled(s, step)
    ensures AllStored(loaded, Apply(keep, s, step).daemon)
  {
    var d, d' := s.daemon, Apply(keep, s, step).daemon;
    if step.Take? {
      TakeStores(s, step.choice);
      assert d.dq[0] == d.arrivals[d.taken];
      assert d'.arrivals[..d'.taken] == d.arrivals[..d.taken] + [d.dq[0]];
      forall id ensures StoredAs(loaded, d'.arrivals[..d'.taken], d'.servers, id) {
        StoredMore(loaded, d.arrivals[..d.taken], d.servers, d.dq[0], d'.servers, id);
      }
    } else {
      OtherStores(keep, s, step);
      assert d'.arrivals[..d'.taken] == d.arrivals[..d.taken];
    }
  }

  lemma {:induction false} StoredFrom(keep: Keep, loaded: map<UnitId, ServerUnitConfig>, s: State, steps: seq<Step>)
    requires AllStored(loaded, s.daemon) && TakenInOrder(s.daemon) && Possible(keep, s, steps)
    ensures AllStored(loaded, Exec(keep, s, steps).daemon)
    decreases |steps|
  {
    if steps != [] {
      StoredStep(keep, loaded, s, steps[0]);
      TakenStep(keep, s, steps[0]);
      StoredFrom(keep, loaded, Apply(keep, s, steps[0]), steps[1..]);
    }
  }

  /** In every run, a unit is stored exactly if it was loaded or handed over; and it is what was
      handed over last, or else what was loaded. */
  lemma StoredIsLast(keep: Keep, files: seq<Config.UnitFile>, logs: seq<seq<ThreadAction>>, steps: seq<Step>, id: UnitId)
    requires Possible(keep, Init(files, logs), steps)
    ensures var d := Exec(keep, Init(files, logs), steps).daemon;
            d.taken <= |d.arrivals| && StoredAs(Config.Servers(files), d.arrivals[..d.taken], d.servers, id)
  {
    StoredFrom(keep, Config.Servers(files), Init(files, logs), steps);
  }
}
