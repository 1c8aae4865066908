/**
 * The control loop over a whole sequence of events: what holds across
 * iterations, and the scenarios the repository's tests exercise.
 */
module HeraldRuns {
  import opened Wrappers
  import opened Messages
  import opened Clients
  import opened Herald

  /** Every event can be chosen when it comes: the loop is still running and the event's case is built. */
  predicate Feasible(cfg: Config, s: State, events: seq<Event>)
    decreases |events|
  {
    |events| == 0 ||
    (!s.stopped && Offered(s, events[0]) && Feasible(cfg, Step(cfg, s, events[0]).0, events[1..]))
  }

  /** The loop applied to each event in turn: the final state and each iteration's output. */
  function Run(cfg: Config, s: State, events: seq<Event>): (r: (State, seq<Output>))
    requires Feasible(cfg, s, events)
    ensures |r.1| == |events|
    ensures |events| == 0 ==> r.0 == s
    decreases |events|
  {
    if |events| == 0 then (s, [])
    else
      var (next, out) := Step(cfg, s, events[0]);
      var rest := Run(cfg, next, events[1..]);
      (rest.0, [out] + rest.1)
  }

  /** Once set, the shutting-down flag stays set, so the close case is never offered again. */
  lemma {:induction false} ShuttingDownStaysSet(cfg: Config, s: State, events: seq<Event>)
    requires Feasible(cfg, s, events)
    requires s.shuttingDown
    ensures Run(cfg, s, events).0.shuttingDown
    ensures !Offered(Run(cfg, s, events).0, CloseReq)
    decreases |events|
  {
    if |events| > 0 {
      ShuttingDownStaysSet(cfg, Step(cfg, s, events[0]).0, events[1..]);
    }
  }

  /** The loop only ever stops with an empty client list. */
  lemma {:induction false} StoppedOnlyWhenEmpty(cfg: Config, s: State, events: seq<Event>)
    requires Feasible(cfg, s, events)
    requires s.stopped ==> s.clients == []
    ensures Run(cfg, s, events).0.stopped ==> Run(cfg, s, events).0.clients == []
    decreases |events|
  {
    if |events| > 0 {
      StoppedOnlyWhenEmpty(cfg, Step(cfg, s, events[0]).0, events[1..]);
    }
  }

  /** The client an event adds, if any. */
  function AddedBy(e: Event): seq<ClientId> {
    if e.Add? then [e.c] else []
  }

  /** The clients the events add, in order. */
  function AddedIds(events: seq<Event>): (ids: seq<ClientId>)
    ensures |ids| <= |events|
  {
    if |events| == 0 then [] else AddedBy(events[0]) + AddedIds(events[1..])
  }

  /** The client an iteration removed, if any. */
  function RemovedBy(out: Output): seq<ClientId> {
    if out.writeChanClosed.Some? then [out.writeChanClosed.value] else []
  }

  /** The clients whose writeChan the loop closed, in order. */
  function RemovedIds(outs: seq<Output>): (ids: seq<ClientId>)
    ensures |ids| <= |outs|
  {
    if |outs| == 0 then [] else RemovedBy(outs[0]) + RemovedIds(outs[1..])
  }

  /** One iteration removes what it takes out of the list and adds what it appends. */
  lemma StepConservesClients(cfg: Config, s: State, e: Event)
    requires !s.stopped && Offered(s, e)
    ensures multiset(RemovedBy(Step(cfg, s, e).1)) + multiset(Step(cfg, s, e).0.clients)
         == multiset(s.clients) + multiset(AddedBy(e))
  {
    if e.ClientGone? {
      GoneRemoves(cfg, s, e.i);
    }
  }

  /** Chains two conservation equations through the state they share. */
  lemma Rearrange(removed1: multiset<ClientId>, mid: multiset<ClientId>, start: multiset<ClientId>,
                  added1: multiset<ClientId>, removed2: multiset<ClientId>, final: multiset<ClientId>,
                  added2: multiset<ClientId>)
    requires removed1 + mid == start + added1
    requires removed2 + final == mid + added2
    ensures (removed1 + removed2) + final == start + (added1 + added2)
  {
    forall x ensures ((removed1 + removed2) + final)[x] == (start + (added1 + added2))[x] {
      assert removed1[x] + mid[x] == start[x] + added1[x] by { assert (removed1 + mid)[x] == (start + added1)[x]; }
      assert removed2[x] + final[x] == mid[x] + added2[x] by { assert (removed2 + final)[x] == (mid + added2)[x]; }
    }
  }

  /**
   * No client appears from nowhere or vanishes: the clients removed during a
   * run together with those left at its end are exactly the clients present
   * at its start together with those it added.
   */
  lemma {:induction false} RunConservesClients(cfg: Config, s: State, events: seq<Event>)
    requires Feasible(cfg, s, events)
    ensures multiset(RemovedIds(Run(cfg, s, events).1)) + multiset(Run(cfg, s, events).0.clients)
         == multiset(s.clients) + multiset(AddedIds(events))
    decreases |events|
  {
    if |events| > 0 {
      var e := events[0];
      var step := Step(cfg, s, e);
      RunConservesClients(cfg, step.0, events[1..]);
      StepConservesClients(cfg, s, e);
      var rest := Run(cfg, step.0, events[1..]);
      var whole := Run(cfg, s, events);
      assert whole.0 == rest.0 && whole.1 == [step.1] + rest.1;
      assert ([step.1] + rest.1)[1..] == rest.1;
      assert RemovedIds(whole.1) == RemovedBy(step.1) + RemovedIds(rest.1);
      assert multiset(RemovedIds(whole.1))
          == multiset(RemovedBy(step.1)) + multiset(RemovedIds(rest.1));
      assert multiset(AddedIds(events)) == multiset(AddedBy(e)) + multiset(AddedIds(events[1..]));
      Rearrange(multiset(RemovedBy(step.1)), multiset(step.0.clients), multiset(s.clients), multiset(AddedBy(e)),
                multiset(RemovedIds(rest.1)), multiset(rest.0.clients), multiset(AddedIds(events[1..])));
    }
  }

  /**
   * When every added client is fresh (`AddClient` always builds a new record),
   * the list never holds a client twice, each client is removed at most once,
   * and a removed client is never in the list again.
   */
  lemma EachClientRemovedOnce(cfg: Config, s: State, events: seq<Event>)
    requires Feasible(cfg, s, events)
    requires NoDuplicates(s.clients + AddedIds(events))
    ensures NoDuplicates(Run(cfg, s, events).0.clients)
    ensures NoDuplicates(RemovedIds(Run(cfg, s, events).1))
    ensures forall x :: x in RemovedIds(Run(cfg, s, events).1) ==> x !in Run(cfg, s, events).0.clients
  {
    RunConservesClients(cfg, s, events);
    var removed := RemovedIds(Run(cfg, s, events).1);
    var final := Run(cfg, s, events).0.clients;
    var start := s.clients + AddedIds(events);
    assert multiset(start) == multiset(s.clients) + multiset(AddedIds(events));
    assert multiset(removed) + multiset(final) == multiset(start);
    forall x | x in final ensures multiset(final)[x] <= 1 {
      assert multiset(final)[x] <= multiset(start)[x];
      assert x in multiset(start);
    }
    forall x | x in removed ensures multiset(removed)[x] <= 1 {
      assert multiset(removed)[x] <= multiset(start)[x];
      assert x in multiset(start);
    }
    forall x | x in removed ensures x !in final {
      assert x in multiset(start);
      assert multiset(removed)[x] + multiset(final)[x] == multiset(start)[x];
    }
  }

  /** `n` successive departures of whichever client is first in the list. */
  function Departures(n: nat): (es: seq<Event>)
    ensures |es| == n
    ensures forall k :: 0 <= k < n ==> es[k] == ClientGone(0)
  {
    if n == 0 then [] else [ClientGone(0)] + Departures(n - 1)
  }

  /**
   * While shutting down, the loop stops exactly when its last client leaves,
   * here with the clients leaving in list order: after as many departures as
   * there are clients, and not before.
   */
  lemma {:induction false} DrainStops(cfg: Config, s: State)
    requires s.shuttingDown && !s.stopped && |s.clients| > 0
    ensures Feasible(cfg, s, Departures(|s.clients|))
    ensures Run(cfg, s, Departures(|s.clients|)).0 == State([], true, true)
    ensures RemovedIds(Run(cfg, s, Departures(|s.clients|)).1) == s.clients
    decreases |s.clients|
  {
    var n := |s.clients|;
    var es := Departures(n);
    var (next, out) := Step(cfg, s, ClientGone(0));
    assert next.clients == s.clients[1..];
    assert es[1..] == Departures(n - 1);
    if n == 1 {
      assert next == State([], true, true);
    } else {
      DrainStops(cfg, next);
    }
    var rest := Run(cfg, next, es[1..]);
    assert Run(cfg, s, es).1 == [out] + rest.1;
    assert ([out] + rest.1)[1..] == rest.1;
  }

  /**
   * While shutting down, departures in any order stop the loop exactly when
   * the last client leaves: no more departures can come than there are
   * clients, and the loop has stopped exactly when all of them came.
   */
  lemma {:induction false} DrainStopsAnyOrder(cfg: Config, s: State, es: seq<Event>)
    requires s.shuttingDown && !s.stopped && |s.clients| > 0
    requires Feasible(cfg, s, es)
    requires forall k :: 0 <= k < |es| ==> es[k].ClientGone?
    ensures |es| <= |s.clients|
    ensures Run(cfg, s, es).0.stopped <==> |es| == |s.clients|
    decreases |es|
  {
    if |es| > 0 {
      var next := Step(cfg, s, es[0]).0;
      GoneRemoves(cfg, s, es[0].i);
      if |s.clients| > 1 {
        DrainStopsAnyOrder(cfg, next, es[1..]);
      }
    }
  }

  /**
   * Shutting down does not stop new clients from being added: one added while
   * draining keeps its connection open, so the loop cannot stop before it leaves.
   */
  lemma DrainingStillAccepts(cfg: Config, s: State, c: ClientId)
    requires s.shuttingDown && !s.stopped
    ensures Offered(s, Add(c))
    ensures c in Step(cfg, s, Add(c)).0.clients
    ensures !Step(cfg, s, Add(c)).0.stopped
    ensures Step(cfg, s, Add(c)).1.connsClosed == []
  {
  }

  // ---------------------------------------------------------------------------
  // The repository's test scenarios, as event sequences
  // ---------------------------------------------------------------------------

  /** A client connects and is listed; when it leaves the hook reports it and the hub keeps running. */
  lemma ConnectScenario(opts: Options, a: ClientId)
    ensures Feasible(New(opts).0, New(opts).1, [Add(a)])
    ensures Run(New(opts).0, New(opts).1, [Add(a)]).0.clients == [a]
    ensures Feasible(New(opts).0, New(opts).1, [Add(a), ClientGone(0)])
    ensures Run(New(opts).0, New(opts).1, [Add(a), ClientGone(0)]).0 == State([], false, false)
    ensures opts.clientRemovedFunc ==>
      Run(New(opts).0, New(opts).1, [Add(a), ClientGone(0)]).1[1].hooks == [ClientRemoved([], a)]
  {
    var (cfg, s0) := New(opts);
    var s1 := Step(cfg, s0, Add(a)).0;
    assert s1.clients == [a];
    assert [Add(a), ClientGone(0)][1..] == [ClientGone(0)];
    assert [ClientGone(0)][1..] == [];
  }

  /** A message from a client reaches a caller-supplied receiver and changes nothing. */
  lemma ReceiveScenario(opts: Options, a: ClientId, m: Message)
    requires opts.receiverFunc
    ensures Feasible(New(opts).0, New(opts).1, [Add(a), ClientMsg(0, m)])
    ensures Run(New(opts).0, New(opts).1, [Add(a), ClientMsg(0, m)]).0.clients == [a]
    ensures Run(New(opts).0, New(opts).1, [Add(a), ClientMsg(0, m)]).1[1].hooks == [Received(m)]
  {
    var (cfg, s0) := New(opts);
    assert [Add(a), ClientMsg(0, m)][1..] == [ClientMsg(0, m)];
    assert [ClientMsg(0, m)][1..] == [];
  }

  /** A broadcast reaches both connected clients, in the order they joined. */
  lemma BroadcastScenario(opts: Options, a: ClientId, b: ClientId, m: Message)
    ensures Feasible(New(opts).0, New(opts).1, [Add(a), Add(b), Broadcast(m)])
    ensures Run(New(opts).0, New(opts).1, [Add(a), Add(b), Broadcast(m)]).1[2].delivered == [(a, m), (b, m)]
  {
    var (cfg, s0) := New(opts);
    var es := [Add(a), Add(b), Broadcast(m)];
    var s1 := Step(cfg, s0, Add(a)).0;
    var s2 := Step(cfg, s1, Add(b)).0;
    assert s2.clients == [a, b] && !s2.stopped;
    assert es[1..] == [Add(b), Broadcast(m)];
    assert es[1..][1..] == [Broadcast(m)];
    assert es[1..][1..][1..] == [];
    assert Feasible(cfg, s2, [Broadcast(m)]);
    assert Feasible(cfg, s1, [Add(b), Broadcast(m)]);
    var out2 := Step(cfg, s2, Broadcast(m)).1;
    assert SendToAll([a, b], m) == [(a, m), (b, m)];
    assert Run(cfg, s2, [Broadcast(m)]).1 == [out2];
    assert Run(cfg, s1, [Add(b), Broadcast(m)]).1[1] == out2;
  }

  /**
   * Closing the hub with one client closes that client's connection and keeps
   * the hub running until the client leaves; then the loop stops.
   */
  lemma CloseScenario(opts: Options, a: ClientId)
    ensures Feasible(New(opts).0, New(opts).1, [Add(a), CloseReq, ClientGone(0)])
    ensures Run(New(opts).0, New(opts).1, [Add(a), CloseReq]).0 == State([a], true, false)
    ensures Run(New(opts).0, New(opts).1, [Add(a), CloseReq]).1[1].connsClosed == [a]
    ensures Run(New(opts).0, New(opts).1, [Add(a), CloseReq, ClientGone(0)]).0 == State([], true, true)
  {
    var (cfg, s0) := New(opts);
    var es := [Add(a), CloseReq, ClientGone(0)];
    var s1 := Step(cfg, s0, Add(a)).0;
    var s2 := Step(cfg, s1, CloseReq).0;
    var s3 := Step(cfg, s2, ClientGone(0)).0;
    assert s1 == State([a], false, false);
    assert s2 == State([a], true, false);
    assert s3 == State([], true, true);
    assert es[1..] == [CloseReq, ClientGone(0)];
    assert es[1..][1..] == [ClientGone(0)];
    assert es[1..][1..][1..] == [];
    assert Feasible(cfg, s2, [ClientGone(0)]);
    assert Feasible(cfg, s1, [CloseReq, ClientGone(0)]);
    assert Run(cfg, s1, [CloseReq, ClientGone(0)]).0 == s3;
    assert [Add(a), CloseReq][1..] == [CloseReq];
    assert [CloseReq][1..] == [];
  }

  /** Closing a hub with no clients stops the loop at once. */
  lemma CloseEmptyScenario(opts: Options)
    ensures Feasible(New(opts).0, New(opts).1, [CloseReq])
    ensures Run(New(opts).0, New(opts).1, [CloseReq]).0 == State([], false, true)
    ensures Run(New(opts).0, New(opts).1, [CloseReq]).1[0].connsClosed == []
  {
    assert [CloseReq][1..] == [];
  }
}
