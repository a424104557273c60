/** The order of a connector's queues across a restart, and the finality of a reset. */
module TransportOrder {
  import opened Prelude
  import opened TransportModel
  import opened TransportSafety
  import opened TransportSteps
  import opened TransportTheorems

  // ---------------------------------------------------------------- replayed requests go in front

  /** Processing the queues does not touch a connector that is restarting. */
  lemma {:induction false} DrainKeepsRestarting(w: World, c: nat)
    requires Known(w) && c in w.conns && w.conns[c].restarting
    ensures c in Drain(w).conns && Drain(w).conns[c] == w.conns[c]
    decreases Waiting(w.registry, w.conns)
  {
    var high, low := Pick(w.registry, w.conns, false), Pick(w.registry, w.conns, true);
    if high.Some? {
      BeginLess(w, high.value, false);
      BeginKnown(w, high.value, false);
      DrainKeepsRestarting(Begin(w, high.value, false), c);
    } else if low.Some? {
      BeginLess(w, low.value, true);
      BeginKnown(w, low.value, true);
      DrainKeepsRestarting(Begin(w, low.value, true), c);
    }
  }

  ghost predicate EndsWith(q: seq<Request>, tail: seq<Request>) {
    |tail| <= |q| && q[|q| - |tail|..] == tail
  }

  lemma {:induction false} ReplaysInFront(w: World, c: nat, order: seq<nat>, low: bool)
    requires c in w.conns && forall p :: p in order ==> p in w.conns[c].gets && w.conns[c].gets[p].id < |w.log.place|
    ensures c in ReplayAll(w, c, order).conns
    ensures EndsWith(Queue(ReplayAll(w, c, order).conns[c], low), Queue(w.conns[c], low))
    decreases |order|
  {
    if order != [] {
      var v := Replay(w, c, order[0]);
      ReplayInFront(w, c, order[0], low, v);
      ReplaysInFront(v, c, order[1..], low);
      EndsTwice(Queue(ReplayAll(w, c, order).conns[c], low), Queue(v.conns[c], low), Queue(w.conns[c], low));
    }
  }

  lemma ReplayInFront(w: World, c: nat, p: nat, low: bool, v: World)
    requires c in w.conns && p in w.conns[c].gets && w.conns[c].gets[p].id < |w.log.place| && v == Replay(w, c, p)
    ensures c in v.conns && v.conns[c].gets == w.conns[c].gets && |v.log.place| == |w.log.place|
    ensures EndsWith(Queue(v.conns[c], low), Queue(w.conns[c], low))
  {
  }

  lemma EndsTwice(a: seq<Request>, b: seq<Request>, c: seq<Request>)
    requires EndsWith(a, b) && EndsWith(b, c)
    ensures EndsWith(a, c)
  {
    assert a[|a| - |b|..][|b| - |c|..] == a[|a| - |c|..];
  }

  /** Replayed GETs go in front of everything that already waits: both queues only grow at the front. */
  lemma ReplaysGoFirst(w: World, c: nat, order: seq<nat>, low: bool)
    requires Safe(w) && Enabled(w, RestartCall(c, order)) && !w.conns[c].restarting
    ensures var v := Next(w, RestartCall(c, order));
      c in v.conns && EndsWith(Queue(v.conns[c], low), Queue(w.conns[c], low))
  {
    RestartOrder(w, c, order);
    ReplaysInFront(Restarting(w, c), c, order, low);
  }

  // ---------------------------------------------------------------- new requests go to the end

  predicate StartsWith(q: seq<Request>, front: seq<Request>) {
    |front| <= |q| && q[..|front|] == front
  }

  /** The connector is still restarting, and its queues have only grown at the end. */
  ghost predicate GrownAtEnd(w: World, v: World, c: nat)
    requires c in w.conns
  {
    && c in v.conns && v.conns[c].restarting
    && StartsWith(v.conns[c].high, w.conns[c].high) && StartsWith(v.conns[c].low, w.conns[c].low)
  }

  lemma DrainedGrows(w: World, u: World, c: nat)
    requires Safe(u) && c in w.conns && GrownAtEnd(w, u, c)
    ensures GrownAtEnd(w, Drained(u), c)
  {
    SafeKnown(u);
    DrainKeepsRestarting(u, c);
  }

  lemma {:induction false} ReplayElsewhere(w: World, d: nat, order: seq<nat>, c: nat)
    requires c != d && c in w.conns
    ensures c in ReplayAll(w, d, order).conns && ReplayAll(w, d, order).conns[c] == w.conns[c]
    decreases |order|
  {
    if !(order == [] || d !in w.conns || order[0] !in w.conns[d].gets || w.conns[d].gets[order[0]].id >= |w.log.place|) {
      ReplayElsewhere(Replay(w, d, order[0]), d, order[1..], c);
    }
  }

  lemma LocalGrows(w: World, a: Action, c: nat)
    requires Enabled(w, a) && c in w.conns && w.conns[c].restarting
    ensures a.Enqueue? ==> GrownAtEnd(w, Push(w, a.conn, a.kind, a.low), c)
    ensures a.Reset? && a.conn != c ==> GrownAtEnd(w, Cleared(w, a.conn), c)
    ensures a.Destroy? && a.conn != c ==> GrownAtEnd(w, Destroyed(w, a.conn), c)
    ensures a.Return? ==> GrownAtEnd(w, Returned(w), c)
    ensures a.RestartEnd? && Top(w).conn != c ==> GrownAtEnd(w, Restarted(w), c)
  {
  }

  lemma FinishGrows(w: World, p: nat, c: nat)
    requires p < |w.log.wire| && w.log.wire[p].request.id < |w.log.place| && c in w.conns && w.conns[c].restarting
    ensures GrownAtEnd(w, Finished(w, p), c)
  {
  }

  lemma WireKnown(log: Log, p: nat)
    requires LogOk(log) && p < |log.wire|
    ensures log.wire[p].request.id < |log.place|
  {
  }

  /** The step ends the restart of this connector, or resets or destroys it. */
  predicate Ends(w: World, a: Action, c: nat) {
    match a
    case Reset(d) => d == c
    case Destroy(d) => d == c
    case RestartEnd => w.frames != [] && Top(w).conn == c
    case _ => false
  }

  /** While a connector restarts, whatever happens, its queues only grow at the end. */
  lemma StepGrows(w: World, a: Action, c: nat, v: World)
    requires Safe(w) && Enabled(w, a) && v == Next(w, a) && c in w.conns && w.conns[c].restarting && !Ends(w, a, c)
    ensures GrownAtEnd(w, v, c)
  {
    LocalGrows(w, a, c);
    match a
    case Create(i) => assert w.log.born !in w.conns;
    case Enqueue(d, kind, low) =>
      PushSafe(w, d, kind, low, Push(w, d, kind, low));
      DrainedGrows(w, Push(w, d, kind, low), c);
    case Reset(d) =>
      ClearedSafe(w, d, Cleared(w, d));
      DrainedGrows(w, Cleared(w, d), c);
    case Destroy(d) =>
      DestroyedSafe(w, d, Destroyed(w, d));
      DrainedGrows(w, Destroyed(w, d), c);
    case RestartCall(d, order) => RestartGrows(w, d, order, c);
    case Finish(p) =>
      WireKnown(w.log, p);
      FinishGrows(w, p, c);
      FinishedSafe(w, p, Finished(w, p));
    case Return =>
      ReturnedSafe(w, Returned(w));
      DrainedGrows(w, Returned(w), c);
    case Abort(p) =>
      WireKnown(w.log, p);
      if p !in w.log.finished {
        FinishGrows(w, p, c);
      }
    case RestartEnd =>
      RestartedSafe(w, Restarted(w));
      DrainedGrows(w, Restarted(w), c);
  }

  lemma RestartGrows(w: World, d: nat, order: seq<nat>, c: nat)
    requires Safe(w) && Enabled(w, RestartCall(d, order)) && c in w.conns && w.conns[c].restarting
    ensures GrownAtEnd(w, RestartedBy(w, d, order), c)
  {
    if !w.conns[d].restarting {
      ReplayElsewhere(Restarting(w, d), d, order, c);
    }
  }

  /**
   * Over any part of a run in which a connector restarts, its queues only grow at the end: with the replayed GETs in
   * front of what waited, and what is asked for meanwhile behind it, nothing is overtaken.
   */
  lemma {:induction false} QueuesGrowAtEnd(ws: seq<World>, acts: seq<Action>, c: nat, i: nat, m: nat)
    requires IsRun(ws, acts) && i <= m < |ws| && c in ws[i].conns && ws[i].conns[c].restarting
    requires forall n :: i <= n < m ==> !Ends(ws[n], acts[n], c)
    ensures GrownAtEnd(ws[i], ws[m], c)
    decreases m
  {
    if i < m {
      QueuesGrowAtEnd(ws, acts, c, i, m - 1);
      GrowsAt(ws, acts, c, m - 1);
      GrownTwice(ws[i], ws[m - 1], ws[m], c);
    }
  }

  lemma GrowsAt(ws: seq<World>, acts: seq<Action>, c: nat, n: nat)
    requires IsRun(ws, acts) && n < |acts| && c in ws[n].conns && ws[n].conns[c].restarting && !Ends(ws[n], acts[n], c)
    ensures GrownAtEnd(ws[n], ws[n + 1], c)
  {
    RunSafe(ws, acts, n);
    assert Step(ws[n], acts[n], ws[n + 1]);
    StepGrows(ws[n], acts[n], c, ws[n + 1]);
  }

  lemma GrownTwice(u: World, v: World, w: World, c: nat)
    requires c in u.conns && GrownAtEnd(u, v, c) && GrownAtEnd(v, w, c)
    ensures GrownAtEnd(u, w, c)
  {
    StartsTwice(w.conns[c].high, v.conns[c].high, u.conns[c].high);
    StartsTwice(w.conns[c].low, v.conns[c].low, u.conns[c].low);
  }

  lemma StartsTwice(a: seq<Request>, b: seq<Request>, c: seq<Request>)
    requires StartsWith(a, b) && StartsWith(b, c)
    ensures StartsWith(a, c)
  {
    assert a[..|b|][..|c|] == a[..|c|];
  }

  // ---------------------------------------------------------------- a reset is final

  /** The request waits in a queue of this connector, or is outstanding on it. */
  predicate Of(w: World, r: nat, c: nat) {
    r < |w.log.place| && Belongs(w.log, w.log.place[r], c)
  }

  lemma ResetGivesUp(w: World, c: nat, r: nat, v: World)
    requires Safe(w) && Enabled(w, Reset(c)) && v == Next(w, Reset(c)) && Of(w, r, c)
    ensures GivenUp(v, r)
  {
    ClearedSafe(w, c, Cleared(w, c));
    DrainedMoves(Cleared(w, c), r);
  }

  lemma GivenUpStays(w: World, a: Action, v: World, r: nat)
    requires Safe(w) && Enabled(w, a) && v == Next(w, a) && GivenUp(w, r)
    ensures GivenUp(v, r)
  {
    FinalIsFinal(w, a, r, v);
  }

  /**
   * Over every run, what a connector had waiting or outstanding when it was reset stays given up: its handler is not
   * called afterwards, whatever still arrives.
   */
  lemma {:induction false} ResetIsFinal(ws: seq<World>, acts: seq<Action>, c: nat, r: nat, i: nat, m: nat)
    requires IsRun(ws, acts) && i < m < |ws| && acts[i] == Reset(c) && Of(ws[i], r, c)
    ensures GivenUp(ws[m], r) && !Handled(ws[m], r)
    decreases m
  {
    RunSafe(ws, acts, m - 1);
    RunSafe(ws, acts, m);
    assert Step(ws[m - 1], acts[m - 1], ws[m]);
    if i == m - 1 {
      ResetGivesUp(ws[i], c, r, ws[m]);
    } else {
      ResetIsFinal(ws, acts, c, r, i, m - 1);
      GivenUpStays(ws[m - 1], acts[m - 1], ws[m], r);
    }
    NotBoth(ws[m], r);
  }

  lemma NotBoth(w: World, r: nat)
    requires Safe(w) && GivenUp(w, r)
    ensures !Handled(w, r)
  {
  }
}
