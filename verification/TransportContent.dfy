/** What the transport queues, sends and answers is what its callers asked for. */
module TransportContent {
  import opened Prelude
  import opened TransportModel
  import opened TransportSafety
  import opened TransportSteps
  import opened TransportTheorems

  // ---------------------------------------------------------------- requests are registered as asked

  lemma {:induction false} DrainRequests(w: World)
    requires Known(w)
    ensures Drain(w).log.requests == w.log.requests
    decreases Waiting(w.registry, w.conns)
  {
    var high, low := Pick(w.registry, w.conns, false), Pick(w.registry, w.conns, true);
    if high.Some? {
      BeginLess(w, high.value, false);
      BeginKnown(w, high.value, false);
      DrainRequests(Begin(w, high.value, false));
    } else if low.Some? {
      BeginLess(w, low.value, true);
      BeginKnown(w, low.value, true);
      DrainRequests(Begin(w, low.value, true));
    }
  }

  lemma DrainedRequests(w: World)
    ensures Drained(w).log.requests == w.log.requests
  {
    if Known(w) {
      DrainRequests(w);
    }
  }

  lemma {:induction false} ReplayRequests(w: World, c: nat, order: seq<nat>)
    ensures ReplayAll(w, c, order).log.requests == w.log.requests
    decreases |order|
  {
    if !(order == [] || c !in w.conns || order[0] !in w.conns[c].gets || w.conns[c].gets[order[0]].id >= |w.log.place|) {
      ReplayRequests(Replay(w, c, order[0]), c, order[1..]);
    }
  }

  /** A step registers the request it is asked for, with the method and the priority that were asked for, and no other. */
  lemma RequestsStep(w: World, a: Action, v: World)
    requires Safe(w) && Enabled(w, a) && v == Next(w, a)
    ensures v.log.requests == w.log.requests + if a.Enqueue? then [Request(|w.log.requests|, a.kind, a.low)] else []
  {
    match a
    case Enqueue(c, kind, low) => DrainedRequests(Push(w, c, kind, low));
    case Reset(c) => DrainedRequests(Cleared(w, c));
    case Destroy(c) => DrainedRequests(Destroyed(w, c));
    case RestartCall(c, order) => ReplayRequests(Restarting(w, c), c, order);
    case _ => SettledRequests(w, a, v);
  }

  lemma SettledRequests(w: World, a: Action, v: World)
    requires Safe(w) && Enabled(w, a) && v == Next(w, a)
    requires a.Create? || a.Finish? || a.Return? || a.Abort? || a.RestartEnd?
    ensures v.log.requests == w.log.requests
  {
    match a
    case Finish(p) => DrainedRequests(Finished(w, p));
    case Return => DrainedRequests(Returned(w));
    case RestartEnd => DrainedRequests(Restarted(w));
    case _ =>
  }

  // ---------------------------------------------------------------- each request stays with its connector

  /** The connectors of the requests asked for so far, in order. */
  function Owners(acts: seq<Action>, i: nat): seq<nat>
    requires i <= |acts|
  {
    if i == 0 then [] else Owners(acts, i - 1) + if acts[i - 1].Enqueue? then [acts[i - 1].conn] else []
  }

  /** Waiting or on the wire, a request is with the connector it was asked of. */
  ghost predicate Owned(log: Log, owners: seq<nat>) {
    && |owners| == |log.requests| == |log.place|
    && (forall r: nat :: r < |owners| && log.place[r].Queued? ==> log.place[r].conn == owners[r])
    && (forall p: nat :: p < |log.wire| ==>
          log.wire[p].request.id < |owners| && log.wire[p].conn == owners[log.wire[p].request.id])
  }

  lemma BeginOwned(w: World, c: nat, low: bool, owners: seq<nat>)
    requires c in w.conns && ConnOk(c, w.conns[c], w.log) && Queue(w.conns[c], low) != [] && Owned(w.log, owners)
    ensures Queue(w.conns[c], low)[0].id < |w.log.place| && Owned(Begin(w, c, low).log, owners)
  {
    var r := Queue(w.conns[c], low)[0];
    assert r in Queue(w.conns[c], low) && QueuedHere(r, c, w.log);
    SendOwned(w.log, c, r, w.conns[c].generation, owners);
  }

  lemma SendOwned(log: Log, c: nat, r: Request, g: nat, owners: seq<nat>)
    requires Owned(log, owners) && r.id < |log.place| && log.place[r.id] == Queued(c)
    ensures Owned(SendLog(log, c, r, g), owners)
  {
  }

  lemma {:induction false} DrainOwned(w: World, owners: seq<nat>)
    requires Safe(w) && Known(w) && Owned(w.log, owners)
    ensures Owned(Drain(w).log, owners)
    decreases Waiting(w.registry, w.conns)
  {
    var high, low := Pick(w.registry, w.conns, false), Pick(w.registry, w.conns, true);
    if high.Some? {
      OneOwned(w, high.value, false, owners);
      DrainOwned(Begin(w, high.value, false), owners);
    } else if low.Some? {
      OneOwned(w, low.value, true, owners);
      DrainOwned(Begin(w, low.value, true), owners);
    }
  }

  lemma OneOwned(w: World, c: nat, low: bool, owners: seq<nat>)
    requires Safe(w) && Known(w) && Owned(w.log, owners) && c in w.registry && c in w.conns && Ready(w.conns[c], low)
    ensures var v := Begin(w, c, low);
      Safe(v) && Known(v) && Owned(v.log, owners) && Waiting(v.registry, v.conns) < Waiting(w.registry, w.conns)
  {
    BeginLess(w, c, low);
    BeginKnown(w, c, low);
    BeginOwned(w, c, low, owners);
    BeginSafe(w, c, low, Begin(w, c, low));
  }

  lemma DrainedOwned(w: World, owners: seq<nat>)
    requires Safe(w) && Owned(w.log, owners)
    ensures Owned(Drained(w).log, owners)
  {
    if Known(w) {
      DrainOwned(w, owners);
    }
  }

  /** The GETs a connector may replay are requests of its own. */
  ghost predicate OwnGets(w: World, c: nat) {
    c in w.conns && forall p: nat :: p in w.conns[c].gets ==>
      p < |w.log.wire| && w.conns[c].gets[p] == w.log.wire[p].request && w.log.wire[p].conn == c
  }

  lemma {:induction false} ReplayOwned(w: World, c: nat, order: seq<nat>, owners: seq<nat>)
    requires OwnGets(w, c) && Owned(w.log, owners)
    ensures Owned(ReplayAll(w, c, order).log, owners)
    decreases |order|
  {
    if !(order == [] || c !in w.conns || order[0] !in w.conns[c].gets || w.conns[c].gets[order[0]].id >= |w.log.place|) {
      ReplayOwned(Replay(w, c, order[0]), c, order[1..], owners);
    }
  }

  lemma PushOwned(w: World, c: nat, kind: Method, low: bool, owners: seq<nat>)
    requires c in w.conns && Owned(w.log, owners)
    ensures Owned(Push(w, c, kind, low).log, owners + [c])
  {
  }

  lemma DropOwned(log: Log, c: nat, owners: seq<nat>)
    requires Owned(log, owners)
    ensures Owned(Drop(log, c), owners)
  {
  }

  lemma FinishOwned(w: World, p: nat, owners: seq<nat>)
    requires p < |w.log.wire| && w.log.wire[p].request.id < |w.log.place| && Owned(w.log, owners)
    ensures Owned(Finished(w, p).log, owners)
  {
  }

  lemma RestartOwned(w: World, c: nat, order: seq<nat>, owners: seq<nat>)
    requires Safe(w) && Enabled(w, RestartCall(c, order)) && Owned(w.log, owners)
    ensures Owned(RestartedBy(w, c, order).log, owners)
  {
    assert ConnOk(c, w.conns[c], w.log);
    if !w.conns[c].restarting {
      ReplayOwned(Restarting(w, c), c, order, owners);
    }
  }

  lemma OwnedStep(w: World, a: Action, v: World, owners: seq<nat>)
    requires Safe(w) && Enabled(w, a) && v == Next(w, a) && Owned(w.log, owners)
    ensures Owned(v.log, owners + if a.Enqueue? then [a.conn] else [])
  {
    assert owners + [] == owners;
    match a
    case Create(_) =>
    case Enqueue(c, kind, low) =>
      PushOwned(w, c, kind, low, owners);
      PushSafe(w, c, kind, low, Push(w, c, kind, low));
      DrainedOwned(Push(w, c, kind, low), owners + [c]);
    case Reset(c) =>
      DropOwned(w.log, c, owners);
      ClearedSafe(w, c, Cleared(w, c));
      DrainedOwned(Cleared(w, c), owners);
    case Destroy(c) =>
      DropOwned(w.log, c, owners);
      DestroyedSafe(w, c, Destroyed(w, c));
      DrainedOwned(Destroyed(w, c), owners);
    case RestartCall(c, order) => RestartOwned(w, c, order, owners);
    case _ => SettledOwned(w, a, v, owners);
  }

  lemma SettledOwned(w: World, a: Action, v: World, owners: seq<nat>)
    requires Safe(w) && Enabled(w, a) && v == Next(w, a) && Owned(w.log, owners)
    requires a.Finish? || a.Return? || a.Abort? || a.RestartEnd?
    ensures Owned(v.log, owners)
  {
    match a
    case Finish(p) =>
      FinishOwned(w, p, owners);
      FinishedSafe(w, p, Finished(w, p));
    case Return =>
      ReturnedSafe(w, Returned(w));
      DrainedOwned(Returned(w), owners);
    case Abort(p) => AbortOwned(w, p, v, owners);
    case RestartEnd =>
      RestartedSafe(w, Restarted(w));
      DrainedOwned(Restarted(w), owners);
  }

  lemma AbortOwned(w: World, p: nat, v: World, owners: seq<nat>)
    requires Safe(w) && Enabled(w, Abort(p)) && v == Aborted(w, p) && Owned(w.log, owners)
    ensures Owned(v.log, owners)
  {
    FinishOwned(w, p, owners);
  }

  // ---------------------------------------------------------------- over runs

  /** At step j request r was asked of connector c with this method and this priority. */
  ghost predicate Asked(ws: seq<World>, acts: seq<Action>, j: nat, r: nat, c: nat, kind: Method, low: bool)
    requires |ws| == |acts| + 1
  {
    j < |acts| && acts[j] == Enqueue(c, kind, low) && |ws[j].log.requests| == r
  }

  ghost predicate AskedBefore(ws: seq<World>, acts: seq<Action>, i: nat, r: nat, c: nat, kind: Method, low: bool)
    requires |ws| == |acts| + 1
  {
    exists j: nat :: j < i && Asked(ws, acts, j, r, c, kind, low)
  }

  lemma {:induction false} RunOwned(ws: seq<World>, acts: seq<Action>, i: nat)
    requires IsRun(ws, acts) && i < |ws|
    ensures Owned(ws[i].log, Owners(acts, i))
  {
    if i > 0 {
      RunOwned(ws, acts, i - 1);
      RunSafe(ws, acts, i - 1);
      assert Step(ws[i - 1], acts[i - 1], ws[i]);
      OwnedStep(ws[i - 1], acts[i - 1], ws[i], Owners(acts, i - 1));
    }
  }

  /** Over every run a registered request is as it was asked for: of that connector, with that method and priority. */
  lemma {:induction false} RequestsAsAsked(ws: seq<World>, acts: seq<Action>, i: nat, r: nat)
    requires IsRun(ws, acts) && i < |ws| && r < |ws[i].log.requests|
    ensures r < |Owners(acts, i)|
    ensures var x := ws[i].log.requests[r]; x.id == r && AskedBefore(ws, acts, i, r, Owners(acts, i)[r], x.kind, x.low)
    decreases i
  {
    RunOwned(ws, acts, i);
    if i > 0 {
      RunOwned(ws, acts, i - 1);
      RunSafe(ws, acts, i - 1);
      assert Step(ws[i - 1], acts[i - 1], ws[i]);
      RequestsStep(ws[i - 1], acts[i - 1], ws[i]);
      if r < |ws[i - 1].log.requests| {
        RequestsAsAsked(ws, acts, i - 1, r);
        var x := ws[i].log.requests[r];
        var j: nat :| j < i - 1 && Asked(ws, acts, j, r, Owners(acts, i - 1)[r], x.kind, x.low);
      } else {
        assert Asked(ws, acts, i - 1, r, acts[i - 1].conn, acts[i - 1].kind, acts[i - 1].low);
      }
    }
  }

  /** What is on the wire is sent by the connector it was asked of, as it was asked for. */
  lemma SentAsAsked(ws: seq<World>, acts: seq<Action>, i: nat, p: nat)
    requires IsRun(ws, acts) && i < |ws| && p < |ws[i].log.wire|
    ensures var t := ws[i].log.wire[p]; AskedBefore(ws, acts, i, t.request.id, t.conn, t.request.kind, t.request.low)
  {
    RunSafe(ws, acts, i);
    RunOwned(ws, acts, i);
    RequestsAsAsked(ws, acts, i, ws[i].log.wire[p].request.id);
  }

  /** Asked for once: two such steps for one request are the same step. */
  lemma {:induction false} RequestsGrow(ws: seq<World>, acts: seq<Action>, i: nat, j: nat)
    requires IsRun(ws, acts) && i <= j < |ws|
    ensures |ws[i].log.requests| <= |ws[j].log.requests|
    decreases j
  {
    if i < j {
      RequestsGrow(ws, acts, i, j - 1);
      RunSafe(ws, acts, j - 1);
      assert Step(ws[j - 1], acts[j - 1], ws[j]);
      RequestsStep(ws[j - 1], acts[j - 1], ws[j]);
    }
  }

  lemma AskedOnce(ws: seq<World>, acts: seq<Action>, i: nat, j: nat, r: nat, c: nat, kind: Method, low: bool)
    requires IsRun(ws, acts) && i < |acts| && acts[i].Enqueue? && |ws[i].log.requests| == r
    requires Asked(ws, acts, j, r, c, kind, low)
    ensures i == j
  {
    var (first, last) := (if i <= j then i else j, if i <= j then j else i);
    if first < last {
      RunSafe(ws, acts, first);
      assert Step(ws[first], acts[first], ws[first + 1]);
      RequestsStep(ws[first], acts[first], ws[first + 1]);
      RequestsGrow(ws, acts, first + 1, last);
    }
  }

  /** If a request is on the wire twice, its caller asked for a GET. */
  lemma SentTwiceWasGet(ws: seq<World>, acts: seq<Action>, i: nat, p: nat, q: nat, j: nat)
    requires IsRun(ws, acts) && i < |ws| && p < q < |ws[i].log.wire|
    requires ws[i].log.wire[p].request.id == ws[i].log.wire[q].request.id
    requires j < |acts| && acts[j].Enqueue? && |ws[j].log.requests| == ws[i].log.wire[p].request.id
    ensures acts[j].kind == Get
  {
    RunSafe(ws, acts, i);
    var t := ws[i].log.wire[p];
    assert LogOk(ws[i].log) && WritesOnce(ws[i].log);
    SentAsAsked(ws, acts, i, p);
    var k: nat :| k < i && Asked(ws, acts, k, t.request.id, t.conn, t.request.kind, t.request.low);
    AskedOnce(ws, acts, j, k, t.request.id, t.conn, t.request.kind, t.request.low);
  }

  /** What waits in a queue was asked of its connector, with its priority. */
  lemma WaitsAsAsked(ws: seq<World>, acts: seq<Action>, i: nat, c: nat, low: bool, n: nat)
    requires IsRun(ws, acts) && i < |ws| && c in ws[i].conns && n < |Queue(ws[i].conns[c], low)|
    ensures var x := Queue(ws[i].conns[c], low)[n]; AskedBefore(ws, acts, i, x.id, c, x.kind, low)
  {
    RunSafe(ws, acts, i);
    RunOwned(ws, acts, i);
    var x := Queue(ws[i].conns[c], low)[n];
    assert ConnOk(c, ws[i].conns[c], ws[i].log) && x in Queue(ws[i].conns[c], low);
    RequestsAsAsked(ws, acts, i, x.id);
  }

  /**
   * A restart puts an unanswered request back into its queue exactly when its caller asked for a GET; otherwise the
   * request stays outstanding, and is not sent again.
   */
  lemma RestartReplaysAsked(ws: seq<World>, acts: seq<Action>, i: nat, p: nat, j: nat)
    requires IsRun(ws, acts) && i < |acts| && acts[i].RestartCall? && acts[i].conn in ws[i].conns
    requires !ws[i].conns[acts[i].conn].restarting && p in ws[i].conns[acts[i].conn].active
    requires p < |ws[i].log.wire| && j < |acts| && acts[j].Enqueue? && |ws[j].log.requests| == ws[i].log.wire[p].request.id
    ensures acts[j].kind == Get ==> Waits(ws[i + 1], |ws[j].log.requests|, acts[i].conn)
    ensures acts[j].kind != Get ==> Outstanding(ws[i + 1], |ws[j].log.requests|, p)
  {
    RunSafe(ws, acts, i);
    assert Step(ws[i], acts[i], ws[i + 1]);
    RestartReplaysGets(ws[i], acts[i].conn, acts[i].order, p, ws[i + 1]);
    var t := ws[i].log.wire[p];
    SentAsAsked(ws, acts, i, p);
    var k: nat :| k < i && Asked(ws, acts, k, t.request.id, t.conn, t.request.kind, t.request.low);
    AskedOnce(ws, acts, j, k, t.request.id, t.conn, t.request.kind, t.request.low);
  }

  // ---------------------------------------------------------------- answers

  /** A reply that finishes calls the handler of its own request - unless it is of an older generation, or replayed. */
  lemma FinishCallsItsHandler(w: World, p: nat, v: World)
    requires Safe(w) && Enabled(w, Finish(p)) && v == Next(w, Finish(p))
    ensures var t := w.log.wire[p];
      v.log.delivered == w.log.delivered
        + if Current(w, t.conn, t.generation) && p !in w.conns[t.conn].replayed then [t.request.id] else []
  {
    FinishedSafe(w, p, Finished(w, p));
  }
}
