/** What callers may rely on over whole runs of the transport. */
module TransportTheorems {
  import opened Prelude
  import opened TransportModel
  import opened TransportSafety
  import opened TransportSteps

  predicate Initial(w: World) {
    w == World([], map[], [], Log(0, [], [], [], {}, []))
  }

  lemma InitialSafe(w: World)
    requires Initial(w)
    ensures Safe(w)
  {
  }

  ghost predicate Step(w: World, a: Action, v: World) {
    Enabled(w, a) && (Safe(w) ==> v == Next(w, a))
  }

  ghost predicate IsRun(ws: seq<World>, acts: seq<Action>) {
    && |ws| == |acts| + 1 && Initial(ws[0])
    && forall i :: 0 <= i < |acts| ==> Step(ws[i], acts[i], ws[i + 1])
  }

  lemma {:induction false} RunSafe(ws: seq<World>, acts: seq<Action>, i: nat)
    requires IsRun(ws, acts) && i < |ws|
    ensures Safe(ws[i])
  {
    if i == 0 {
      InitialSafe(ws[0]);
    } else {
      RunSafe(ws, acts, i - 1);
      assert Step(ws[i - 1], acts[i - 1], ws[i]);
      NextSafe(ws[i - 1], acts[i - 1]);
    }
  }

  // ---------------------------------------------------------------- each request is in one place

  ghost predicate Waits(w: World, r: nat, c: nat) {
    c in w.conns && r < |w.log.requests| && (w.log.requests[r] in w.conns[c].high || w.log.requests[r] in w.conns[c].low)
  }

  ghost predicate Outstanding(w: World, r: nat, p: nat) {
    && p < |w.log.wire| && w.log.wire[p].conn in w.conns && r < |w.log.requests|
    && p in w.conns[w.log.wire[p].conn].active && p !in w.conns[w.log.wire[p].conn].replayed
    && w.log.wire[p].request == w.log.requests[r]
  }

  predicate Handled(w: World, r: nat) {
    r in w.log.delivered
  }

  predicate GivenUp(w: World, r: nat) {
    r < |w.log.place| && w.log.place[r] == Discarded
  }

  lemma WaitsPlace(w: World, r: nat, c: nat)
    requires Safe(w) && r < |w.log.requests|
    ensures Waits(w, r, c) <==> w.log.place[r] == Queued(c)
  {
    assert PlaceOk(r, w.conns, w.log);
    if c in w.conns {
      assert ConnOk(c, w.conns[c], w.log);
    }
  }

  lemma OutstandingPlace(w: World, r: nat, p: nat)
    requires Safe(w) && r < |w.log.requests|
    ensures Outstanding(w, r, p) <==> w.log.place[r] == Active(p)
  {
    assert PlaceOk(r, w.conns, w.log);
    if p < |w.log.wire| && w.log.wire[p].conn in w.conns {
      assert ConnOk(w.log.wire[p].conn, w.conns[w.log.wire[p].conn], w.log);
    }
  }

  /**
   * Every request ever enqueued is in exactly one place: waiting in one queue, outstanding as one reply that will
   * be delivered, handled, or given up.
   */
  lemma ExactlyOnePlace(w: World, r: nat)
    requires Safe(w) && r < |w.log.requests|
    ensures (exists c :: Waits(w, r, c)) || (exists p :: Outstanding(w, r, p)) || Handled(w, r) || GivenUp(w, r)
    ensures forall c, d :: Waits(w, r, c) && Waits(w, r, d) ==> c == d
    ensures forall p, q :: Outstanding(w, r, p) && Outstanding(w, r, q) ==> p == q
    ensures forall c, p :: !(Waits(w, r, c) && Outstanding(w, r, p))
    ensures forall c :: Waits(w, r, c) ==> !Handled(w, r) && !GivenUp(w, r)
    ensures forall p :: Outstanding(w, r, p) ==> !Handled(w, r) && !GivenUp(w, r)
    ensures !(Handled(w, r) && GivenUp(w, r))
  {
    assert PlaceOk(r, w.conns, w.log);
    forall c ensures Waits(w, r, c) <==> w.log.place[r] == Queued(c) {
      WaitsPlace(w, r, c);
    }
    forall p ensures Outstanding(w, r, p) <==> w.log.place[r] == Active(p) {
      OutstandingPlace(w, r, p);
    }
    match w.log.place[r]
    case Queued(c) => assert Waits(w, r, c);
    case Active(p) => assert Outstanding(w, r, p);
    case Delivered => assert !GivenUp(w, r);
    case Discarded => assert GivenUp(w, r);
  }

  /** A handler is called at most once, and only a GET is ever on the wire twice. */
  lemma OnceOnly(ws: seq<World>, acts: seq<Action>)
    requires IsRun(ws, acts)
    ensures var log := ws[|acts|].log;
      && Distinct(log.delivered)
      && forall p, q :: 0 <= p < q < |log.wire| && log.wire[p].request.id == log.wire[q].request.id ==>
           log.wire[p].request.kind == Get
  {
    RunSafe(ws, acts, |acts|);
    var log := ws[|acts|].log;
    assert LogOk(log) && WritesOnce(log);
  }

  /** With no handler running, a connector counts exactly the replies it holds, all of its current generation. */
  lemma CounterIsExact(w: World, c: nat)
    requires Safe(w) && w.frames == [] && c in w.conns
    ensures w.conns[c].count == |w.conns[c].active| && !w.conns[c].restarting && w.conns[c].replayed == {}
    ensures forall p: nat :: p in w.conns[c].active <==>
      p < |w.log.wire| && p !in w.log.finished && w.log.wire[p].conn == c
      && w.log.wire[p].generation == w.conns[c].generation
  {
    assert CallsOk(c, w.conns[c], w.frames) && ConnOk(c, w.conns[c], w.log);
  }

  /** The count never has to be clamped: whatever is about to stop counting was counted. */
  lemma NeverClamped(w: World, c: nat)
    requires Safe(w) && c in w.conns
    ensures w.frames != [] && Top(w) == Handler(c, w.conns[c].generation) ==> w.conns[c].count > 0
    ensures w.conns[c].replayed != {} ==> w.conns[c].count > 0
  {
    assert CallsOk(c, w.conns[c], w.frames) && ConnOk(c, w.conns[c], w.log);
    if w.conns[c].replayed != {} {
      var p :| p in w.conns[c].replayed;
      assert p in w.conns[c].gets;
      assert w.conns[c].active != {};
    }
  }

  // ---------------------------------------------------------------- processing the queues

  ghost predicate Sends(w: World, c: nat, low: bool) {
    c in w.conns && Ready(w.conns[c], low)
  }

  /** What processing sends of one priority: the queues of the connectors that may send, one after the other. */
  ghost function Batch(registry: seq<nat>, conns: map<nat, Conn>, low: bool): seq<Sent> {
    if registry == [] then []
    else Part(conns, registry[0], low) + Batch(registry[1..], conns, low)
  }

  ghost function Part(conns: map<nat, Conn>, c: nat, low: bool): seq<Sent> {
    if c !in conns || conns[c].restarting then []
    else
      var q := Queue(conns[c], low);
      seq(|q|, i requires 0 <= i < |q| => Sent(c, q[i], conns[c].generation))
  }

  lemma {:induction false} BatchSame(registry: seq<nat>, a: map<nat, Conn>, b: map<nat, Conn>, low: bool)
    requires forall c :: c in registry ==> Part(a, c, low) == Part(b, c, low)
    ensures Batch(registry, a, low) == Batch(registry, b, low)
  {
    if registry != [] {
      BatchSame(registry[1..], a, b, low);
    }
  }

  lemma {:induction false} BatchFirst(registry: seq<nat>, conns: map<nat, Conn>, low: bool, k: Conn)
    requires Distinct(registry) && Pick(registry, conns, low).Some?
    requires !k.restarting && k.generation == conns[Pick(registry, conns, low).value].generation
    requires Queue(k, low) == Queue(conns[Pick(registry, conns, low).value], low)[1..]
    ensures var c := Pick(registry, conns, low).value;
      Batch(registry, conns, low)
      == [Sent(c, Queue(conns[c], low)[0], conns[c].generation)] + Batch(registry, conns[c := k], low)
  {
    var c := Pick(registry, conns, low).value;
    assert forall i :: 0 <= i < |registry| - 1 ==> registry[1..][i] == registry[i + 1];
    var conns' := conns[c := k];
    if registry[0] in conns && Ready(conns[registry[0]], low) {
      assert Part(conns, c, low) == [Sent(c, Queue(conns[c], low)[0], conns[c].generation)] + Part(conns', c, low);
      BatchSame(registry[1..], conns, conns', low);
    } else {
      assert Part(conns, registry[0], low) == [];
      assert c in registry[1..] && registry[0] != c;
      assert Part(conns', registry[0], low) == [];
      BatchFirst(registry[1..], conns, low, k);
    }
  }

  lemma {:induction false} BatchEmpty(registry: seq<nat>, conns: map<nat, Conn>, low: bool)
    requires Pick(registry, conns, low).None?
    ensures Batch(registry, conns, low) == []
  {
    if registry != [] {
      BatchEmpty(registry[1..], conns, low);
    }
  }

  lemma BeginForm(w: World, c: nat, low: bool)
    requires Known(w) && Pick(w.registry, w.conns, low) == Some(c)
    ensures var (v, k, k') := (Begin(w, c, low), w.conns[c], Begin(w, c, low).conns[c]);
      && v.registry == w.registry && v.conns == w.conns[c := k']
      && v.log.wire == w.log.wire + [Sent(c, Queue(k, low)[0], k.generation)]
      && Queue(k', low) == Queue(k, low)[1..] && Queue(k', !low) == Queue(k, !low)
      && k'.generation == k.generation && k'.restarting == k.restarting && !k.restarting
  {
  }

  /** The rest of a batch once its first request is sent; the other priority is not concerned. */
  lemma BeginBatch(w: World, c: nat, low: bool)
    requires Known(w) && Distinct(w.registry) && Pick(w.registry, w.conns, low) == Some(c)
    ensures var v := Begin(w, c, low);
      && v.registry == w.registry
      && v.log.wire + Batch(v.registry, v.conns, low) == w.log.wire + Batch(w.registry, w.conns, low)
      && Batch(v.registry, v.conns, !low) == Batch(w.registry, w.conns, !low)
  {
    var v := Begin(w, c, low);
    BeginForm(w, c, low);
    BatchFirst(w.registry, w.conns, low, v.conns[c]);
    var first := Sent(c, Queue(w.conns[c], low)[0], w.conns[c].generation);
    Regroup(w.log.wire, first, Batch(w.registry, v.conns, low));
    BatchOther(w.registry, w.conns, c, v.conns[c], !low);
  }

  lemma Regroup(wire: seq<Sent>, first: Sent, rest: seq<Sent>)
    ensures wire + [first] + rest == wire + ([first] + rest)
  {
  }

  lemma BatchOther(registry: seq<nat>, conns: map<nat, Conn>, c: nat, k: Conn, low: bool)
    requires c in conns && Queue(k, low) == Queue(conns[c], low)
    requires k.generation == conns[c].generation && k.restarting == conns[c].restarting
    ensures Batch(registry, conns[c := k], low) == Batch(registry, conns, low)
  {
    BatchSame(registry, conns[c := k], conns, low);
  }

  /** The wire with everything that may be sent, the high priority first. */
  ghost function Whole(w: World): seq<Sent> {
    w.log.wire + Batch(w.registry, w.conns, false) + Batch(w.registry, w.conns, true)
  }

  lemma BeginWhole(w: World, c: nat, low: bool)
    requires Known(w) && Distinct(w.registry) && Pick(w.registry, w.conns, low) == Some(c)
    requires low ==> Pick(w.registry, w.conns, false) == None
    ensures Whole(Begin(w, c, low)) == Whole(w) && Begin(w, c, low).registry == w.registry
  {
    BeginBatch(w, c, low);
    if low {
      BatchEmpty(w.registry, w.conns, false);
      var v := Begin(w, c, low);
      assert w.log.wire + [] == w.log.wire && v.log.wire + [] == v.log.wire;
    }
  }

  lemma NoneSends(w: World)
    requires Pick(w.registry, w.conns, false) == None && Pick(w.registry, w.conns, true) == None
    ensures Whole(w) == w.log.wire && forall c, low :: c in w.registry ==> !Sends(w, c, low)
  {
    BatchEmpty(w.registry, w.conns, false);
    BatchEmpty(w.registry, w.conns, true);
    forall c, low | c in w.registry ensures !Sends(w, c, low) {
      assert low == true || low == false;
    }
  }

  /**
   * Processing the queues sends everything of high priority, on all connectors that are not restarting, before
   * anything of low priority; each queue goes out first in, first out; and nothing that may be sent is left.
   */
  lemma {:induction false} DrainSendsAll(w: World)
    requires Known(w) && Distinct(w.registry)
    ensures Drain(w).log.wire == Whole(w)
    ensures Drain(w).registry == w.registry
    ensures forall c, low :: c in w.registry ==> !Sends(Drain(w), c, low)
    decreases Waiting(w.registry, w.conns)
  {
    match Pick(w.registry, w.conns, false)
    case Some(c) =>
      BeginLess(w, c, false);
      BeginKnown(w, c, false);
      BeginWhole(w, c, false);
      DrainSendsAll(Begin(w, c, false));
    case None =>
      match Pick(w.registry, w.conns, true)
      case Some(c) =>
        BeginLess(w, c, true);
        BeginKnown(w, c, true);
        BeginWhole(w, c, true);
        DrainSendsAll(Begin(w, c, true));
      case None => NoneSends(w);
  }

  /** Nothing waits on a connector that is not restarting. */
  ghost predicate NothingWaits(w: World) {
    forall c, low :: c in w.conns ==> !Sends(w, c, low)
  }

  lemma DrainedQuiet(w: World)
    requires Safe(w)
    ensures NothingWaits(Drained(w))
  {
    SafeKnown(w);
    DrainSendsAll(w);
    DrainSafe(w);
    assert Registered(w) && Registered(Drain(w));
  }

  lemma {:induction false} ReplaysRestart(w: World, c: nat, order: seq<nat>)
    requires c in w.conns && w.conns[c].restarting
    requires forall p :: p in order ==> p in w.conns[c].gets && w.conns[c].gets[p].id < |w.log.place|
    ensures var v := ReplayAll(w, c, order);
      v.conns.Keys == w.conns.Keys && v.conns[c].restarting && forall d :: d in w.conns && d != c ==> v.conns[d] == w.conns[d]
    decreases |order|
  {
    if order != [] {
      ReplaysRestart(Replay(w, c, order[0]), c, order[1..]);
    }
  }

  lemma QuietRestart(w: World, c: nat, order: seq<nat>, v: World)
    requires NothingWaits(w) && c in w.conns && !w.conns[c].restarting && v == ReplayAll(Restarting(w, c), c, order)
    requires forall p :: p in order ==> p in w.conns[c].gets && w.conns[c].gets[p].id < |w.log.place|
    ensures NothingWaits(v)
  {
    ReplaysRestart(Restarting(w, c), c, order);
    QuietReplays(w, c, v);
  }

  lemma QuietReplays(w: World, c: nat, v: World)
    requires NothingWaits(w) && c in w.conns && v.conns.Keys == w.conns.Keys && v.conns[c].restarting
    requires forall d :: d in w.conns && d != c ==> v.conns[d] == w.conns[d]
    ensures NothingWaits(v)
  {
    forall d, low | d in v.conns ensures !Sends(v, d, low) {
      assert !Sends(w, d, low);
    }
  }

  lemma QuietFinish(w: World, p: nat)
    requires Safe(w) && NothingWaits(w) && p < |w.log.wire| && w.log.wire[p].request.id < |w.log.place|
    ensures NothingWaits(Finished(w, p))
  {
    forall c, low | c in Finished(w, p).conns ensures !Sends(Finished(w, p), c, low) {
      assert !Sends(w, c, low);
    }
  }

  lemma QuietStale(w: World)
    requires Safe(w) && NothingWaits(w) && Enabled(w, RestartEnd)
    requires !Current(w, Top(w).conn, Top(w).generation)
    ensures NothingWaits(Restarted(w))
  {
    if Top(w).conn in w.conns {
      EndOfRestart(w, Top(w).conn);
    }
    forall d, low | d in Restarted(w).conns ensures !Sends(Restarted(w), d, low) {
      assert !Sends(w, d, low);
    }
  }

  lemma QuietEnd(w: World, v: World)
    requires Safe(w) && NothingWaits(w) && Enabled(w, RestartEnd) && v == Next(w, RestartEnd)
    ensures NothingWaits(v)
  {
    if Current(w, Top(w).conn, Top(w).generation) {
      RestartedSafe(w, Restarted(w));
      DrainedQuiet(Restarted(w));
    } else {
      QuietStale(w);
    }
  }

  lemma QuietReturned(w: World, v: World)
    requires NothingWaits(w) && w.frames != [] && Top(w).Handler? && v == Returned(w)
    ensures NothingWaits(v)
  {
    forall d, low | d in v.conns ensures !Sends(v, d, low) {
      assert !Sends(w, d, low);
    }
  }

  lemma QuietReturn(w: World)
    requires Safe(w) && NothingWaits(w) && Enabled(w, Return)
    ensures NothingWaits(Next(w, Return))
  {
    ReturnedSafe(w, Returned(w));
    DrainedQuiet(Returned(w));
    QuietReturned(w, Returned(w));
  }

  /** After every call and every event, no request is kept waiting except by a restart of its own connector. */
  lemma NextQuiet(w: World, a: Action)
    requires Safe(w) && NothingWaits(w) && Enabled(w, a)
    ensures NothingWaits(Next(w, a))
  {
    match a
    case Create(i) =>
      forall c, low | c in Created(w, i).conns ensures !Sends(Created(w, i), c, low) {
        assert c in w.conns ==> !Sends(w, c, low);
      }
    case Enqueue(c, kind, low) =>
      PushSafe(w, c, kind, low, Push(w, c, kind, low));
      DrainedQuiet(Push(w, c, kind, low));
    case Reset(c) =>
      ClearedSafe(w, c, Cleared(w, c));
      DrainedQuiet(Cleared(w, c));
    case Destroy(c) =>
      DestroyedSafe(w, c, Destroyed(w, c));
      DrainedQuiet(Destroyed(w, c));
    case RestartCall(c, order) =>
      if !w.conns[c].restarting {
        RestartOrder(w, c, order);
        QuietRestart(w, c, order, Next(w, a));
      }
    case Finish(p) =>
      FinishedSafe(w, p, Finished(w, p));
      QuietFinish(w, p);
    case Return => QuietReturn(w);
    case Abort(p) =>
      if p !in w.log.finished {
        QuietFinish(w, p);
        forall d, low | d in Aborted(w, p).conns ensures !Sends(Aborted(w, p), d, low) {
          assert !Sends(Finished(w, p), d, low);
        }
      } else {
        forall d, low | d in w.conns ensures !Sends(Aborted(w, p), d, low) {
          assert !Sends(w, d, low);
        }
      }
    case RestartEnd => QuietEnd(w, Next(w, a));
  }

  lemma {:induction false} RunQuiet(ws: seq<World>, acts: seq<Action>, i: nat)
    requires IsRun(ws, acts) && i < |ws|
    ensures NothingWaits(ws[i])
  {
    if i > 0 {
      RunQuiet(ws, acts, i - 1);
      RunSafe(ws, acts, i - 1);
      assert Step(ws[i - 1], acts[i - 1], ws[i]);
      NextQuiet(ws[i - 1], acts[i - 1]);
    }
  }

  // ---------------------------------------------------------------- what may become of a request

  predicate Final(p: Place) {
    p == Delivered || p == Discarded
  }

  lemma {:induction false} DrainMoves(w: World, r: nat)
    requires Safe(w) && Known(w) && r < |w.log.place|
    ensures |Drain(w).log.place| == |w.log.place|
    ensures Drain(w).log.place[r] == w.log.place[r] || (w.log.place[r].Queued? && Drain(w).log.place[r].Active?)
    decreases Waiting(w.registry, w.conns)
  {
    var high, low := Pick(w.registry, w.conns, false), Pick(w.registry, w.conns, true);
    if high.Some? {
      DrainMovesFrom(w, r, high.value, false);
    } else if low.Some? {
      DrainMovesFrom(w, r, low.value, true);
    }
  }

  lemma {:induction false} DrainMovesFrom(w: World, r: nat, c: nat, low: bool)
    requires Safe(w) && Known(w) && r < |w.log.place| && Pick(w.registry, w.conns, low) == Some(c)
    ensures Known(Begin(w, c, low))
    ensures var v := Drain(Begin(w, c, low));
      |v.log.place| == |w.log.place|
      && (v.log.place[r] == w.log.place[r] || (w.log.place[r].Queued? && v.log.place[r].Active?))
    decreases Waiting(w.registry, w.conns), 0
  {
    BeginLess(w, c, low);
    BeginKnown(w, c, low);
    BeginMoves(w, c, low, r, Begin(w, c, low));
    DrainMoves(Begin(w, c, low), r);
  }

  lemma BeginMoves(w: World, c: nat, low: bool, r: nat, v: World)
    requires Safe(w) && Known(w) && r < |w.log.place| && Pick(w.registry, w.conns, low) == Some(c) && v == Begin(w, c, low)
    ensures Safe(v) && |v.log.place| == |w.log.place|
    ensures v.log.place[r] == w.log.place[r] || (w.log.place[r].Queued? && v.log.place[r].Active?)
  {
    FirstIsQueued(w, c, low);
    BeginPlace(w, c, low, r, v);
    BeginSafe(w, c, low, v);
  }

  lemma BeginPlace(w: World, c: nat, low: bool, r: nat, v: World)
    requires c in w.conns && Queue(w.conns[c], low) != [] && r < |w.log.place|
    requires QueuedHere(Queue(w.conns[c], low)[0], c, w.log) && v == Begin(w, c, low)
    ensures |v.log.place| == |w.log.place|
    ensures v.log.place[r] == w.log.place[r] || (w.log.place[r].Queued? && v.log.place[r].Active?)
  {
  }

  lemma FirstIsQueued(w: World, c: nat, low: bool)
    requires ConnsOk(w.conns, w.log) && c in w.conns && Queue(w.conns[c], low) != []
    ensures QueuedHere(Queue(w.conns[c], low)[0], c, w.log)
  {
    assert ConnOk(c, w.conns[c], w.log);
  }

  /** These GETs are held, not yet replayed, and known. */
  ghost predicate Replayable(w: World, c: nat, order: seq<nat>) {
    && Safe(w) && c in w.conns && w.conns[c].restarting && Distinct(order)
    && forall p :: p in order ==>
         p in w.conns[c].gets && p !in w.conns[c].replayed && w.conns[c].gets[p].id < |w.log.place|
  }

  /** Where request r is once the GETs of `order` are replayed. */
  function Replayed(place: Place, c: nat, order: seq<nat>): Place {
    if place.Active? && place.reply in order then Queued(c) else place
  }

  lemma {:induction false} ReplayMoves(w: World, c: nat, order: seq<nat>, r: nat, v: World)
    requires Replayable(w, c, order) && r < |w.log.place| && v == ReplayAll(w, c, order)
    ensures |v.log.place| == |w.log.place| && v.log.place[r] == Replayed(w.log.place[r], c, order)
    decreases |order|
  {
    if order != [] {
      ReplayStep(w, c, order, r, Replay(w, c, order[0]));
      ReplayMoves(Replay(w, c, order[0]), c, order[1..], r, v);
    }
  }

  lemma ReplayStep(w: World, c: nat, order: seq<nat>, r: nat, v: World)
    requires Replayable(w, c, order) && r < |w.log.place| && order != [] && v == Replay(w, c, order[0])
    ensures Replayable(v, c, order[1..]) && |v.log.place| == |w.log.place|
    ensures Replayed(v.log.place[r], c, order[1..]) == Replayed(w.log.place[r], c, order)
  {
    ReplayMove(w, c, order[0], r);
    ReplaySafe(w, c, order[0], v);
    ReplayFacts(w, c, order, v);
    ReplayedNext(w.log.place[r], c, order);
  }

  lemma ReplayedNext(place: Place, c: nat, order: seq<nat>)
    requires order != []
    ensures Replayed(if place == Active(order[0]) then Queued(c) else place, c, order[1..]) == Replayed(place, c, order)
  {
    assert forall q :: q in order <==> q == order[0] || q in order[1..];
  }

  lemma ReplayMove(w: World, c: nat, p: nat, r: nat)
    requires LogOk(w.log) && ConnsOk(w.conns, w.log) && PlacesOk(w.conns, w.log) && c in w.conns && r < |w.log.place|
    requires p in w.conns[c].gets && p !in w.conns[c].replayed && w.conns[c].gets[p].id < |w.log.place|
    ensures Replay(w, c, p).log.place[r] == if w.log.place[r] == Active(p) then Queued(c) else w.log.place[r]
  {
    assert ConnOk(c, w.conns[c], w.log);
    HeldReply(w.log, c, w.conns[c], p);
    assert PlaceOk(r, w.conns, w.log);
  }

  lemma RestartReplayable(w: World, c: nat, order: seq<nat>)
    requires Safe(w) && Enabled(w, RestartCall(c, order)) && !w.conns[c].restarting
    ensures Replayable(Restarting(w, c), c, order)
  {
    RestartOrder(w, c, order);
    RestartingSafe(w, c, Restarting(w, c));
  }

  /**
   * A restart gives every unanswered GET back to its queue and leaves every unanswered write outstanding: its
   * handler will be told that it was cancelled, and it is not sent again.
   */
  lemma RestartReplaysGets(w: World, c: nat, order: seq<nat>, p: nat, v: World)
    requires Safe(w) && Enabled(w, RestartCall(c, order)) && !w.conns[c].restarting && p in w.conns[c].active
    requires v == Next(w, RestartCall(c, order))
    ensures p < |w.log.wire| && Safe(v)
    ensures w.log.wire[p].request.kind == Get ==> Waits(v, w.log.wire[p].request.id, c)
    ensures w.log.wire[p].request.kind != Get ==> Outstanding(v, w.log.wire[p].request.id, p)
  {
    assert ConnOk(c, w.conns[c], w.log) && CallsOk(c, w.conns[c], w.frames);
    HeldReply(w.log, c, w.conns[c], p);
    var r := w.log.wire[p].request.id;
    RestartReplayable(w, c, order);
    ReplayMoves(Restarting(w, c), c, order, r, v);
    NextSafe(w, RestartCall(c, order));
    WaitsPlace(v, r, c);
    OutstandingPlace(v, r, p);
  }

  lemma DrainedMoves(w: World, r: nat)
    requires Safe(w) && r < |w.log.place|
    ensures |Drained(w).log.place| == |w.log.place|
    ensures Final(w.log.place[r]) ==> Drained(w).log.place[r] == w.log.place[r]
    ensures Drained(w).log.place[r] == Discarded ==> w.log.place[r] == Discarded
  {
    SafeKnown(w);
    DrainMoves(w, r);
  }

  ghost predicate Moves(w: World, a: Action, v: World, r: nat)
    requires r < |w.log.place|
  {
    && r < |v.log.place|
    && (Final(w.log.place[r]) ==> v.log.place[r] == w.log.place[r])
    && (v.log.place[r] == Discarded && w.log.place[r] != Discarded ==> a.Reset? || a.Destroy?)
  }

  lemma FinishMoves(w: World, a: Action, p: nat, r: nat)
    requires Safe(w) && p < |w.log.wire| && p !in w.log.finished && r < |w.log.place|
    ensures Moves(w, a, Finished(w, p), r)
  {
    var c := w.log.wire[p].conn;
    if Current(w, c, w.log.wire[p].generation) && p !in w.conns[c].replayed {
      assert ConnOk(c, w.conns[c], w.log);
      HeldReply(w.log, c, w.conns[c], p);
    }
  }

  lemma RestartMoves(w: World, c: nat, order: seq<nat>, r: nat, v: World)
    requires Replayable(w, c, order) && r < |w.log.place| && v == ReplayAll(w, c, order)
    ensures Moves(w, RestartCall(c, order), v, r)
  {
    ReplayMoves(w, c, order, r, v);
  }

  /** A call that only changes the books and then processes the queues. */
  lemma DrainingMoves(w: World, a: Action, u: World, r: nat)
    requires Safe(u) && r < |w.log.place| && Moves(w, a, u, r)
    ensures Moves(w, a, Drained(u), r)
  {
    DrainedMoves(u, r);
  }

  lemma LocalMoves(w: World, a: Action, r: nat)
    requires r < |w.log.place| && Enabled(w, a)
    ensures a.Enqueue? ==> Moves(w, a, Push(w, a.conn, a.kind, a.low), r)
    ensures a.Reset? ==> Moves(w, a, Cleared(w, a.conn), r)
    ensures a.Destroy? ==> Moves(w, a, Destroyed(w, a.conn), r)
    ensures a.Return? ==> Moves(w, a, Returned(w), r)
    ensures a.RestartEnd? ==> Moves(w, a, Restarted(w), r)
  {
  }

  /** What was handled stays handled, what was given up stays given up, and only a reset or destruction gives up. */
  lemma FinalIsFinal(w: World, a: Action, r: nat, v: World)
    requires Safe(w) && Enabled(w, a) && r < |w.log.place| && v == Next(w, a)
    ensures Moves(w, a, v, r)
  {
    LocalMoves(w, a, r);
    match a
    case Create(i) =>
    case Enqueue(c, kind, low) =>
      PushSafe(w, c, kind, low, Push(w, c, kind, low));
      DrainingMoves(w, a, Push(w, c, kind, low), r);
    case Reset(c) =>
      ClearedSafe(w, c, Cleared(w, c));
      DrainingMoves(w, a, Cleared(w, c), r);
    case Destroy(c) =>
      DestroyedSafe(w, c, Destroyed(w, c));
      DrainingMoves(w, a, Destroyed(w, c), r);
    case RestartCall(c, order) =>
      if !w.conns[c].restarting {
        RestartReplayable(w, c, order);
        RestartMoves(Restarting(w, c), c, order, r, v);
      }
    case Finish(p) =>
      FinishMoves(w, a, p, r);
      FinishedSafe(w, p, Finished(w, p));
    case Return =>
      ReturnedSafe(w, Returned(w));
      DrainingMoves(w, a, Returned(w), r);
    case Abort(p) => AbortMoves(w, p, r, v);
    case RestartEnd =>
      RestartedSafe(w, Restarted(w));
      DrainingMoves(w, a, Restarted(w), r);
  }

  lemma AbortMoves(w: World, p: nat, r: nat, v: World)
    requires Safe(w) && Enabled(w, Abort(p)) && r < |w.log.place| && v == Aborted(w, p)
    ensures Moves(w, Abort(p), v, r)
  {
    if p !in w.log.finished {
      FinishMoves(w, Abort(p), p, r);
    }
  }
}
