/** Every call and every event keeps the transport's invariant. */
module TransportSteps {
  import opened Prelude
  import opened TransportModel
  import opened TransportSafety

  // ---------------------------------------------------------------- a history that goes on

  /** From log to log' nothing changed about the queued requests and the held replies of connector d. */
  ghost predicate Carries(d: nat, k: Conn, log: Log, log': Log) {
    && |log.place| <= |log'.place| && |log.requests| <= |log'.requests|
    && (forall i :: 0 <= i < |log.requests| ==> log'.requests[i] == log.requests[i])
    && log'.wire == log.wire
    && log.finished <= log'.finished && (forall p :: p in k.active ==> p !in log'.finished)
    && (forall r :: 0 <= r < |log.place| && log.place[r] == Queued(d) ==> log'.place[r] == log.place[r])
    && (forall r :: 0 <= r < |log.place| && log.place[r].Active? && log.place[r].reply in k.active - k.replayed ==>
          log'.place[r] == log.place[r])
  }

  lemma CarriesQueue(d: nat, k: Conn, log: Log, log': Log, q: seq<Request>, low: bool)
    requires Carries(d, k, log, log') && QueueOk(d, q, low, log)
    ensures QueueOk(d, q, low, log')
  {
    forall x | x in q ensures QueuedHere(x, d, log') {
      assert QueuedHere(x, d, log);
    }
  }

  lemma CarriesConn(d: nat, k: Conn, log: Log, log': Log)
    requires ConnOk(d, k, log) && Carries(d, k, log, log')
    ensures ConnOk(d, k, log')
  {
    CarriesQueue(d, k, log, log', k.high, false);
    CarriesQueue(d, k, log, log', k.low, true);
  }

  // ---------------------------------------------------------------- counting calls

  lemma {:induction false} NoCalls(frames: seq<Frame>, c: nat, g: nat)
    requires forall i :: 0 <= i < |frames| && frames[i].conn == c ==> frames[i].generation < g
    ensures Handlers(frames, c, g) == 0 && Restarts(frames, c, g) == 0
  {
    if frames != [] {
      NoCalls(frames[..|frames| - 1], c, g);
    }
  }

  lemma PushCount(frames: seq<Frame>, f: Frame, c: nat, g: nat)
    ensures Handlers(frames + [f], c, g) == Handlers(frames, c, g) + (if f == Handler(c, g) then 1 else 0)
    ensures Restarts(frames + [f], c, g) == Restarts(frames, c, g) + (if IsRestart(f, c, g) then 1 else 0)
  {
    assert (frames + [f])[..|frames|] == frames;
  }

  lemma PushOrdered(frames: seq<Frame>, f: Frame)
    requires FramesOrdered(frames) && FramesPast(frames, f.conn, f.generation)
    ensures FramesOrdered(frames + [f])
  {
  }

  lemma {:induction false} SameCount(frames: seq<Frame>, i: nat, rest: set<nat>, c: nat, g: nat)
    requires i < |frames| && frames[i].Restart?
    ensures var frames' := frames[i := frames[i].(remaining := rest)];
      Handlers(frames', c, g) == Handlers(frames, c, g) && Restarts(frames', c, g) == Restarts(frames, c, g)
  {
    var frames' := frames[i := frames[i].(remaining := rest)];
    var n := |frames| - 1;
    if i < n {
      SameCount(frames[..n], i, rest, c, g);
      assert frames'[..n] == frames[..n][i := frames[i].(remaining := rest)];
    } else {
      assert frames'[..n] == frames[..n];
    }
  }

  // ---------------------------------------------------------------- a new request

  function PushLog(log: Log, c: nat, r: Request): Log {
    log.(requests := log.requests + [r], place := log.place + [Queued(c)])
  }

  lemma PushHere(log: Log, c: nat, k: Conn, kind: Method, low: bool)
    requires LogOk(log) && ConnOk(c, k, log)
    ensures var r := Request(|log.requests|, kind, low);
      ConnOk(c, SetQueue(k, low, Queue(k, low) + [r]), PushLog(log, c, r))
  {
    var r := Request(|log.requests|, kind, low);
    var log' := PushLog(log, c, r);
    assert Carries(c, k, log, log');
    CarriesConn(c, k, log, log');
    assert forall x :: x in Queue(k, low) ==> QueuedHere(x, c, log);
    assert r !in Queue(k, low);
  }

  lemma PushPlaces(w: World, c: nat, kind: Method, low: bool, v: World)
    requires LogOk(w.log) && PlacesOk(w.conns, w.log) && c in w.conns && v == Push(w, c, kind, low)
    ensures LogOk(v.log) && PlacesOk(v.conns, v.log)
  {
    forall x: nat | x < |v.log.place| ensures PlaceOk(x, v.conns, v.log) {
      if x < |w.log.place| {
        assert PlaceOk(x, w.conns, w.log);
      }
    }
  }

  lemma PushLogOk(log: Log, c: nat, r: Request)
    requires LogOk(log) && r.id == |log.requests|
    ensures WritesOnce(log) ==> WritesOnce(PushLog(log, c, r))
    ensures DeliveredOk(log) ==> DeliveredOk(PushLog(log, c, r))
  {
  }

  /** Calls are counted by replies, frames and flags only. */
  lemma CallsSame(conns: map<nat, Conn>, frames: seq<Frame>, c: nat, k: Conn)
    requires AllCallsOk(conns, frames) && c in conns
    requires k.active == conns[c].active && k.count == conns[c].count && k.generation == conns[c].generation
    requires k.restarting == conns[c].restarting && k.replayed == conns[c].replayed
    ensures AllCallsOk(conns[c := k], frames)
  {
    assert CallsOk(c, conns[c], frames);
    forall d | d in conns ensures CallsOk(d, conns[c := k][d], frames) {
      assert CallsOk(d, conns[d], frames);
    }
  }

  lemma PushConns(w: World, c: nat, kind: Method, low: bool, v: World)
    requires LogOk(w.log) && ConnsOk(w.conns, w.log) && c in w.conns && v == Push(w, c, kind, low)
    ensures ConnsOk(v.conns, v.log)
  {
    forall d | d in v.conns ensures ConnOk(d, v.conns[d], v.log) {
      assert ConnOk(d, w.conns[d], w.log);
      if d == c {
        PushHere(w.log, c, w.conns[c], kind, low);
      } else {
        CarriesConn(d, w.conns[d], w.log, v.log);
      }
    }
  }

  lemma PushSafe(w: World, c: nat, kind: Method, low: bool, v: World)
    requires Safe(w) && c in w.conns && v == Push(w, c, kind, low)
    ensures Safe(v)
  {
    var r := Request(|w.log.requests|, kind, low);
    PushLogOk(w.log, c, r);
    PushPlaces(w, c, kind, low, v);
    PushConns(w, c, kind, low, v);
    CallsSame(w.conns, w.frames, c, v.conns[c]);
  }

  // ---------------------------------------------------------------- reset and destruction

  lemma DropLogOk(log: Log, c: nat)
    requires LogOk(log)
    ensures LogOk(Drop(log, c))
    ensures WritesOnce(log) ==> WritesOnce(Drop(log, c))
    ensures DeliveredOk(log) ==> DeliveredOk(Drop(log, c))
  {
  }

  lemma DropElsewhere(log: Log, c: nat, d: nat, k: Conn)
    requires LogOk(log) && ConnOk(d, k, log) && c != d
    ensures ConnOk(d, k, Drop(log, c))
  {
    CarriesConn(d, k, log, Drop(log, c));
  }

  lemma DropPlaces(w: World, c: nat, conns: map<nat, Conn>)
    requires LogOk(w.log) && PlacesOk(w.conns, w.log)
    requires forall d :: d in w.conns && d != c ==> d in conns && conns[d] == w.conns[d]
    ensures PlacesOk(conns, Drop(w.log, c))
  {
    var log := Drop(w.log, c);
    forall x: nat | x < |log.place| ensures PlaceOk(x, conns, log) {
      assert PlaceOk(x, w.conns, w.log);
    }
  }

  lemma FreshConn(c: nat, g: nat, log: Log)
    requires forall p: nat :: p < |log.wire| && log.wire[p].conn == c ==> log.wire[p].generation < g
    ensures ConnOk(c, FRESH.(generation := g), log)
  {
  }

  lemma FreshCalls(frames: seq<Frame>, c: nat, g: nat)
    requires forall i :: 0 <= i < |frames| && frames[i].conn == c ==> frames[i].generation < g
    ensures CallsOk(c, FRESH.(generation := g), frames)
  {
    NoCalls(frames, c, g);
    NoRestart(frames, c, g);
  }

  lemma ClearedSafe(w: World, c: nat, v: World)
    requires Safe(w) && c in w.conns && v == Cleared(w, c)
    ensures Safe(v)
  {
    DropLogOk(w.log, c);
    DropPlaces(w, c, v.conns);
    assert ConnOk(c, w.conns[c], w.log) && CallsOk(c, w.conns[c], w.frames);
    FreshConn(c, w.conns[c].generation + 1, v.log);
    FreshCalls(w.frames, c, w.conns[c].generation + 1);
    forall d | d in v.conns ensures ConnOk(d, v.conns[d], v.log) && CallsOk(d, v.conns[d], v.frames) {
      if d != c {
        assert ConnOk(d, w.conns[d], w.log) && CallsOk(d, w.conns[d], w.frames);
        DropElsewhere(w.log, c, d, w.conns[d]);
      }
    }
  }

  lemma {:induction false} WithoutDistinct<T(!new)>(s: seq<T>, x: T)
    requires Distinct(s)
    ensures Distinct(Without(s, x))
  {
    if s != [] {
      assert forall i :: 0 <= i < |s| - 1 ==> s[1..][i] == s[i + 1];
      assert s[0] !in s[1..];
      WithoutDistinct(s[1..], x);
      var rest := Without(s[1..], x);
      assert s[0] !in rest;
      assert Distinct([s[0]] + rest);
    }
  }

  lemma DestroyedSafe(w: World, c: nat, v: World)
    requires Safe(w) && c in w.conns && v == Destroyed(w, c)
    ensures Safe(v)
  {
    DropLogOk(w.log, c);
    DropPlaces(w, c, v.conns);
    WithoutDistinct(w.registry, c);
    forall d | d in v.conns ensures ConnOk(d, v.conns[d], v.log) && CallsOk(d, v.conns[d], v.frames) {
      assert ConnOk(d, w.conns[d], w.log) && CallsOk(d, w.conns[d], w.frames);
      DropElsewhere(w.log, c, d, w.conns[d]);
    }
  }

  lemma CreatedSafe(w: World, i: nat, v: World)
    requires Safe(w) && i <= |w.registry| && v == Created(w, i)
    ensures Safe(v)
  {
    var c := w.log.born;
    assert w.registry == w.registry[..i] + w.registry[i..];
    assert c !in w.conns;
    FreshConn(c, 0, v.log);
    FreshCalls(w.frames, c, 0);
    CreatedRest(w, i, v);
    forall d | d in v.conns ensures ConnOk(d, v.conns[d], v.log) && CallsOk(d, v.conns[d], v.frames) {
      if d != c {
        CreatedOthers(w, i, v, d);
      }
    }
  }

  lemma CreatedOthers(w: World, i: nat, v: World, d: nat)
    requires Safe(w) && i <= |w.registry| && v == Created(w, i) && d in w.conns
    ensures d in v.conns && (d != w.log.born ==> ConnOk(d, v.conns[d], v.log) && CallsOk(d, v.conns[d], v.frames))
  {
    assert ConnOk(d, w.conns[d], w.log) && CallsOk(d, w.conns[d], w.frames);
    CarriesConn(d, w.conns[d], w.log, v.log);
  }

  lemma CreatedRest(w: World, i: nat, v: World)
    requires LogOk(w.log) && PlacesOk(w.conns, w.log) && w.log.born !in w.conns
    requires i <= |w.registry| && v == Created(w, i)
    ensures LogOk(v.log) && PlacesOk(v.conns, v.log)
    ensures WritesOnce(w.log) ==> WritesOnce(v.log)
    ensures DeliveredOk(w.log) ==> DeliveredOk(v.log)
  {
    forall x: nat | x < |v.log.place| ensures PlaceOk(x, v.conns, v.log) {
      assert PlaceOk(x, w.conns, w.log);
    }
  }

  // ---------------------------------------------------------------- a restart begins

  lemma RestartingSafe(w: World, c: nat, v: World)
    requires Safe(w) && c in w.conns && !w.conns[c].restarting && v == Restarting(w, c)
    ensures Safe(v)
  {
    RestartingPlaces(w, c, v);
    RestartingCalls(w.conns, w.frames, c);
    RestartingOrder(w, c);
  }

  lemma RestartingOrder(w: World, c: nat)
    requires AllCallsOk(w.conns, w.frames) && FramesOrdered(w.frames) && c in w.conns
    ensures FramesOrdered(w.frames + [Restart(c, w.conns[c].generation, w.conns[c].active)])
    ensures FramesOrdered(w.frames + [Handler(c, w.conns[c].generation)])
  {
    assert CallsOk(c, w.conns[c], w.frames);
    PushOrdered(w.frames, Restart(c, w.conns[c].generation, w.conns[c].active));
    PushOrdered(w.frames, Handler(c, w.conns[c].generation));
  }

  lemma RestartingCalls(conns: map<nat, Conn>, frames: seq<Frame>, c: nat)
    requires AllCallsOk(conns, frames) && c in conns && !conns[c].restarting
    ensures var k := conns[c];
      AllCallsOk(conns[c := k.(restarting := true)], frames + [Restart(c, k.generation, k.active)])
  {
    var k := conns[c];
    var (conns', f) := (conns[c := k.(restarting := true)], Restart(c, k.generation, k.active));
    assert CallsOk(c, k, frames);
    NoRestart(frames, c, k.generation);
    forall d | d in conns ensures CallsOk(d, conns'[d], frames + [f]) {
      assert CallsOk(d, conns[d], frames);
      PushCount(frames, f, d, conns[d].generation);
    }
  }

  lemma RestartingPlaces(w: World, c: nat, v: World)
    requires LogOk(w.log) && PlacesOk(w.conns, w.log) && ConnsOk(w.conns, w.log)
    requires c in w.conns && v == Restarting(w, c)
    ensures PlacesOk(v.conns, v.log) && ConnsOk(v.conns, v.log)
  {
    SamePlaces(w.conns, w.log, c, v.conns[c]);
  }

  function ReplayLog(log: Log, c: nat, r: Request): Log
    requires r.id < |log.place|
  {
    log.(place := log.place[r.id := Queued(c)])
  }

  function ReplayConn(k: Conn, p: nat): Conn
    requires p in k.gets
  {
    var r := k.gets[p];
    SetQueue(k, r.low, [r] + Queue(k, r.low)).(replayed := k.replayed + {p})
  }

  lemma ReplayLogOk(log: Log, c: nat, r: Request, p: nat)
    requires LogOk(log) && p < |log.wire| && log.wire[p].request == r && r.kind == Get && log.place[r.id] == Active(p)
    ensures LogOk(ReplayLog(log, c, r))
    ensures WritesOnce(log) ==> WritesOnce(ReplayLog(log, c, r))
    ensures DeliveredOk(log) ==> DeliveredOk(ReplayLog(log, c, r))
  {
    forall q: nat | q < |log.wire| && log.wire[q].request.kind != Get && WritesOnce(log)
      ensures !ReplayLog(log, c, r).place[log.wire[q].request.id].Queued?
    {
      assert log.wire[q].request.id != r.id;
    }
  }

  /** A reply that is held and not replayed is where its request is. */
  lemma HeldReply(log: Log, c: nat, k: Conn, p: nat)
    requires LogOk(log) && ConnOk(c, k, log) && p in k.active && p !in k.replayed
    ensures p < |log.wire| && log.wire[p].request.id < |log.place| && log.place[log.wire[p].request.id] == Active(p)
    ensures log.wire[p].conn == c && log.wire[p].generation == k.generation && p !in log.finished
    ensures log.wire[p].request !in k.high && log.wire[p].request !in k.low
  {
    assert forall x :: x in k.high || x in k.low ==> QueuedHere(x, c, log);
  }

  lemma ReplayHere(log: Log, c: nat, k: Conn, p: nat)
    requires LogOk(log) && ConnOk(c, k, log) && p in k.gets && p !in k.replayed && k.gets[p].id < |log.place|
    ensures ConnOk(c, ReplayConn(k, p), ReplayLog(log, c, k.gets[p]))
  {
    var r, log' := k.gets[p], ReplayLog(log, c, k.gets[p]);
    HeldReply(log, c, k, p);
    var k1 := k.(replayed := k.replayed + {p});
    assert Carries(c, k1, log, log');
    CarriesQueue(c, k1, log, log', k.high, false);
    CarriesQueue(c, k1, log, log', k.low, true);
    assert PlacedReplies(k1, log');
    assert QueueOk(c, [r] + Queue(k, r.low), r.low, log');
  }

  lemma ReplayElsewhere(log: Log, c: nat, k: Conn, p: nat, d: nat, k': Conn)
    requires LogOk(log) && ConnOk(c, k, log) && p in k.gets && p !in k.replayed && k.gets[p].id < |log.place|
    requires ConnOk(d, k', log) && c != d
    ensures ConnOk(d, k', ReplayLog(log, c, k.gets[p]))
  {
    HeldReply(log, c, k, p);
    CarriesConn(d, k', log, ReplayLog(log, c, k.gets[p]));
  }

  lemma ReplayPlaces(w: World, c: nat, p: nat, v: World)
    requires LogOk(w.log) && PlacesOk(w.conns, w.log) && c in w.conns && ConnOk(c, w.conns[c], w.log)
    requires p in w.conns[c].gets && p !in w.conns[c].replayed && w.conns[c].gets[p].id < |w.log.place|
    requires v == Replay(w, c, p)
    ensures PlacesOk(v.conns, v.log)
  {
    HeldReply(w.log, c, w.conns[c], p);
    forall x: nat | x < |v.log.place| ensures PlaceOk(x, v.conns, v.log) {
      assert PlaceOk(x, w.conns, w.log);
    }
  }

  lemma ReplaySafe(w: World, c: nat, p: nat, v: World)
    requires Safe(w) && c in w.conns && w.conns[c].restarting
    requires p in w.conns[c].gets && p !in w.conns[c].replayed && w.conns[c].gets[p].id < |w.log.place|
    requires v == Replay(w, c, p)
    ensures Safe(v) && v.conns[c] == ReplayConn(w.conns[c], p)
  {
    var k := w.conns[c];
    assert ConnOk(c, k, w.log) && CallsOk(c, k, w.frames);
    HeldReply(w.log, c, k, p);
    ReplayLogOk(w.log, c, k.gets[p], p);
    ReplayHere(w.log, c, k, p);
    ReplayPlaces(w, c, p, v);
    forall d | d in v.conns ensures ConnOk(d, v.conns[d], v.log) && CallsOk(d, v.conns[d], v.frames) {
      if d != c {
        assert ConnOk(d, w.conns[d], w.log) && CallsOk(d, w.conns[d], w.frames);
        ReplayElsewhere(w.log, c, k, p, d, w.conns[d]);
      }
    }
  }

  lemma {:induction false} ReplayAllSafe(w: World, c: nat, order: seq<nat>, v: World)
    requires Safe(w) && c in w.conns && w.conns[c].restarting && Distinct(order)
    requires forall p :: p in order ==>
      p in w.conns[c].gets && p !in w.conns[c].replayed && w.conns[c].gets[p].id < |w.log.place|
    requires v == ReplayAll(w, c, order)
    ensures Safe(v)
    decreases |order|
  {
    if order != [] {
      var w1 := Replay(w, c, order[0]);
      ReplaySafe(w, c, order[0], w1);
      ReplayFacts(w, c, order, w1);
      ReplayAllSafe(w1, c, order[1..], v);
    }
  }

  lemma ReplayFacts(w: World, c: nat, order: seq<nat>, v: World)
    requires c in w.conns && Distinct(order) && order != []
    requires forall p :: p in order ==>
      p in w.conns[c].gets && p !in w.conns[c].replayed && w.conns[c].gets[p].id < |w.log.place|
    requires v == Replay(w, c, order[0])
    ensures c in v.conns && v.conns[c].restarting == w.conns[c].restarting && Distinct(order[1..])
    ensures forall p :: p in order[1..] ==>
      p in v.conns[c].gets && p !in v.conns[c].replayed && v.conns[c].gets[p].id < |v.log.place|
  {
    assert forall i :: 0 <= i < |order| - 1 ==> order[1..][i] == order[i + 1];
  }

  // ---------------------------------------------------------------- a reply finishes

  function EndLog(log: Log, p: nat): Log {
    log.(finished := log.finished + {p})
  }

  function DeliverLog(log: Log, p: nat): Log
    requires p < |log.wire| && log.wire[p].request.id < |log.place|
  {
    var id := log.wire[p].request.id;
    EndLog(log, p).(delivered := log.delivered + [id], place := log.place[id := Delivered])
  }

  lemma EndConn(d: nat, k: Conn, log: Log, p: nat)
    requires ConnOk(d, k, log) && p !in k.active
    ensures ConnOk(d, k, EndLog(log, p))
  {
    CarriesConn(d, k, log, EndLog(log, p));
  }

  lemma EndPlaces(conns: map<nat, Conn>, log: Log, p: nat)
    requires LogOk(log) && PlacesOk(conns, log) && p < |log.wire|
    ensures LogOk(EndLog(log, p)) && PlacesOk(conns, EndLog(log, p))
    ensures WritesOnce(log) ==> WritesOnce(EndLog(log, p))
    ensures DeliveredOk(log) ==> DeliveredOk(EndLog(log, p))
  {
    forall x: nat | x < |log.place| ensures PlaceOk(x, conns, EndLog(log, p)) {
      assert PlaceOk(x, conns, log);
    }
  }

  /** A reply that no connector holds any more changes nothing but the history. */
  lemma EndedSafe(w: World, p: nat, v: World)
    requires Safe(w) && p < |w.log.wire| && v == Ended(w, p)
    requires forall d :: d in w.conns ==> p !in w.conns[d].active
    ensures Safe(v)
  {
    EndPlaces(w.conns, w.log, p);
    forall d | d in v.conns ensures ConnOk(d, v.conns[d], v.log) {
      assert ConnOk(d, w.conns[d], w.log);
      EndConn(d, w.conns[d], w.log, p);
    }
  }

  lemma NotHeld(w: World, p: nat, d: nat)
    requires ConnsOk(w.conns, w.log) && d in w.conns && p < |w.log.wire|
    requires w.log.wire[p].conn != d || w.log.wire[p].generation != w.conns[d].generation || p in w.log.finished
    ensures p !in w.conns[d].active && p !in w.conns[d].replayed
  {
    assert ConnOk(d, w.conns[d], w.log);
  }

  /** The connector that held the reply lets go of it. */
  lemma ReleasedConn(c: nat, k: Conn, log: Log, p: nat)
    requires ConnOk(c, k, log) && p in k.active
    ensures ConnOk(c, Released(k, p), EndLog(log, p))
  {
    var (k', log') := (Released(k, p), EndLog(log, p));
    assert Carries(c, k', log, log');
    CarriesQueue(c, k', log, log', k.high, false);
    CarriesQueue(c, k', log, log', k.low, true);
  }

  lemma SuppressedPlaces(conns: map<nat, Conn>, log: Log, c: nat, p: nat, k': Conn)
    requires LogOk(log) && PlacesOk(conns, log) && c in conns && ConnOk(c, conns[c], log) && p in conns[c].replayed
    requires p < |log.wire| && k' == Released(conns[c], p).(count := k'.count)
    ensures PlacesOk(conns[c := k'], EndLog(log, p))
  {
    var (conns', log') := (conns[c := k'], EndLog(log, p));
    forall x: nat | x < |log.place| ensures PlaceOk(x, conns', log') {
      assert PlaceOk(x, conns, log);
    }
  }

  lemma ReleasedCalls(conns: map<nat, Conn>, frames: seq<Frame>, c: nat, p: nat, k': Conn)
    requires AllCallsOk(conns, frames) && c in conns && p in conns[c].active
    requires k' == Released(conns[c], p).(count := Less(conns[c].count))
    ensures AllCallsOk(conns[c := k'], frames)
  {
    var k := conns[c];
    assert CallsOk(c, k, frames);
    forall d | d in conns ensures CallsOk(d, conns[c := k'][d], frames) {
      assert CallsOk(d, conns[d], frames);
      if d == c {
        assert |k.active - {p}| == |k.active| - 1;
      }
    }
  }

  lemma SuppressingParts(w: World, c: nat, p: nat, k': Conn)
    requires LogOk(w.log) && ConnsOk(w.conns, w.log) && PlacesOk(w.conns, w.log) && AllCallsOk(w.conns, w.frames)
    requires p < |w.log.wire| && c == w.log.wire[p].conn && Current(w, c, w.log.wire[p].generation)
    requires p in w.conns[c].replayed && k' == Released(w.conns[c], p).(count := Less(w.conns[c].count))
    ensures PlacesOk(w.conns[c := k'], EndLog(w.log, p)) && ConnsOk(w.conns[c := k'], EndLog(w.log, p))
    ensures AllCallsOk(w.conns[c := k'], w.frames)
  {
    ReplayedHeld(w, c, p);
    SuppressedPlaces(w.conns, w.log, c, p, k');
    SuppressedConns(w, p, k');
    ReleasedCalls(w.conns, w.frames, c, p, k');
  }

  lemma SuppressingSafe(w: World, p: nat, v: World)
    requires Safe(w) && p < |w.log.wire| && Current(w, w.log.wire[p].conn, w.log.wire[p].generation)
    requires p in w.conns[w.log.wire[p].conn].replayed && v == Suppressing(w, w.log.wire[p].conn, p)
    ensures Safe(v)
  {
    EndPlaces(w.conns, w.log, p);
    SuppressingParts(w, w.log.wire[p].conn, p, v.conns[w.log.wire[p].conn]);
  }

  lemma ReplayedHeld(w: World, c: nat, p: nat)
    requires ConnsOk(w.conns, w.log) && AllCallsOk(w.conns, w.frames) && c in w.conns && p in w.conns[c].replayed
    ensures ConnOk(c, w.conns[c], w.log) && p in w.conns[c].active && w.conns[c].restarting
  {
    assert ConnOk(c, w.conns[c], w.log) && CallsOk(c, w.conns[c], w.frames);
    assert p in w.conns[c].gets;
  }

  lemma SuppressedConns(w: World, p: nat, k': Conn)
    requires LogOk(w.log) && ConnsOk(w.conns, w.log) && p < |w.log.wire|
    requires Current(w, w.log.wire[p].conn, w.log.wire[p].generation)
    requires p in w.conns[w.log.wire[p].conn].active
    requires k' == Released(w.conns[w.log.wire[p].conn], p).(count := k'.count)
    ensures ConnsOk(w.conns[w.log.wire[p].conn := k'], EndLog(w.log, p))
  {
    var c := w.log.wire[p].conn;
    assert ConnOk(c, w.conns[c], w.log);
    ReleasedConn(c, w.conns[c], w.log, p);
    forall d | d in w.conns ensures ConnOk(d, w.conns[c := k'][d], EndLog(w.log, p)) {
      assert ConnOk(d, w.conns[d], w.log);
      if d != c {
        NotHeld(w, p, d);
        EndConn(d, w.conns[d], w.log, p);
      }
    }
  }

  lemma DeliverHere(log: Log, c: nat, k: Conn, p: nat)
    requires LogOk(log) && ConnOk(c, k, log) && p in k.active && p !in k.replayed && p < |log.wire|
    requires log.wire[p].request.id < |log.place|
    ensures ConnOk(c, Released(k, p), DeliverLog(log, p))
  {
    HeldReply(log, c, k, p);
    ReleasedConn(c, k, log, p);
    CarriesConn(c, Released(k, p), EndLog(log, p), DeliverLog(log, p));
  }

  lemma DeliverElsewhere(log: Log, c: nat, k: Conn, p: nat, d: nat, k': Conn)
    requires LogOk(log) && ConnOk(c, k, log) && p in k.active && p !in k.replayed && p < |log.wire|
    requires log.wire[p].request.id < |log.place| && ConnOk(d, k', log) && c != d
    ensures ConnOk(d, k', DeliverLog(log, p))
  {
    HeldReply(log, c, k, p);
    assert p !in k'.active;
    CarriesConn(d, k', log, DeliverLog(log, p));
  }

  lemma DeliverLogOk(log: Log, p: nat)
    requires LogOk(log) && p < |log.wire| && log.wire[p].request.id < |log.place|
    requires log.place[log.wire[p].request.id] == Active(p)
    ensures LogOk(DeliverLog(log, p))
    ensures WritesOnce(log) ==> WritesOnce(DeliverLog(log, p))
    ensures DeliveredOk(log) ==> DeliveredOk(DeliverLog(log, p))
  {
  }

  lemma DeliverPlaces(conns: map<nat, Conn>, log: Log, c: nat, p: nat)
    requires LogOk(log) && PlacesOk(conns, log) && c in conns && ConnOk(c, conns[c], log) && p < |log.wire|
    requires p in conns[c].active && p !in conns[c].replayed && log.wire[p].request.id < |log.place|
    requires LogOk(DeliverLog(log, p))
    ensures PlacesOk(conns[c := Released(conns[c], p)], DeliverLog(log, p))
  {
    HeldReply(log, c, conns[c], p);
    var (conns', log') := (conns[c := Released(conns[c], p)], DeliverLog(log, p));
    forall x: nat | x < |log.place| ensures PlaceOk(x, conns', log') {
      assert PlaceOk(x, conns, log);
    }
  }

  lemma DeliverCalls(conns: map<nat, Conn>, frames: seq<Frame>, c: nat, p: nat)
    requires AllCallsOk(conns, frames) && c in conns && p in conns[c].active && p !in conns[c].replayed
    ensures AllCallsOk(conns[c := Released(conns[c], p)], frames + [Handler(c, conns[c].generation)])
  {
    var k := conns[c];
    assert CallsOk(c, k, frames);
    forall d | d in conns
      ensures CallsOk(d, conns[c := Released(k, p)][d], frames + [Handler(c, k.generation)])
    {
      assert CallsOk(d, conns[d], frames);
      PushCount(frames, Handler(c, k.generation), d, conns[d].generation);
      if d == c {
        assert |k.active - {p}| == |k.active| - 1;
      }
    }
  }

  lemma DeliveringSafe(w: World, p: nat, v: World)
    requires Safe(w) && p < |w.log.wire| && p !in w.log.finished && w.log.wire[p].request.id < |w.log.place|
    requires Current(w, w.log.wire[p].conn, w.log.wire[p].generation)
    requires p !in w.conns[w.log.wire[p].conn].replayed && v == Delivering(w, w.log.wire[p].conn, p)
    ensures Safe(v) && w.log.place[w.log.wire[p].request.id] == Active(p)
  {
    var c := w.log.wire[p].conn;
    HeldHere(w, c, p);
    DeliverLogOk(w.log, p);
    DeliverPlaces(w.conns, w.log, c, p);
    DeliverConns(w, p);
    DeliverCalls(w.conns, w.frames, c, p);
    RestartingOrder(w, c);
    DeliverRegistered(w, c, p, v);
  }

  lemma HeldHere(w: World, c: nat, p: nat)
    requires LogOk(w.log) && ConnsOk(w.conns, w.log) && p < |w.log.wire| && p !in w.log.finished
    requires c == w.log.wire[p].conn && Current(w, c, w.log.wire[p].generation) && p !in w.conns[c].replayed
    ensures ConnOk(c, w.conns[c], w.log) && p in w.conns[c].active
    ensures w.log.wire[p].request.id < |w.log.place| && w.log.place[w.log.wire[p].request.id] == Active(p)
  {
    assert ConnOk(c, w.conns[c], w.log);
    HeldReply(w.log, c, w.conns[c], p);
  }

  lemma DeliverRegistered(w: World, c: nat, p: nat, v: World)
    requires Registered(w) && c in w.conns && p < |w.log.wire| && w.log.wire[p].request.id < |w.log.place|
    requires v == Delivering(w, c, p)
    ensures Registered(v)
  {
    assert forall i :: 0 <= i < |w.frames| ==> v.frames[i] == w.frames[i];
  }

  lemma DeliverConns(w: World, p: nat)
    requires LogOk(w.log) && ConnsOk(w.conns, w.log) && p < |w.log.wire| && w.log.wire[p].request.id < |w.log.place|
    requires w.log.wire[p].conn in w.conns
    requires p in w.conns[w.log.wire[p].conn].active && p !in w.conns[w.log.wire[p].conn].replayed
    ensures ConnsOk(w.conns[w.log.wire[p].conn := Released(w.conns[w.log.wire[p].conn], p)], DeliverLog(w.log, p))
  {
    var c := w.log.wire[p].conn;
    assert ConnOk(c, w.conns[c], w.log);
    DeliverHere(w.log, c, w.conns[c], p);
    forall d | d in w.conns ensures ConnOk(d, w.conns[c := Released(w.conns[c], p)][d], DeliverLog(w.log, p)) {
      assert ConnOk(d, w.conns[d], w.log);
      if d != c {
        DeliverElsewhere(w.log, c, w.conns[c], p, d, w.conns[d]);
      }
    }
  }

  lemma FinishedSafe(w: World, p: nat, v: World)
    requires Safe(w) && p < |w.log.wire| && p !in w.log.finished && w.log.wire[p].request.id < |w.log.place|
    requires v == Finished(w, p)
    ensures Safe(v) && p in v.log.finished && !FinishDrains(w, p)
  {
    var c := w.log.wire[p].conn;
    if !Current(w, c, w.log.wire[p].generation) {
      forall d | d in w.conns ensures p !in w.conns[d].active {
        NotHeld(w, p, d);
      }
      EndedSafe(w, p, v);
    } else if p in w.conns[c].replayed {
      ReplayedHeld(w, c, p);
      SuppressingSafe(w, p, v);
    } else {
      DeliveringSafe(w, p, v);
    }
  }

  // ---------------------------------------------------------------- calls return

  lemma PopCalls(w: World, d: nat)
    requires Safe(w) && w.frames != [] && d in w.conns
    ensures Covers(Pop(w).frames, d, w.conns[d]) && FramesPast(Pop(w).frames, d, w.conns[d].generation)
    ensures Handlers(w.frames, d, w.conns[d].generation)
      == Handlers(Pop(w).frames, d, w.conns[d].generation) + (if Top(w) == Handler(d, w.conns[d].generation) then 1 else 0)
    ensures Restarts(w.frames, d, w.conns[d].generation)
      == Restarts(Pop(w).frames, d, w.conns[d].generation) + (if IsRestart(Top(w), d, w.conns[d].generation) then 1 else 0)
  {
    assert CallsOk(d, w.conns[d], w.frames);
  }

  lemma SamePlaces(conns: map<nat, Conn>, log: Log, c: nat, k: Conn)
    requires LogOk(log) && PlacesOk(conns, log) && ConnsOk(conns, log) && c in conns
    requires k.high == conns[c].high && k.low == conns[c].low && k.active == conns[c].active && k.gets == conns[c].gets
    requires k.replayed == conns[c].replayed && k.generation == conns[c].generation
    ensures PlacesOk(conns[c := k], log) && ConnsOk(conns[c := k], log)
  {
    var conns' := conns[c := k];
    forall x: nat | x < |log.place| ensures PlaceOk(x, conns', log) {
      assert PlaceOk(x, conns, log);
    }
    forall d | d in conns ensures ConnOk(d, conns[c := k][d], log) {
      assert ConnOk(d, conns[d], log);
    }
  }

  lemma ReturnedCalls(w: World, v: World)
    requires Safe(w) && w.frames != [] && Top(w).Handler? && v == Returned(w)
    ensures AllCallsOk(v.conns, v.frames)
  {
    forall d | d in v.conns ensures CallsOk(d, v.conns[d], v.frames) {
      PopCalls(w, d);
      assert CallsOk(d, w.conns[d], w.frames);
    }
  }

  /** Popping a frame keeps what is known of the others. */
  lemma PoppedRest(w: World, v: World)
    requires Registered(w) && FramesOrdered(w.frames) && w.frames != []
    requires v.frames == Pop(w).frames && v.registry == w.registry && v.conns.Keys == w.conns.Keys && v.log == w.log
    ensures Registered(v) && FramesOrdered(v.frames)
  {
    assert forall i :: 0 <= i < |v.frames| ==> v.frames[i] == w.frames[i];
  }

  lemma ReturnedSafe(w: World, v: World)
    requires Safe(w) && w.frames != [] && Top(w).Handler? && v == Returned(w)
    ensures Safe(v)
  {
    PoppedRest(w, v);
    if Current(w, Top(w).conn, Top(w).generation) {
      SamePlaces(w.conns, w.log, Top(w).conn, v.conns[Top(w).conn]);
    }
    ReturnedCalls(w, v);
  }

  lemma DealtCalls(w: World, i: nat, p: nat, v: World)
    requires Safe(w) && i < |w.frames| && w.frames[i].Restart? && p in w.log.finished && v == Dealt(w, i, p)
    ensures AllCallsOk(v.conns, v.frames)
  {
    forall d | d in v.conns ensures CallsOk(d, v.conns[d], v.frames) {
      assert CallsOk(d, w.conns[d], w.frames);
      NotHeld(w, p, d);
      SameCount(w.frames, i, w.frames[i].remaining - {p}, d, w.conns[d].generation);
    }
  }

  lemma DealtFrames(w: World, i: nat, p: nat, v: World)
    requires Registered(w) && FramesOrdered(w.frames) && i < |w.frames| && w.frames[i].Restart? && v == Dealt(w, i, p)
    ensures Registered(v) && FramesOrdered(v.frames)
  {
    assert forall j :: 0 <= j < |w.frames| ==>
      v.frames[j].conn == w.frames[j].conn && v.frames[j].generation == w.frames[j].generation;
  }

  lemma DealtSafe(w: World, i: nat, p: nat, v: World)
    requires Safe(w) && i < |w.frames| && w.frames[i].Restart? && p in w.log.finished && v == Dealt(w, i, p)
    ensures Safe(v)
  {
    DealtFrames(w, i, p, v);
    DealtCalls(w, i, p, v);
  }

  /** When a restart ends under its own generation, no reply of the old network manager is held any more. */
  lemma RestartedSafe(w: World, v: World)
    requires Safe(w) && w.frames != [] && Top(w).Restart? && Top(w).remaining == {} && v == Restarted(w)
    ensures Safe(v)
    ensures Current(w, Top(w).conn, Top(w).generation) ==> w.conns[Top(w).conn].active == {}
  {
    var c := Top(w).conn;
    PoppedRest(w, v);
    if c in w.conns {
      SamePlaces(w.conns, w.log, c, v.conns[c]);
      EndOfRestart(w, c);
    }
    RestartedCalls(w, v);
  }

  lemma EndOfRestart(w: World, c: nat)
    requires Safe(w) && w.frames != [] && Top(w).Restart? && Top(w).remaining == {} && c == Top(w).conn && c in w.conns
    ensures Current(w, c, Top(w).generation) ==> w.conns[c].active == {} && w.conns[c].replayed == {}
    ensures !Current(w, c, Top(w).generation) ==> !w.conns[c].restarting
  {
    assert ConnOk(c, w.conns[c], w.log) && CallsOk(c, w.conns[c], w.frames);
    if Current(w, c, Top(w).generation) {
      assert w.conns[c].active <= {};
    } else {
      NoCalls(w.frames, c, w.conns[c].generation);
    }
  }

  lemma RestartedCalls(w: World, v: World)
    requires Safe(w) && w.frames != [] && Top(w).Restart? && Top(w).remaining == {} && v == Restarted(w)
    ensures AllCallsOk(v.conns, v.frames)
  {
    if Top(w).conn in w.conns {
      EndOfRestart(w, Top(w).conn);
    }
    forall d | d in v.conns ensures CallsOk(d, v.conns[d], v.frames) {
      PopCalls(w, d);
      assert CallsOk(d, w.conns[d], w.frames);
    }
  }

  // ---------------------------------------------------------------- one step

  ghost function Drained(w: World): World {
    if Known(w) then Drain(w) else w
  }

  lemma DrainedSafe(w: World)
    requires Safe(w)
    ensures Safe(Drained(w))
  {
    if Known(w) {
      DrainSafe(w);
    }
  }

  ghost function Next(w: World, a: Action): World
    requires Safe(w) && Enabled(w, a)
  {
    match a
    case Create(i) => Created(w, i)
    case Enqueue(c, kind, low) => Drained(Push(w, c, kind, low))
    case Reset(c) => Drained(Cleared(w, c))
    case Destroy(c) => Drained(Destroyed(w, c))
    case RestartCall(c, order) => RestartedBy(w, c, order)
    case Finish(p) => if FinishDrains(w, p) then Drained(Finished(w, p)) else Finished(w, p)
    case Return =>
      if Idle(w, Top(w).conn) && Current(w, Top(w).conn, Top(w).generation) then Drained(Returned(w)) else Returned(w)
    case Abort(p) => Aborted(w, p)
    case RestartEnd => if Current(w, Top(w).conn, Top(w).generation) then Drained(Restarted(w)) else Restarted(w)
  }

  ghost function RestartedBy(w: World, c: nat, order: seq<nat>): World
    requires Safe(w) && Enabled(w, RestartCall(c, order))
  {
    if w.conns[c].restarting then w else ReplayAll(Restarting(w, c), c, order)
  }

  /** The restart in progress aborts one reply; a reply that has not finished yet finishes now. */
  ghost function Aborted(w: World, p: nat): World
    requires Safe(w) && Enabled(w, Abort(p))
  {
    Dealt(if p in w.log.finished then w else Finished(w, p), |w.frames| - 1, p)
  }

  lemma NextSafe(w: World, a: Action)
    requires Safe(w) && Enabled(w, a)
    ensures Safe(Next(w, a))
  {
    match a
    case Create(i) => CreatedSafe(w, i, Created(w, i));
    case Enqueue(c, kind, low) =>
      PushSafe(w, c, kind, low, Push(w, c, kind, low));
      DrainedSafe(Push(w, c, kind, low));
    case Reset(c) =>
      ClearedSafe(w, c, Cleared(w, c));
      DrainedSafe(Cleared(w, c));
    case Destroy(c) =>
      DestroyedSafe(w, c, Destroyed(w, c));
      DrainedSafe(Destroyed(w, c));
    case RestartCall(c, order) => RestartCallSafe(w, c, order);
    case Finish(p) => FinishedSafe(w, p, Finished(w, p));
    case Return =>
      ReturnedSafe(w, Returned(w));
      DrainedSafe(Returned(w));
    case Abort(p) =>
      if p !in w.log.finished {
        FinishedSafe(w, p, Finished(w, p));
      }
      AbortedFrame(w, p);
      DealtSafe(if p in w.log.finished then w else Finished(w, p), |w.frames| - 1, p, Aborted(w, p));
    case RestartEnd =>
      RestartedSafe(w, Restarted(w));
      DrainedSafe(Restarted(w));
  }

  lemma AbortedFrame(w: World, p: nat)
    requires Safe(w) && Enabled(w, Abort(p))
    ensures var v := if p in w.log.finished then w else Finished(w, p);
      |w.frames| <= |v.frames| && v.frames[|w.frames| - 1] == Top(w)
  {
  }

  lemma RestartCallSafe(w: World, c: nat, order: seq<nat>)
    requires Safe(w) && Enabled(w, RestartCall(c, order))
    ensures Safe(RestartedBy(w, c, order))
  {
    if !w.conns[c].restarting {
      RestartOrder(w, c, order);
      RestartingSafe(w, c, Restarting(w, c));
      ReplayAllSafe(Restarting(w, c), c, order, RestartedBy(w, c, order));
    }
  }

  lemma RestartOrder(w: World, c: nat, order: seq<nat>)
    requires Safe(w) && Enabled(w, RestartCall(c, order)) && !w.conns[c].restarting
    ensures Distinct(order)
    ensures forall p :: p in order ==>
      p in w.conns[c].gets && p !in w.conns[c].replayed && w.conns[c].gets[p].id < |w.log.place|
  {
    assert ConnOk(c, w.conns[c], w.log) && CallsOk(c, w.conns[c], w.frames);
  }
}
