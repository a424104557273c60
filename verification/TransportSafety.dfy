/** What every step of the transport keeps: each request is in one place, each reply and each call is accounted for. */
module TransportSafety {
  import opened Prelude
  import opened TransportModel

  // ---------------------------------------------------------------- the invariant

  /** A queued request is registered, and its place is this queue. */
  predicate QueuedHere(x: Request, c: nat, log: Log) {
    x.id < |log.requests| && x.id < |log.place| && log.requests[x.id] == x && log.place[x.id] == Queued(c)
  }

  ghost predicate QueueOk(c: nat, q: seq<Request>, low: bool, log: Log) {
    Distinct(q) && forall x :: x in q ==> x.low == low && QueuedHere(x, c, log)
  }

  /** The replies a connector holds are exactly its unfinished ones of the current generation. */
  ghost predicate RepliesOk(c: nat, k: Conn, log: Log) {
    && (forall p: nat :: p in k.active <==>
          p < |log.wire| && p !in log.finished && log.wire[p].conn == c && log.wire[p].generation == k.generation)
    && (forall p: nat :: p < |log.wire| && log.wire[p].conn == c ==> log.wire[p].generation <= k.generation)
    && (forall p: nat :: p in k.gets <==> p in k.active && log.wire[p].request.kind == Get)
    && (forall p: nat :: p in k.gets ==> k.gets[p] == log.wire[p].request)
  }

  ghost predicate PlacedReplies(k: Conn, log: Log) {
    && k.replayed <= k.gets.Keys
    && forall p: nat :: p in k.active && p !in k.replayed ==>
         p < |log.wire| && log.wire[p].request.id < |log.place| && log.place[log.wire[p].request.id] == Active(p)
  }

  ghost predicate ConnOk(c: nat, k: Conn, log: Log) {
    QueueOk(c, k.high, false, log) && QueueOk(c, k.low, true, log) && RepliesOk(c, k, log) && PlacedReplies(k, log)
  }

  /** Whatever the history says about a request's place is really so. */
  ghost predicate PlaceOk(r: nat, conns: map<nat, Conn>, log: Log)
    requires r < |log.place| && r < |log.requests|
  {
    match log.place[r]
    case Queued(c) => c in conns && log.requests[r] in Queue(conns[c], log.requests[r].low)
    case Active(p) =>
      && p < |log.wire| && log.wire[p].request == log.requests[r] && log.wire[p].conn in conns
      && p in conns[log.wire[p].conn].active && p !in conns[log.wire[p].conn].replayed
    case Delivered => r in log.delivered
    case Discarded => true
  }

  /** The history is consistent: a write that was sent is never queued again, and goes out once only. */
  ghost predicate LogOk(log: Log) {
    && |log.place| == |log.requests|
    && (forall i :: 0 <= i < |log.requests| ==> log.requests[i].id == i)
    && (forall p: nat :: p < |log.wire| ==>
          log.wire[p].request.id < |log.requests| && log.requests[log.wire[p].request.id] == log.wire[p].request
          && log.wire[p].conn < log.born)
    && (forall p: nat :: p in log.finished ==> p < |log.wire|)
  }

  ghost predicate WritesOnce(log: Log) {
    && (forall p: nat, q: nat :: p < q < |log.wire| && log.wire[p].request == log.wire[q].request ==>
          log.wire[p].request.kind == Get)
    && (forall p: nat :: p < |log.wire| && log.wire[p].request.kind != Get
                          && log.wire[p].request.id < |log.place| ==>
          !log.place[log.wire[p].request.id].Queued?)
  }

  ghost predicate DeliveredOk(log: Log) {
    Distinct(log.delivered)
    && forall r :: r in log.delivered ==> r < |log.place| && log.place[r] == Delivered
  }

  /** How many handlers of this connector and generation have not returned. */
  function Handlers(frames: seq<Frame>, c: nat, g: nat): nat {
    if frames == [] then 0
    else Handlers(frames[..|frames| - 1], c, g) + (if frames[|frames| - 1] == Handler(c, g) then 1 else 0)
  }

  predicate IsRestart(f: Frame, c: nat, g: nat) {
    f.Restart? && f.conn == c && f.generation == g
  }

  /** How many restarts of this connector and generation are in progress. */
  function Restarts(frames: seq<Frame>, c: nat, g: nat): nat {
    if frames == [] then 0
    else Restarts(frames[..|frames| - 1], c, g) + (if IsRestart(frames[|frames| - 1], c, g) then 1 else 0)
  }

  ghost predicate Covers(frames: seq<Frame>, c: nat, k: Conn) {
    forall i :: 0 <= i < |frames| && IsRestart(frames[i], c, k.generation) ==> k.active <= frames[i].remaining
  }

  /** A call in progress belongs to a generation that was current when it began. */
  ghost predicate FramesOrdered(frames: seq<Frame>) {
    forall i, j :: 0 <= i < j < |frames| && frames[i].conn == frames[j].conn ==>
      frames[i].generation <= frames[j].generation
  }

  ghost predicate FramesPast(frames: seq<Frame>, c: nat, g: nat) {
    forall i :: 0 <= i < |frames| && frames[i].conn == c ==> frames[i].generation <= g
  }

  /**
   * The counter of requests equals the replies held plus the handlers still running; a connector restarts exactly
   * while one restart of its current generation is in progress, which still has every held reply to abort.
   */
  ghost predicate CallsOk(c: nat, k: Conn, frames: seq<Frame>) {
    && k.count == |k.active| + Handlers(frames, c, k.generation)
    && Restarts(frames, c, k.generation) == (if k.restarting then 1 else 0)
    && Covers(frames, c, k) && FramesPast(frames, c, k.generation)
    && (!k.restarting ==> k.replayed == {})
  }

  ghost predicate Registered(w: World) {
    && Distinct(w.registry)
    && (forall c :: c in w.registry <==> c in w.conns)
    && (forall c :: c in w.conns ==> c < w.log.born)
    && (forall i :: 0 <= i < |w.frames| ==> w.frames[i].conn < w.log.born)
  }

  ghost predicate ConnsOk(conns: map<nat, Conn>, log: Log) {
    forall c :: c in conns ==> ConnOk(c, conns[c], log)
  }

  ghost predicate PlacesOk(conns: map<nat, Conn>, log: Log)
    requires |log.place| == |log.requests|
  {
    forall r: nat :: r < |log.place| ==> PlaceOk(r, conns, log)
  }

  ghost predicate AllCallsOk(conns: map<nat, Conn>, frames: seq<Frame>) {
    forall c :: c in conns ==> CallsOk(c, conns[c], frames)
  }

  ghost predicate Safe(w: World) {
    && LogOk(w.log) && WritesOnce(w.log) && DeliveredOk(w.log)
    && Registered(w) && ConnsOk(w.conns, w.log) && PlacesOk(w.conns, w.log)
    && AllCallsOk(w.conns, w.frames) && FramesOrdered(w.frames)
  }

  lemma SafeKnown(w: World)
    requires Safe(w)
    ensures Known(w)
  {
    forall c, low, x | c in w.conns && x in Queue(w.conns[c], low) ensures x.id < |w.log.place| {
      assert ConnOk(c, w.conns[c], w.log);
    }
  }

  // ---------------------------------------------------------------- sending

  lemma SendLogOk(log: Log, c: nat, r: Request, g: nat)
    requires LogOk(log) && QueuedHere(r, c, log) && c < log.born
    ensures LogOk(SendLog(log, c, r, g))
    ensures WritesOnce(log) ==> WritesOnce(SendLog(log, c, r, g))
    ensures DeliveredOk(log) ==> DeliveredOk(SendLog(log, c, r, g))
  {
  }

  lemma SendQueue(log: Log, c: nat, r: Request, g: nat, d: nat, q: seq<Request>, low: bool)
    requires LogOk(log) && QueuedHere(r, c, log) && QueueOk(d, q, low, log) && r !in q
    ensures QueueOk(d, q, low, SendLog(log, c, r, g))
  {
    forall x | x in q ensures QueuedHere(x, d, SendLog(log, c, r, g)) {
      assert x.id != r.id;
    }
  }

  lemma SendReplies(log: Log, c: nat, r: Request, g: nat, d: nat, k: Conn)
    requires RepliesOk(d, k, log) && r.id < |log.place| && c != d
    ensures RepliesOk(d, k, SendLog(log, c, r, g))
  {
    var log' := SendLog(log, c, r, g);
    assert forall p: nat :: p < |log.wire| ==> log'.wire[p] == log.wire[p];
    assert log'.wire[|log.wire|].conn == c;
  }

  lemma SendPlaced(log: Log, c: nat, r: Request, g: nat, k: Conn)
    requires PlacedReplies(k, log) && QueuedHere(r, c, log)
    ensures PlacedReplies(k, SendLog(log, c, r, g))
  {
    var log' := SendLog(log, c, r, g);
    assert forall p: nat :: p < |log.wire| ==> log'.wire[p] == log.wire[p];
  }

  /** The rest of a queue whose first request was sent, and the queue of the other priority. */
  lemma SendRest(log: Log, c: nat, k: Conn, low: bool, g: nat)
    requires LogOk(log) && QueueOk(c, k.high, false, log) && QueueOk(c, k.low, true, log) && Queue(k, low) != []
    ensures QueuedHere(Queue(k, low)[0], c, log)
    ensures QueueOk(c, Queue(k, low)[1..], low, SendLog(log, c, Queue(k, low)[0], g))
    ensures QueueOk(c, Queue(k, !low), !low, SendLog(log, c, Queue(k, low)[0], g))
  {
    var q := Queue(k, low);
    assert QueuedHere(q[0], c, log) && q[0].low == low;
    assert forall i :: 0 <= i < |q| - 1 ==> q[1..][i] == q[i + 1];
    assert forall x :: x in q[1..] ==> x in q;
    assert QueueOk(c, q[1..], low, log) && q[0] !in q[1..];
    SendQueue(log, c, q[0], g, c, q[1..], low);
    SendQueue(log, c, q[0], g, c, Queue(k, !low), !low);
  }

  lemma SendHere(log: Log, c: nat, k: Conn, r: Request, k': Conn)
    requires LogOk(log) && RepliesOk(c, k, log) && PlacedReplies(k, log) && QueuedHere(r, c, log)
    requires k'.active == k.active + {|log.wire|} && k'.generation == k.generation && k'.replayed == k.replayed
    requires k'.gets == if r.kind == Get then k.gets[|log.wire| := r] else k.gets
    ensures RepliesOk(c, k', SendLog(log, c, r, k.generation)) && PlacedReplies(k', SendLog(log, c, r, k.generation))
  {
    var log' := SendLog(log, c, r, k.generation);
    SendPlaced(log, c, r, k.generation, k);
    assert forall p: nat :: p < |log.wire| ==> log'.wire[p] == log.wire[p];
    assert log'.wire[|log.wire|] == Sent(c, r, k.generation);
  }

  /** The connector that sends: one request less in the queue, one reply more. */
  lemma BeginHere(log: Log, c: nat, k: Conn, low: bool)
    requires LogOk(log) && ConnOk(c, k, log) && Queue(k, low) != [] && Queue(k, low)[0].id < |log.place|
    ensures ConnOk(c, SendConn(k, low, |log.wire|), SendLog(log, c, Queue(k, low)[0], k.generation))
  {
    SendRest(log, c, k, low, k.generation);
    SendHere(log, c, k, Queue(k, low)[0], SendConn(k, low, |log.wire|));
  }

  lemma BeginElsewhere(log: Log, c: nat, r: Request, g: nat, d: nat, k: Conn)
    requires LogOk(log) && ConnOk(d, k, log) && QueuedHere(r, c, log) && c != d
    ensures ConnOk(d, k, SendLog(log, c, r, g))
  {
    assert r !in k.high && r !in k.low by {
      assert forall x :: x in k.high || x in k.low ==> QueuedHere(x, d, log);
    }
    SendQueue(log, c, r, g, d, k.high, false);
    SendQueue(log, c, r, g, d, k.low, true);
    SendReplies(log, c, r, g, d, k);
    SendPlaced(log, c, r, g, k);
  }

  lemma BeginPlaces(w: World, c: nat, low: bool, v: World)
    requires LogOk(w.log) && ConnsOk(w.conns, w.log) && PlacesOk(w.conns, w.log)
    requires c in w.conns && Queue(w.conns[c], low) != [] && QueuedHere(Queue(w.conns[c], low)[0], c, w.log)
    requires v == Begin(w, c, low) && LogOk(v.log)
    ensures PlacesOk(v.conns, v.log)
  {
    var k := w.conns[c];
    var r := Queue(k, low)[0];
    assert Queue(k, low) == [r] + Queue(k, low)[1..];
    assert |w.log.wire| !in k.replayed by {
      assert ConnOk(c, k, w.log);
      assert |w.log.wire| !in k.gets;
    }
    forall x: nat | x < |v.log.place| ensures PlaceOk(x, v.conns, v.log) {
      assert PlaceOk(x, w.conns, w.log);
      if x == r.id {
        assert v.log.place[x] == Active(|w.log.wire|);
      }
    }
  }

  lemma BeginCalls(w: World, c: nat, low: bool, v: World)
    requires Safe(w) && c in w.conns && Queue(w.conns[c], low) != [] && !w.conns[c].restarting
    requires QueuedHere(Queue(w.conns[c], low)[0], c, w.log)
    requires v == Begin(w, c, low)
    ensures AllCallsOk(v.conns, v.frames)
  {
    var k := w.conns[c];
    assert CallsOk(c, k, w.frames) && ConnOk(c, k, w.log);
    assert |w.log.wire| !in k.active;
    NoRestart(w.frames, c, k.generation);
    forall d | d in v.conns ensures CallsOk(d, v.conns[d], v.frames) {
      assert CallsOk(d, w.conns[d], w.frames);
    }
  }

  lemma {:induction false} NoRestart(frames: seq<Frame>, c: nat, g: nat)
    ensures Restarts(frames, c, g) == 0 <==> forall i :: 0 <= i < |frames| ==> !IsRestart(frames[i], c, g)
  {
    if frames != [] {
      NoRestart(frames[..|frames| - 1], c, g);
    }
  }

  lemma BeginSafe(w: World, c: nat, low: bool, v: World)
    requires Safe(w) && c in w.conns && Ready(w.conns[c], low)
    requires Queue(w.conns[c], low)[0].id < |w.log.place| && v == Begin(w, c, low)
    ensures Safe(v)
  {
    var (k, r) := (w.conns[c], Queue(w.conns[c], low)[0]);
    assert ConnOk(c, k, w.log);
    SendRest(w.log, c, k, low, k.generation);
    SendLogOk(w.log, c, r, k.generation);
    BeginHere(w.log, c, k, low);
    forall d | d in v.conns ensures ConnOk(d, v.conns[d], v.log) {
      if d != c {
        assert ConnOk(d, w.conns[d], w.log);
        BeginElsewhere(w.log, c, r, k.generation, d, w.conns[d]);
      }
    }
    BeginPlaces(w, c, low, v);
    BeginCalls(w, c, low, v);
  }

  lemma {:induction false} DrainSafe(w: World)
    requires Safe(w) && Known(w)
    ensures Safe(Drain(w))
    decreases Waiting(w.registry, w.conns)
  {
    match Pick(w.registry, w.conns, false)
    case Some(c) =>
      BeginLess(w, c, false);
      BeginKnown(w, c, false);
      BeginSafe(w, c, false, Begin(w, c, false));
      DrainSafe(Begin(w, c, false));
    case None =>
      match Pick(w.registry, w.conns, true)
      case Some(c) =>
        BeginLess(w, c, true);
        BeginKnown(w, c, true);
        BeginSafe(w, c, true, Begin(w, c, true));
        DrainSafe(Begin(w, c, true));
      case None =>
  }
}
