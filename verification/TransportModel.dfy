/** The HTTP transport: many connectors, prioritised queues, replay of GETs across a restart, generation-fenced reset. */
module TransportModel {
  import opened Prelude

  datatype Method = Get | Post | Put | Delete

  /** A logical request; `id` is history: its position among everything ever enqueued. */
  datatype Request = Request(id: nat, kind: Method, low: bool)

  /** One connector. Replies are named by their position on the wire. */
  datatype Conn = Conn(high: seq<Request>, low: seq<Request>, active: set<nat>, gets: map<nat, Request>,
                       replayed: set<nat>, count: nat, generation: nat, restarting: bool)

  /** Calls in progress: a response handler that has not returned, a restart with replies left to abort. */
  datatype Frame = Handler(conn: nat, generation: nat) | Restart(conn: nat, generation: nat, remaining: set<nat>)

  datatype Sent = Sent(conn: nat, request: Request, generation: nat)

  datatype Place = Queued(conn: nat) | Active(reply: nat) | Delivered | Discarded

  /** History: what was asked for, where each request is, what went on the wire and whose handler was called. */
  datatype Log = Log(born: nat, requests: seq<Request>, place: seq<Place>, wire: seq<Sent>, finished: set<nat>,
                     delivered: seq<nat>)

  /** `registry` is the set of connectors in the order in which it happens to be searched. */
  datatype World = World(registry: seq<nat>, conns: map<nat, Conn>, frames: seq<Frame>, log: Log)

  const FRESH := Conn([], [], {}, map[], {}, 0, 0, false)

  function SetConn(w: World, c: nat, k: Conn): World {
    w.(conns := w.conns[c := k])
  }

  function Queue(k: Conn, low: bool): seq<Request> {
    if low then k.low else k.high
  }

  function SetQueue(k: Conn, low: bool, q: seq<Request>): Conn {
    if low then k.(low := q) else k.(high := q)
  }

  function Less(n: nat): nat {
    if n > 0 then n - 1 else 0
  }

  // ---------------------------------------------------------------- the queues

  predicate Ready(k: Conn, low: bool) {
    !k.restarting && Queue(k, low) != []
  }

  /** The first connector, in search order, that may send something of this priority. */
  function Pick(registry: seq<nat>, conns: map<nat, Conn>, low: bool): (r: Option<nat>)
    ensures r.Some? ==> r.value in registry && r.value in conns && Ready(conns[r.value], low)
    ensures r.None? ==> forall c :: c in registry && c in conns ==> !Ready(conns[c], low)
  {
    if registry == [] then None
    else if registry[0] in conns && Ready(conns[registry[0]], low) then Some(registry[0])
    else Pick(registry[1..], conns, low)
  }

  function SendLog(log: Log, c: nat, r: Request, generation: nat): Log
    requires r.id < |log.place|
  {
    log.(wire := log.wire + [Sent(c, r, generation)], place := log.place[r.id := Active(|log.wire|)])
  }

  /** The connector after its first request of a queue became reply p. */
  function SendConn(k: Conn, low: bool, p: nat): Conn
    requires Queue(k, low) != []
  {
    var r := Queue(k, low)[0];
    SetQueue(k, low, Queue(k, low)[1..]).(
      count := k.count + 1, active := k.active + {p}, gets := if r.kind == Get then k.gets[p := r] else k.gets)
  }

  /** Put the first request of a queue on the wire. */
  function Begin(w: World, c: nat, low: bool): World
    requires c in w.conns && Queue(w.conns[c], low) != []
    requires Queue(w.conns[c], low)[0].id < |w.log.place|
  {
    SetConn(w, c, SendConn(w.conns[c], low, |w.log.wire|)).(
      log := SendLog(w.log, c, Queue(w.conns[c], low)[0], w.conns[c].generation))
  }

  /** How many requests are waiting in queues that may send. */
  function Waiting(registry: seq<nat>, conns: map<nat, Conn>): nat {
    if registry == [] then 0
    else Waiting(registry[1..], conns) + Backlog(conns, registry[0])
  }

  function Backlog(conns: map<nat, Conn>, c: nat): nat {
    if c in conns && !conns[c].restarting then |conns[c].high| + |conns[c].low| else 0
  }

  lemma {:induction false} WaitingLess(registry: seq<nat>, conns: map<nat, Conn>, c: nat, k: Conn)
    requires c in conns && Backlog(conns[c := k], c) < Backlog(conns, c)
    ensures Waiting(registry, conns[c := k]) <= Waiting(registry, conns)
    ensures c in registry ==> Waiting(registry, conns[c := k]) < Waiting(registry, conns)
  {
    if registry != [] {
      WaitingLess(registry[1..], conns, c, k);
      assert registry[0] != c ==> Backlog(conns[c := k], registry[0]) == Backlog(conns, registry[0]);
    }
  }

  /** Queued requests are known by their identifier. */
  ghost predicate Known(w: World) {
    forall c, low, x :: c in w.conns && x in Queue(w.conns[c], low) ==> x.id < |w.log.place|
  }

  lemma BeginKnown(w: World, c: nat, low: bool)
    requires Known(w) && c in w.conns && Queue(w.conns[c], low) != []
    ensures Known(Begin(w, c, low))
  {
    var v := Begin(w, c, low);
    forall d, l, x | d in v.conns && x in Queue(v.conns[d], l) ensures x.id < |v.log.place| {
      assert x in Queue(w.conns[d], l);
    }
  }

  /** Send whatever may be sent: while anything of high priority waits anywhere, nothing of low priority starts. */
  ghost function Drain(w: World): World
    requires Known(w)
    decreases Waiting(w.registry, w.conns)
  {
    match Pick(w.registry, w.conns, false)
    case Some(c) => (BeginLess(w, c, false); BeginKnown(w, c, false); Drain(Begin(w, c, false)))
    case None =>
      match Pick(w.registry, w.conns, true)
      case Some(c) => (BeginLess(w, c, true); BeginKnown(w, c, true); Drain(Begin(w, c, true)))
      case None => w
  }

  lemma BeginLess(w: World, c: nat, low: bool)
    requires Known(w) && c in w.conns && c in w.registry && Ready(w.conns[c], low)
    ensures Waiting(w.registry, Begin(w, c, low).conns) < Waiting(w.registry, w.conns)
  {
    WaitingLess(w.registry, w.conns, c, Begin(w, c, low).conns[c]);
  }

  // ---------------------------------------------------------------- calls and events

  function Push(w: World, c: nat, kind: Method, low: bool): World
    requires c in w.conns
  {
    var r := Request(|w.log.requests|, kind, low);
    var k := w.conns[c];
    SetConn(w, c, SetQueue(k, low, Queue(k, low) + [r])).(
      log := w.log.(requests := w.log.requests + [r], place := w.log.place + [Queued(c)]))
  }

  /** Everything of a connector that is queued or outstanding is given up. */
  function Drop(log: Log, c: nat): (r: Log)
    ensures |r.place| == |log.place| && r == log.(place := r.place)
    ensures forall i :: 0 <= i < |log.place| ==>
      r.place[i] == if Belongs(log, log.place[i], c) then Discarded else log.place[i]
  {
    log.(place := seq(|log.place|, i requires 0 <= i < |log.place| =>
      if Belongs(log, log.place[i], c) then Discarded else log.place[i]))
  }

  predicate Belongs(log: Log, p: Place, c: nat) {
    match p
    case Queued(d) => d == c
    case Active(reply) => reply < |log.wire| && log.wire[reply].conn == c
    case _ => false
  }

  function Cleared(w: World, c: nat): World
    requires c in w.conns
  {
    SetConn(w, c, FRESH.(generation := w.conns[c].generation + 1)).(log := Drop(w.log, c))
  }

  function Destroyed(w: World, c: nat): World {
    w.(conns := w.conns - {c}, registry := Without(w.registry, c), log := Drop(w.log, c))
  }

  /** A GET whose reply is about to be aborted goes back to the front of its queue. */
  function Replay(w: World, c: nat, p: nat): World
    requires c in w.conns && p in w.conns[c].gets && w.conns[c].gets[p].id < |w.log.place|
  {
    var k := w.conns[c];
    var r := k.gets[p];
    SetConn(w, c, SetQueue(k, r.low, [r] + Queue(k, r.low)).(replayed := k.replayed + {p})).(
      log := w.log.(place := w.log.place[r.id := Queued(c)]))
  }

  /** What a reply that finishes leaves of its connector. */
  function Released(k: Conn, p: nat): Conn {
    k.(replayed := k.replayed - {p}, active := k.active - {p}, gets := k.gets - {p})
  }

  function Counted(w: World, c: nat): World
    requires c in w.conns
  {
    SetConn(w, c, w.conns[c].(count := Less(w.conns[c].count)))
  }

  predicate Current(w: World, c: nat, generation: nat) {
    c in w.conns && w.conns[c].generation == generation
  }

  function Ended(w: World, p: nat): World {
    w.(log := w.log.(finished := w.log.finished + {p}))
  }

  /** The reply's handler is called: from here on user code runs until it returns. */
  function Delivering(w: World, c: nat, p: nat): World
    requires p < |w.log.wire| && c in w.conns && w.log.wire[p].request.id < |w.log.place|
  {
    var s := w.log.wire[p];
    SetConn(w, c, Released(w.conns[c], p)).(
      frames := w.frames + [Handler(c, s.generation)],
      log := w.log.(finished := w.log.finished + {p}, delivered := w.log.delivered + [s.request.id],
                    place := w.log.place[s.request.id := Delivered]))
  }

  /** A replayed reply finishes without its handler. */
  function Suppressing(w: World, c: nat, p: nat): World
    requires c in w.conns
  {
    SetConn(Ended(w, p), c, Released(w.conns[c], p).(count := Less(w.conns[c].count)))
  }

  predicate Idle(w: World, c: nat) {
    c in w.conns && !w.conns[c].restarting
  }

  ghost predicate FinishDrains(w: World, p: nat)
    requires p < |w.log.wire|
  {
    var c := w.log.wire[p].conn;
    Current(w, c, w.log.wire[p].generation) && p in w.conns[c].replayed && Idle(w, c)
  }

  /** A reply finishes; whether the queues are then processed is FinishDrains. */
  function Finished(w: World, p: nat): World
    requires p < |w.log.wire| && w.log.wire[p].request.id < |w.log.place|
  {
    var c := w.log.wire[p].conn;
    if !Current(w, c, w.log.wire[p].generation) then Ended(w, p)
    else if p in w.conns[c].replayed then Suppressing(w, c, p)
    else Delivering(w, c, p)
  }

  predicate Running(w: World) {
    w.frames == [] || w.frames[|w.frames| - 1].Handler?
  }

  function Top(w: World): Frame
    requires w.frames != []
  {
    w.frames[|w.frames| - 1]
  }

  function Pop(w: World): World
    requires w.frames != []
  {
    w.(frames := w.frames[..|w.frames| - 1])
  }

  /** A handler returned: its request no longer counts, unless the connector was reset meanwhile. */
  function Returned(w: World): World
    requires w.frames != [] && Top(w).Handler?
  {
    if Current(w, Top(w).conn, Top(w).generation) then Counted(Pop(w), Top(w).conn) else Pop(w)
  }

  function ReplayAll(w: World, c: nat, order: seq<nat>): World
    decreases |order|
  {
    if order == [] || c !in w.conns || order[0] !in w.conns[c].gets || w.conns[c].gets[order[0]].id >= |w.log.place| then w
    else ReplayAll(Replay(w, c, order[0]), c, order[1..])
  }

  function Restarting(w: World, c: nat): World
    requires c in w.conns
  {
    var k := w.conns[c];
    SetConn(w, c, k.(restarting := true)).(frames := w.frames + [Restart(c, k.generation, k.active)])
  }

  /** The restart in progress has dealt with one more reply. */
  function Dealt(w: World, i: nat, p: nat): World
    requires i < |w.frames| && w.frames[i].Restart?
  {
    w.(frames := w.frames[i := w.frames[i].(remaining := w.frames[i].remaining - {p})])
  }

  function Restarted(w: World): World
    requires w.frames != [] && Top(w).Restart?
  {
    var c := Top(w).conn;
    if c !in w.conns then Pop(w) else SetConn(Pop(w), c, w.conns[c].(restarting := false))
  }

  // ---------------------------------------------------------------- runs

  datatype Action =
    | Create(position: nat)
    | Enqueue(conn: nat, kind: Method, low: bool)
    | Reset(conn: nat)
    | Destroy(conn: nat)
    | RestartCall(conn: nat, order: seq<nat>)
    | Finish(reply: nat)
    | Return
    | Abort(reply: nat)
    | RestartEnd

  /** Network events and calls of user code reach the connectors only while user code or the event loop runs. */
  ghost predicate Enabled(w: World, a: Action) {
    match a
    case Create(i) => Running(w) && i <= |w.registry|
    case Enqueue(c, _, _) => Running(w) && c in w.conns
    case Reset(c) => Running(w) && c in w.conns
    case Destroy(c) => Running(w) && c in w.conns
    case RestartCall(c, order) =>
      Running(w) && c in w.conns && Distinct(order) && (forall p :: p in order <==> p in w.conns[c].gets)
    case Finish(p) => Running(w) && p < |w.log.wire| && p !in w.log.finished
    case Return => w.frames != [] && Top(w).Handler?
    case Abort(p) => w.frames != [] && Top(w).Restart? && p in Top(w).remaining && p < |w.log.wire|
    case RestartEnd => w.frames != [] && Top(w).Restart? && Top(w).remaining == {}
  }

  function Created(w: World, i: nat): World
    requires i <= |w.registry|
  {
    w.(registry := w.registry[..i] + [w.log.born] + w.registry[i..], conns := w.conns[w.log.born := FRESH],
       log := w.log.(born := w.log.born + 1))
  }
}
