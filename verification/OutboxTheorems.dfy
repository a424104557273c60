/** The outbox over whole runs: FIFO on the wire, one completion per request, no lost wake-up, bounded retries. */
module OutboxTheorems {
  import opened Prelude
  import opened OutboxModel
  import opened OutboxSafety
  import opened OutboxSteps
  import opened OutboxRuns
  import opened OutboxUser

  // ---------------------------------------------------------------- the invariant holds throughout

  lemma DeliverSafe(w: World, e: Event, outcome: Outcome, fileId: Id, r: World)
    requires Safe(w) && e in w.flow.events && Due(e, w.now) && r == Handle(Taken(w, e), e, outcome, fileId)
    ensures Safe(r)
  {
    match e
    case Start(c) => StartSafe(w, c, r);
    case Fire(id, g) => FireSafe(w, id, g, r);
    case RetryDue(id, g, due) => RetryDueSafe(w, id, g, due, r);
    case Deadline(id, x, due) => DeadlineSafe(w, id, x, due, r);
    case Reply(id, g) => ReplySafe(w, id, g, outcome, r);
    case Forget(serverId, due) => QuietSafe(w, e, r);
    case UploadReply(u, g) => UploadReplySafe(w, u, g, fileId, r);
    case SaveAgain(due) => QuietSafe(w, e, r);
  }

  lemma NextSafe(w: World, a: Action, r: World)
    requires Safe(w) && Enabled(w, a) && r == Next(w, a)
    ensures Safe(r)
  {
    match a
    case Submit(d) =>
      if d.id !in w.flow.posts {
        SubmitSafe(w, d, r);
      }
    case UserRetry(id, tail, uuids) =>
      if id in w.flow.posts {
        UserRetrySafe(w, id, tail, uuids, r);
      }
    case Cancel(id) => CancelSafe(w, id, r);
    case ComposerStage(channel, path, u) => StageSafe(w, channel, path, u, r);
    case ComposerRelease(u) => SettingSafe(w, r);
    case Arrive(arrival) => ArriveSafe(w, arrival, r);
    case Tick(ms) => TickSafe(w, r);
    case Disk(writable) => SettingSafe(w, r);
    case Reachable(channels, readable) => SettingSafe(w, r);
    case Deliver(e, outcome, fileId) => DeliverSafe(w, e, outcome, fileId, r);
  }

  lemma InitialSafe(w: World)
    requires Initial(w)
    ensures Safe(w)
  {
  }

  /** Every world of every run is safe, whatever the user, the network, the disk and the timers do. */
  lemma {:induction false} RunSafe(ws: seq<World>, acts: seq<Action>, i: nat)
    requires IsRun(ws, acts) && Safe(ws[0]) && i < |ws|
    ensures Safe(ws[i])
  {
    if i > 0 {
      RunSafe(ws, acts, i - 1);
      NextSafe(ws[i - 1], acts[i - 1], ws[i]);
    }
  }

  // ---------------------------------------------------------------- FIFO

  /**
   * Over every run, two transmissions of one conversation are on the wire in the order in which their posts were
   * enqueued, and each went out with fewer than six earlier attempts, inside its ten minutes, overtaken by fewer
   * than three posts.
   */
  lemma FifoOnTheWire(ws: seq<World>, acts: seq<Action>)
    requires IsRun(ws, acts) && Initial(ws[0])
    ensures
      var wire := ws[|acts|].wire;
      && (forall j, k :: 0 <= j < k < |wire| && wire[j].conversation == wire[k].conversation ==>
            wire[j].ticket <= wire[k].ticket)
      && (forall k :: 0 <= k < |wire| ==> WithinBudget(wire[k]))
  {
    InitialSafe(ws[0]);
    RunSafe(ws, acts, |acts|);
  }

  /** At most one post per conversation is being sent; it is the earliest one still in the outbox, and exactly one
      completion for it is outstanding, carrying its current generation. */
  lemma OneSendingPerConversation(w: World, id: Id)
    requires Safe(w) && id in w.flow.posts && w.flow.posts[id].state == Sending
    ensures forall o :: o in w.flow.posts && w.flow.posts[o].conversation == w.flow.posts[id].conversation && o != id ==>
      w.flow.posts[o].state != Sending && w.flow.posts[o].ticket > w.flow.posts[id].ticket
    ensures w.flow.events[Reply(id, w.flow.posts[id].generation)] == 1
    ensures forall g: nat :: Reply(id, g) in w.flow.events ==> g == w.flow.posts[id].generation
    ensures Head(w.order, w.flow.posts, w.flow.posts[id].conversation) == Some(id)
  {
    assert PostOk(id, w.flow.posts[id], First(w.flow.posts, id), w.flow.events, w.now, NOTHING);
    forall o | o in w.flow.posts && w.flow.posts[o].conversation == w.flow.posts[id].conversation && o != id
      ensures w.flow.posts[o].state != Sending && w.flow.posts[o].ticket > w.flow.posts[id].ticket
    {
      assert PostOk(o, w.flow.posts[o], First(w.flow.posts, o), w.flow.events, w.now, NOTHING);
      assert o in w.order && id in w.order;
    }
    HeadIsFirst(w.order, w.flow.posts, w.flow.posts[id].conversation);
  }

  /** A completion that is outstanding for a post still in the outbox belongs to the request it is waiting for. */
  lemma CompletionsAreCurrent(w: World, id: Id, g: nat)
    requires Safe(w) && Reply(id, g) in w.flow.events && id in w.flow.posts
    ensures w.flow.posts[id].state == Sending && w.flow.posts[id].generation == g
  {
    assert PostOk(id, w.flow.posts[id], First(w.flow.posts, id), w.flow.events, w.now, NOTHING);
  }

  /** A post goes on the wire only as the first of its conversation: everything enqueued earlier has left. */
  lemma TransmissionNeedsHead(w: World, a: Action, r: World)
    requires Safe(w) && Enabled(w, a) && r == Next(w, a) && r.wire != w.wire
    ensures |r.wire| == |w.wire| + 1 && r.wire[..|w.wire|] == w.wire
    ensures
      var t := r.wire[|w.wire|];
      && t.id in w.flow.posts && First(w.flow.posts, t.id) && t.ticket == w.flow.posts[t.id].ticket
      && t.conversation == w.flow.posts[t.id].conversation && t.message == w.flow.posts[t.id].message
      && t.files == FileIds(w.flow.posts[t.id].attachments)
      && RetryAllowed(w.flow.posts[t.id], w.now) && AttachmentsReady(w.flow.posts[t.id])
      && t.attempt == w.flow.posts[t.id].attempts + 1
  {
    WireGrowth(w, a);
    HeadIsFirst(w.order, w.flow.posts, w.flow.posts[a.event.id].conversation);
    AttemptSends(Taken(w, a.event), a.event.id, r);
  }

  /** An attempt that grows the wire sends the head of its conversation, within every budget. */
  lemma AttemptSends(w: World, id: Id, r: World)
    requires r == Attempt(w, id) && r.wire != w.wire
    ensures id in w.flow.posts && Head(w.order, w.flow.posts, w.flow.posts[id].conversation) == Some(id)
    ensures RetryAllowed(w.flow.posts[id], w.now) && AttachmentsReady(w.flow.posts[id])
    ensures r.wire == w.wire + [Line(id, Sent(w.flow.posts[id]), w.now)]
  {
  }

  lemma HandleWire(w: World, e: Event, outcome: Outcome, fileId: Id)
    ensures Handle(w, e, outcome, fileId).wire != w.wire ==>
      e.Fire? && e.id in w.flow.posts && Handle(w, e, outcome, fileId) == Attempt(w, e.id)
  {
  }

  /** Only a fire event ever puts anything on the wire. */
  lemma WireGrowth(w: World, a: Action)
    requires Enabled(w, a)
    ensures Next(w, a).wire != w.wire ==>
      && a.Deliver? && a.event.Fire? && a.event.id in w.flow.posts
      && Next(w, a) == Attempt(Taken(w, a.event), a.event.id)
  {
    match a
    case Deliver(e, outcome, fileId) => HandleWire(Taken(w, e), e, outcome, fileId);
    case _ =>
  }

  // ---------------------------------------------------------------- no lost wake-up

  /**
   * Every post that is neither failed nor being sent runs under a pending deadline of its own window; every head
   * that is queued, blocked or waiting to retry has something pending that moves it on; and every post being sent
   * has its completion outstanding.
   */
  lemma NoLostWakeUp(w: World, id: Id)
    requires Safe(w) && id in w.flow.posts
    ensures
      var p, events := w.flow.posts[id], w.flow.events;
      && (p.state != Failed && p.state != Sending ==> Deadline(id, p.window, p.window + RETRY_WINDOW) in events)
      && (p.state == Sending ==>
            Reply(id, p.generation) in events
            && (Deadline(id, p.window, p.window + RETRY_WINDOW) in events || w.now >= p.window + RETRY_WINDOW))
      && (p.state == RetryWait ==>
            exists due: nat :: RetryDue(id, p.generation, due) in events && due <= p.window + RETRY_WINDOW)
      && (Head(w.order, w.flow.posts, p.conversation) == Some(id) ==>
            && (p.state == Queued ==> Fire(id, p.generation) in events || Start(p.conversation) in events)
            && (p.state == Blocked ==> Start(p.conversation) in events))
  {
    assert PostOk(id, w.flow.posts[id], First(w.flow.posts, id), w.flow.events, w.now, NOTHING);
    HeadIsFirst(w.order, w.flow.posts, w.flow.posts[id].conversation);
  }

  /** When nothing is pending any more, nothing is still trying: every post left has failed. */
  lemma QuiescentMeansFailed(w: World)
    requires Safe(w)
    requires forall e :: e in w.flow.events ==> e.SaveAgain? || e.Forget? || e.UploadReply?
    ensures forall id :: id in w.flow.posts ==> w.flow.posts[id].state == Failed
  {
    forall id | id in w.flow.posts
      ensures w.flow.posts[id].state == Failed
    {
      NoLostWakeUp(w, id);
    }
  }

  // ---------------------------------------------------------------- the order of starting conversations

  /** What starting a conversation adds to the pending events. */
  function StartTimer(f: Flow, order: seq<Id>, now: nat, c: Conversation): multiset<Event> {
    match Head(order, f.posts, c)
    case None => multiset{}
    case Some(head) => if head !in f.posts then multiset{} else HeadTimer(head, Advanced(f.posts[head], now))
  }

  lemma StartEvents(f: Flow, order: seq<Id>, now: nat, c: Conversation)
    requires Ordered(order, f.posts)
    ensures TryStart(f, order, now, c).events == f.events + StartTimer(f, order, now, c)
  {
    HeadIsFirst(order, f.posts, c);
    match Head(order, f.posts, c)
    case None =>
    case Some(head) => assert BlockLater(f.posts, c, head)[head] == f.posts[head];
  }

  /** What starting conversation c does to one of its posts. */
  function StartedPost(p: Post, id: Id, head: Option<Id>, now: nat): Post {
    if head == Some(id) then Advanced(p, now) else BlockPost(p)
  }

  function StartedMap(posts: map<Id, Post>, c: Conversation, head: Option<Id>, now: nat): (r: map<Id, Post>)
    ensures SameRows(posts, r)
  {
    map id | id in posts :: if posts[id].conversation == c then StartedPost(posts[id], id, head, now) else posts[id]
  }

  lemma StartPosts(f: Flow, order: seq<Id>, now: nat, c: Conversation)
    requires Ordered(order, f.posts)
    ensures TryStart(f, order, now, c).posts == StartedMap(f.posts, c, Head(order, f.posts, c), now)
  {
    HeadIsFirst(order, f.posts, c);
  }

  lemma MapsCommute(posts: map<Id, Post>, c: Conversation, d: Conversation, hc: Option<Id>, hd: Option<Id>, now: nat)
    requires c != d
    ensures StartedMap(StartedMap(posts, c, hc, now), d, hd, now) == StartedMap(StartedMap(posts, d, hd, now), c, hc, now)
  {
    forall id | id in posts
      ensures StartedMap(posts, c, hc, now)[id].conversation == posts[id].conversation
      ensures StartedMap(posts, d, hd, now)[id].conversation == posts[id].conversation
    {
      RowFacts(posts[id], StartedMap(posts, c, hc, now)[id]);
      RowFacts(posts[id], StartedMap(posts, d, hd, now)[id]);
    }
  }

  /** After starting c, starting d finds the head and the post it would have found before. */
  lemma SameStart(f: Flow, order: seq<Id>, now: nat, c: Conversation, d: Conversation, fc: Flow)
    requires Ordered(order, f.posts) && c != d && fc == TryStart(f, order, now, c)
    ensures Ordered(order, fc.posts) && Head(order, fc.posts, d) == Head(order, f.posts, d)
    ensures StartTimer(fc, order, now, d) == StartTimer(f, order, now, d)
  {
    RowsPlaces(f.posts, fc.posts);
    SameOrdered(order, f.posts, fc.posts);
    SamePending(order, f.posts, fc.posts, d);
    HeadIsFirst(order, f.posts, d);
    StartPosts(f, order, now, c);
  }

  lemma StartsTwice(f: Flow, order: seq<Id>, now: nat, c: Conversation, d: Conversation, fc: Flow, r: Flow)
    requires Ordered(order, f.posts) && c != d && fc == TryStart(f, order, now, c) && r == TryStart(fc, order, now, d)
    ensures r.events == f.events + StartTimer(f, order, now, c) + StartTimer(f, order, now, d)
    ensures r.posts == StartedMap(StartedMap(f.posts, c, Head(order, f.posts, c), now), d, Head(order, f.posts, d), now)
  {
    SameStart(f, order, now, c, d, fc);
    StartPosts(f, order, now, c);
    StartPosts(fc, order, now, d);
    StartEvents(f, order, now, c);
    StartEvents(fc, order, now, d);
  }

  /** Starting two different conversations gives the same deliveries in either order. */
  lemma StartsCommute(f: Flow, order: seq<Id>, now: nat, c: Conversation, d: Conversation)
    requires Ordered(order, f.posts) && c != d
    ensures TryStart(TryStart(f, order, now, c), order, now, d) == TryStart(TryStart(f, order, now, d), order, now, c)
  {
    var fc, fd := TryStart(f, order, now, c), TryStart(f, order, now, d);
    StartsTwice(f, order, now, c, d, fc, TryStart(fc, order, now, d));
    StartsTwice(f, order, now, d, c, fd, TryStart(fd, order, now, c));
    MapsCommute(f.posts, c, d, Head(order, f.posts, c), Head(order, f.posts, d), now);
    SameFlow(f.events, StartTimer(f, order, now, c), StartTimer(f, order, now, d),
             TryStart(fc, order, now, d), TryStart(fd, order, now, c));
  }

  lemma SameFlow(e: multiset<Event>, x: multiset<Event>, y: multiset<Event>, cd: Flow, dc: Flow)
    requires cd.events == e + x + y && dc.events == e + y + x && cd.posts == dc.posts
    ensures cd == dc
  {
    assert e + x + y == e + y + x;
  }
}
