/** What every step of the outbox keeps: order, completions, deadlines, wake-ups, retry budget. */
module OutboxSafety {
  import opened Prelude
  import opened OutboxModel

  // ---------------------------------------------------------------- the invariant

  /** First of its conversation: nothing enqueued earlier is still in the outbox. */
  ghost predicate First(posts: map<Id, Post>, id: Id)
    requires id in posts
  {
    forall o :: o in posts && posts[o].conversation == posts[id].conversation
                ==> posts[id].ticket <= posts[o].ticket
  }

  ghost predicate Ordered(order: seq<Id>, posts: map<Id, Post>) {
    && (forall id :: id in order <==> id in posts)
    && forall i, j :: 0 <= i < j < |order| ==> posts[order[i]].ticket < posts[order[j]].ticket
  }

  /** A post knows its place, and its counters fit what they count. */
  ghost predicate Entered(id: Id, p: Post, w: World) {
    && id in w.used && p.ticket < w.tickets && p.window <= w.now
    && p.attempts <= MAX_ATTEMPTS && p.interveningCount == |p.intervening|
  }

  /** The three containers describe one set of posts in enqueue order. */
  ghost predicate Shape(w: World) {
    && Ordered(w.order, w.flow.posts) && w.owned == w.order
    && forall id :: id in w.flow.posts ==> Entered(id, w.flow.posts[id], w)
  }

  /** Every request stayed within its budget; per conversation, requests went out in enqueue order. */
  ghost predicate WireOk(wire: seq<Transmission>, posts: map<Id, Post>, tickets: nat) {
    && (forall k :: 0 <= k < |wire| ==> WithinBudget(wire[k]) && wire[k].ticket < tickets)
    && (forall k, id :: 0 <= k < |wire| && id in posts && posts[id].conversation == wire[k].conversation ==>
          wire[k].ticket <= posts[id].ticket)
    && (forall j, k :: 0 <= j < k < |wire| && wire[j].conversation == wire[k].conversation ==>
          wire[j].ticket <= wire[k].ticket)
  }

  ghost predicate WithinBudget(t: Transmission) {
    && 1 <= t.attempt <= MAX_ATTEMPTS
    && t.window <= t.at < t.window + RETRY_WINDOW
    && t.intervening < MAX_INTERVENING
  }

  /** Who is in the outbox, and what has gone out. */
  ghost predicate Ledger(w: World) {
    Shape(w) && WireOk(w.wire, w.flow.posts, w.tickets)
  }

  /** What a transition still in progress has yet to put back. */
  datatype Owed = Owed(starts: set<Conversation>, deadlines: set<Id>)

  const NOTHING := Owed({}, {})

  /** Outstanding completions exist once each, and deadlines are due when their window closes. */
  ghost predicate EventsOk(events: multiset<Event>, used: set<Id>) {
    && (forall id, g: nat :: Reply(id, g) in events ==> id in used && events[Reply(id, g)] == 1)
    && (forall id, g: nat, due: nat :: RetryDue(id, g, due) in events ==> id in used)
    && (forall id, x: nat, due: nat :: Deadline(id, x, due) in events ==> due == x + RETRY_WINDOW && id in used)
  }

  /** No completion for this post is outstanding. */
  ghost predicate Quiet(id: Id, events: multiset<Event>) {
    forall g: nat :: Reply(id, g) !in events
  }

  ghost predicate OnlyReply(id: Id, generation: nat, events: multiset<Event>) {
    forall g: nat :: Reply(id, g) in events <==> g == generation
  }

  ghost predicate DeadlinePending(id: Id, p: Post, events: multiset<Event>, o: Owed) {
    id in o.deadlines || Deadline(id, p.window, p.window + RETRY_WINDOW) in events
  }

  ghost predicate TimerPending(id: Id, p: Post, events: multiset<Event>) {
    exists due: nat :: RetryDue(id, p.generation, due) in events && due <= p.window + RETRY_WINDOW
  }

  /**
   * What holds of a post in each state. The completion it waits for is outstanding exactly while it is being
   * sent; only a ready head is sent or waits to be sent again; whatever may still be sent runs under its own
   * deadline; and a head that should move has something pending that moves it.
   */
  ghost predicate PostOk(id: Id, p: Post, first: bool, events: multiset<Event>, now: nat, o: Owed) {
    match p.state
    case Failed => Quiet(id, events)
    case Sending =>
      && first && AttachmentsReady(p) && p.attempts > 0
      && OnlyReply(id, p.generation, events)
      && (DeadlinePending(id, p, events, o) || now >= p.window + RETRY_WINDOW)
    case RetryWait =>
      && first && AttachmentsReady(p) && p.attempts > 0
      && Quiet(id, events) && DeadlinePending(id, p, events, o) && TimerPending(id, p, events)
    case Queued =>
      && Quiet(id, events) && DeadlinePending(id, p, events, o)
      && (first && p.conversation !in o.starts ==>
            Fire(id, p.generation) in events || Start(p.conversation) in events)
    case Blocked =>
      && Quiet(id, events) && DeadlinePending(id, p, events, o)
      && (first && p.conversation !in o.starts ==> Start(p.conversation) in events)
    case Uploading => Quiet(id, events) && DeadlinePending(id, p, events, o)
  }

  /** Every post except possibly one is in order. */
  ghost predicate PostsOk(f: Flow, but: Option<Id>, now: nat, o: Owed) {
    forall id :: id in f.posts && but != Some(id) ==> PostOk(id, f.posts[id], First(f.posts, id), f.events, now, o)
  }

  ghost predicate UploadOk(u: Id, upload: Upload, events: multiset<Event>) {
    match upload.state
    case InProgress => UploadReply(u, upload.generation) in events
    case Ready => upload.fileId != ""
    case Broken => true
  }

  /** An upload in progress has its completion outstanding, a finished one its file; except possibly one. */
  ghost predicate UploadsOk(uploads: map<Id, Upload>, events: multiset<Event>, but: Option<Id>) {
    forall u :: u in uploads && but != Some(u) ==> UploadOk(u, uploads[u], events)
  }

  /** The invariant between events. */
  ghost predicate Safe(w: World) {
    && Ledger(w) && EventsOk(w.flow.events, w.used)
    && PostsOk(w.flow, None, w.now, NOTHING) && UploadsOk(w.uploads, w.flow.events, None)
  }

  // ---------------------------------------------------------------- heads

  lemma {:induction false} PendingFirst(order: seq<Id>, posts: map<Id, Post>, c: Conversation)
    requires forall id :: id in order ==> id in posts
    requires forall i, j :: 0 <= i < j < |order| ==> posts[order[i]].ticket < posts[order[j]].ticket
    ensures PendingIds(order, posts, c) != [] ==>
      && PendingIds(order, posts, c)[0] in order
      && forall id :: id in order && posts[id].conversation == c ==>
           posts[PendingIds(order, posts, c)[0]].ticket <= posts[id].ticket
  {
    if order != [] && posts[order[0]].conversation != c {
      PendingFirst(order[1..], posts, c);
    }
  }

  /** The head found by walking the order list is the earliest-enqueued post of the conversation. */
  lemma HeadIsFirst(order: seq<Id>, posts: map<Id, Post>, c: Conversation)
    requires Ordered(order, posts)
    ensures Head(order, posts, c) == None ==> forall id :: id in posts ==> posts[id].conversation != c
    ensures forall id :: id in posts ==>
      (Head(order, posts, c) == Some(id) <==> First(posts, id) && posts[id].conversation == c)
    ensures Head(order, posts, c).Some? ==> Head(order, posts, c).value in posts
  {
    PendingFirst(order, posts, c);
    var ids := PendingIds(order, posts, c);
    forall id | id in posts && posts[id].conversation == c
      ensures id in ids
    {
      assert id in order;
    }
    forall a, b | a in posts && b in posts && First(posts, a) && First(posts, b)
                  && posts[a].conversation == posts[b].conversation
      ensures a == b
    {
      assert a in order && b in order;
    }
    if ids != [] {
      assert ids[0] in ids;
    }
  }

  lemma RowFacts(p: Post, q: Post)
    requires SameRow(p, q)
    ensures q.conversation == p.conversation && q.ticket == p.ticket && q.window == p.window
    ensures q.attempts == p.attempts && q.interveningCount == p.interveningCount && q.intervening == p.intervening
  {
    var a, b := Intent(p), Intent(q);
    assert a.conversation == b.conversation && a.ticket == b.ticket && a.window == b.window
      && a.attempts == b.attempts && a.intervening == b.intervening && a.interveningCount == b.interveningCount;
  }

  /** Moving deliveries along does not change who is the head of what. */
  lemma {:induction false} SamePending(order: seq<Id>, posts: map<Id, Post>, posts': map<Id, Post>, c: Conversation)
    requires SameRows(posts, posts')
    ensures PendingIds(order, posts', c) == PendingIds(order, posts, c)
  {
    if order != [] {
      if order[0] in posts {
        RowFacts(posts[order[0]], posts'[order[0]]);
      }
      SamePending(order[1..], posts, posts', c);
    }
  }

  // ---------------------------------------------------------------- the ledger

  /** Moving deliveries and uploads along leaves the ledger as it is. */
  lemma SteadyLedger(w: World, v: World)
    requires Ledger(w) && SameBooks(w, v) && SameRows(w.flow.posts, v.flow.posts)
    ensures Ledger(v)
  {
    forall id | id in w.flow.posts
      ensures v.flow.posts[id].ticket == w.flow.posts[id].ticket
      ensures v.flow.posts[id].conversation == w.flow.posts[id].conversation
      ensures Entered(id, v.flow.posts[id], v)
    {
      RowFacts(w.flow.posts[id], v.flow.posts[id]);
      assert Entered(id, w.flow.posts[id], w);
    }
  }

  // ---------------------------------------------------------------- changing posts in place

  ghost predicate SamePlace(p: Post, q: Post) {
    q.conversation == p.conversation && q.ticket == p.ticket
  }

  ghost predicate SamePlaces(posts: map<Id, Post>, posts': map<Id, Post>) {
    posts'.Keys == posts.Keys && forall id :: id in posts ==> SamePlace(posts[id], posts'[id])
  }

  lemma PlacedFirst(posts: map<Id, Post>, posts': map<Id, Post>)
    requires SamePlaces(posts, posts')
    ensures forall id :: id in posts ==> (First(posts', id) <==> First(posts, id))
  {
    forall id | id in posts
      ensures First(posts', id) <==> First(posts, id)
    {
      forall o | o in posts
        ensures posts'[o].conversation == posts[o].conversation && posts'[o].ticket == posts[o].ticket
      {
        assert SamePlace(posts[o], posts'[o]);
      }
    }
  }

  lemma RowsPlaces(posts: map<Id, Post>, posts': map<Id, Post>)
    requires SameRows(posts, posts')
    ensures SamePlaces(posts, posts')
  {
    forall id | id in posts
      ensures SamePlace(posts[id], posts'[id])
    {
      RowFacts(posts[id], posts'[id]);
    }
  }

  /** Adding events that are not completions of a post does not disturb that post. */
  lemma MoreEvents(id: Id, p: Post, first: bool, events: multiset<Event>, events': multiset<Event>, now: nat, o: Owed)
    requires PostOk(id, p, first, events, now, o) && events <= events'
    requires forall g: nat :: Reply(id, g) in events' ==> Reply(id, g) in events
    ensures PostOk(id, p, first, events', now, o)
  {
  }

  /** The post being worked on moves on, and adds events about itself, if it is in order afterwards. */
  lemma Move(f: Flow, id: Id, q: Post, events: multiset<Event>, now: nat, o: Owed)
    requires PostsOk(f, Some(id), now, o) && id in f.posts && SamePlace(f.posts[id], q)
    requires f.events <= events
    requires forall other, g: nat :: Reply(other, g) in events ==> Reply(other, g) in f.events || other == id
    requires PostOk(id, q, First(f.posts, id), events, now, o)
    ensures PostsOk(Flow(f.posts[id := q], events), None, now, o)
  {
    var posts' := f.posts[id := q];
    assert SamePlaces(f.posts, posts') by {
      forall i | i in f.posts ensures SamePlace(f.posts[i], posts'[i]) { }
    }
    PlacedFirst(f.posts, posts');
    forall i | i in posts'
      ensures PostOk(i, posts'[i], First(posts', i), events, now, o)
    {
      if i != id {
        MoreEvents(i, f.posts[i], First(f.posts, i), f.events, events, now, o);
      }
    }
  }

  /** Any posts may change in place, if each is in order afterwards. */
  lemma ChangeAll(posts: map<Id, Post>, posts': map<Id, Post>, events: multiset<Event>, but: Option<Id>, now: nat, o: Owed)
    requires SamePlaces(posts, posts')
    requires forall id :: id in posts' && but != Some(id) ==> PostOk(id, posts'[id], First(posts, id), events, now, o)
    ensures PostsOk(Flow(posts', events), but, now, o)
  {
    PlacedFirst(posts, posts');
  }

  /** New timers disturb nobody. */
  lemma MoreTimers(f: Flow, e: Event, but: Option<Id>, now: nat, o: Owed)
    requires PostsOk(f, but, now, o) && !e.Reply?
    ensures PostsOk(Later(f, e), but, now, o)
  {
    forall id | id in f.posts && but != Some(id)
      ensures PostOk(id, f.posts[id], First(f.posts, id), f.events + multiset{e}, now, o)
    {
      MoreEvents(id, f.posts[id], First(f.posts, id), f.events, f.events + multiset{e}, now, o);
    }
  }

  lemma MildFlow(f: Flow, r: Flow, but: Option<Id>, now: nat, o: Owed)
    requires PostsOk(f, but, now, o) && r.posts == f.posts && Mild(f.events, r.events)
    ensures PostsOk(r, but, now, o)
  {
    forall id | id in f.posts && but != Some(id)
      ensures PostOk(id, f.posts[id], First(f.posts, id), r.events, now, o)
    {
      forall g: nat | Reply(id, g) in r.events
        ensures Reply(id, g) in f.events
      {
        assert r.events[Reply(id, g)] <= f.events[Reply(id, g)];
      }
      MoreEvents(id, f.posts[id], First(f.posts, id), f.events, r.events, now, o);
    }
  }

  lemma MildEvents(a: multiset<Event>, b: multiset<Event>, used: set<Id>)
    requires EventsOk(a, used) && Mild(a, b)
    ensures EventsOk(b, used)
  {
    forall id, g: nat | Reply(id, g) in b
      ensures id in used && b[Reply(id, g)] == 1
    {
      assert b[Reply(id, g)] <= a[Reply(id, g)];
    }
    forall id, g: nat, due: nat | RetryDue(id, g, due) in b
      ensures id in used
    {
      assert b[RetryDue(id, g, due)] <= a[RetryDue(id, g, due)];
    }
    forall id, x: nat, due: nat | Deadline(id, x, due) in b
      ensures due == x + RETRY_WINDOW && id in used
    {
      assert b[Deadline(id, x, due)] <= a[Deadline(id, x, due)];
    }
  }

  // ---------------------------------------------------------------- single transitions

  /** A post that no completion can still reach may fail at any time. */
  lemma FailKeeps(f: Flow, id: Id, now: nat, o: Owed)
    requires PostsOk(f, Some(id), now, o) && id in f.posts && Quiet(id, f.events)
    ensures PostsOk(Fail(f, id), None, now, o)
  {
    Move(f, id, FailPost(f.posts[id]), f.events, now, o);
  }

  function Started(o: Owed, c: Conversation): Owed {
    o.(starts := o.starts - {c})
  }

  /** Once the head of a conversation is dealt with, the conversation owes no start: nobody else is first there. */
  lemma HeadAside(f: Flow, order: seq<Id>, head: Id, now: nat, o: Owed)
    requires Ordered(order, f.posts) && PostsOk(f, None, now, o) && head in f.posts && First(f.posts, head)
    ensures PostsOk(f, Some(head), now, Started(o, f.posts[head].conversation))
  {
    var c := f.posts[head].conversation;
    forall i | i in f.posts && i != head
      ensures PostOk(i, f.posts[i], First(f.posts, i), f.events, now, Started(o, c))
    {
      assert PostOk(i, f.posts[i], First(f.posts, i), f.events, now, o);
      assert i in order && head in order;
    }
  }

  lemma BlockOne(id: Id, p: Post, events: multiset<Event>, now: nat, o: Owed)
    requires PostOk(id, p, false, events, now, o)
    ensures PostOk(id, BlockPost(p), false, events, now, o)
  {
  }

  lemma BlockKeeps(f: Flow, order: seq<Id>, c: Conversation, head: Id, now: nat, o: Owed)
    requires Ordered(order, f.posts) && PostsOk(f, None, now, o) && Head(order, f.posts, c) == Some(head) && head in f.posts
    ensures PostsOk(f.(posts := BlockLater(f.posts, c, head)), None, now, o)
  {
    var posts := BlockLater(f.posts, c, head);
    HeadIsFirst(order, f.posts, c);
    RowsPlaces(f.posts, posts);
    forall id | id in posts
      ensures PostOk(id, posts[id], First(f.posts, id), f.events, now, o)
    {
      assert PostOk(id, f.posts[id], First(f.posts, id), f.events, now, o);
      if f.posts[id].conversation == c && id != head {
        BlockOne(id, f.posts[id], f.events, now, o);
      }
    }
    ChangeAll(f.posts, posts, f.events, None, now, o);
  }

  lemma AdvancedOk(id: Id, p: Post, events: multiset<Event>, now: nat, o: Owed)
    requires PostOk(id, p, true, events, now, o)
    ensures PostOk(id, Advanced(p, now), true, events + HeadTimer(id, Advanced(p, now)), now, Started(o, p.conversation))
  {
    var q := Advanced(p, now);
    if q.state == RetryWait {
      var due: nat :| RetryDue(id, p.generation, due) in events && due <= p.window + RETRY_WINDOW;
      assert RetryDue(id, q.generation, due) in events + HeadTimer(id, q);
    }
  }

  lemma AdvanceKeeps(f: Flow, order: seq<Id>, head: Id, now: nat, o: Owed)
    requires Ordered(order, f.posts) && PostsOk(f, None, now, o) && head in f.posts && First(f.posts, head)
    ensures PostsOk(Advance(f, head, now), None, now, Started(o, f.posts[head].conversation))
  {
    var q := Advanced(f.posts[head], now);
    HeadAside(f, order, head, now, o);
    assert PostOk(head, f.posts[head], First(f.posts, head), f.events, now, o);
    AdvancedOk(head, f.posts[head], f.events, now, o);
    Move(f, head, q, f.events + HeadTimer(head, q), now, Started(o, f.posts[head].conversation));
  }

  lemma SameOrdered(order: seq<Id>, posts: map<Id, Post>, posts': map<Id, Post>)
    requires Ordered(order, posts) && SamePlaces(posts, posts')
    ensures Ordered(order, posts')
  {
    forall id | id in posts
      ensures posts'[id].ticket == posts[id].ticket
    {
      assert SamePlace(posts[id], posts'[id]);
    }
  }

  /** Starting a conversation leaves its head either moving, or waiting for something that is outstanding. */
  lemma TryStartKeeps(f: Flow, order: seq<Id>, c: Conversation, now: nat, o: Owed)
    requires Ordered(order, f.posts) && PostsOk(f, None, now, o)
    ensures PostsOk(TryStart(f, order, now, c), None, now, Started(o, c))
  {
    HeadIsFirst(order, f.posts, c);
    match Head(order, f.posts, c)
    case None =>
      forall id | id in f.posts
        ensures PostOk(id, f.posts[id], First(f.posts, id), f.events, now, Started(o, c))
      {
        assert PostOk(id, f.posts[id], First(f.posts, id), f.events, now, o);
      }
    case Some(head) =>
      BlockKeeps(f, order, c, head, now, o);
      var posts := BlockLater(f.posts, c, head);
      RowsPlaces(f.posts, posts);
      SameOrdered(order, f.posts, posts);
      PlacedFirst(f.posts, posts);
      AdvanceKeeps(f.(posts := posts), order, head, now, o);
  }

  lemma {:induction false} TryStartAllKeeps(f: Flow, order: seq<Id>, cs: seq<Conversation>, now: nat, o: Owed)
    requires Ordered(order, f.posts) && PostsOk(f, None, now, o)
    requires forall c :: c in o.starts ==> c in cs
    ensures PostsOk(TryStartAll(f, order, now, cs), None, now, o.(starts := {}))
    decreases |cs|
  {
    if cs == [] {
      assert o.starts == {};
    } else {
      TryStartKeeps(f, order, cs[0], now, o);
      var g := TryStart(f, order, now, cs[0]);
      RowsPlaces(f.posts, g.posts);
      SameOrdered(order, f.posts, g.posts);
      TryStartAllKeeps(g, order, cs[1..], now, Started(o, cs[0]));
    }
  }

  // ---------------------------------------------------------------- sending

  /** The retry table is never indexed outside, and no retry is put off past the end of the window. */
  lemma DelayFits(p: Post, now: nat)
    requires 0 < p.attempts && p.window <= now && now - p.window < RETRY_WINDOW
    ensures 0 <= Min(p.attempts - 1, |RETRY_DELAYS| - 1) < |RETRY_DELAYS|
    ensures 0 < RetryDelay(p, now) && now + RetryDelay(p, now) <= p.window + RETRY_WINDOW
  {
  }

  lemma ScheduleRetryKeeps(f: Flow, id: Id, now: nat, o: Owed)
    requires PostsOk(f, Some(id), now, o) && id in f.posts && First(f.posts, id) && AttachmentsReady(f.posts[id])
    requires Quiet(id, f.events) && f.posts[id].window <= now
    requires DeadlinePending(id, f.posts[id], f.events, o) || now >= f.posts[id].window + RETRY_WINDOW
    ensures PostsOk(ScheduleRetry(f, id, now), None, now, o)
  {
    var p := f.posts[id];
    if p.attempts == 0 || p.attempts >= MAX_ATTEMPTS || now - p.window >= RETRY_WINDOW {
      FailKeeps(f, id, now, o);
    } else {
      RetryWaits(f, id, now, o);
    }
  }

  lemma RetryWaits(f: Flow, id: Id, now: nat, o: Owed)
    requires PostsOk(f, Some(id), now, o) && id in f.posts && First(f.posts, id) && AttachmentsReady(f.posts[id])
    requires Quiet(id, f.events) && f.posts[id].window <= now && now - f.posts[id].window < RETRY_WINDOW
    requires 0 < f.posts[id].attempts < MAX_ATTEMPTS && DeadlinePending(id, f.posts[id], f.events, o)
    ensures PostsOk(ScheduleRetry(f, id, now), None, now, o)
  {
    DelayFits(f.posts[id], now);
    WaitKeeps(f, id, now, now + RetryDelay(f.posts[id], now), o, ScheduleRetry(f, id, now));
  }

  lemma WaitKeeps(f: Flow, id: Id, now: nat, due: nat, o: Owed, r: Flow)
    requires PostsOk(f, Some(id), now, o) && id in f.posts && First(f.posts, id) && AttachmentsReady(f.posts[id])
    requires Quiet(id, f.events) && f.posts[id].attempts > 0 && DeadlinePending(id, f.posts[id], f.events, o)
    requires due <= f.posts[id].window + RETRY_WINDOW && r == WaitUntil(f, id, due)
    ensures PostsOk(r, None, now, o)
  {
    var p := f.posts[id];
    var q := p.(state := RetryWait, generation := p.generation + 1);
    var e := RetryDue(id, q.generation, due);
    assert TimerPending(id, q, f.events + multiset{e}) by {
      assert e in f.events + multiset{e};
    }
    Move(f, id, q, f.events + multiset{e}, now, o);
    assert r == Flow(f.posts[id := q], f.events + multiset{e});
  }

  lemma LineKeeps(wire: seq<Transmission>, posts: map<Id, Post>, posts': map<Id, Post>, id: Id, t: Transmission, tickets: nat)
    requires WireOk(wire, posts, tickets) && SamePlaces(posts, posts') && id in posts && First(posts, id)
    requires t.ticket == posts[id].ticket < tickets && t.conversation == posts[id].conversation && WithinBudget(t)
    ensures WireOk(wire + [t], posts', tickets)
  {
    var more := wire + [t];
    forall k, i | 0 <= k < |more| && i in posts' && posts'[i].conversation == more[k].conversation
      ensures more[k].ticket <= posts'[i].ticket
    {
      assert SamePlace(posts[i], posts'[i]);
      if k < |wire| {
        assert more[k] == wire[k];
      }
    }
    forall j, k | 0 <= j < k < |more| && more[j].conversation == more[k].conversation
      ensures more[j].ticket <= more[k].ticket
    {
      assert more[j] == wire[j];
    }
  }

  // ---------------------------------------------------------------- leaving the outbox

  lemma {:induction false} WithoutRising(order: seq<Id>, posts: map<Id, Post>, id: Id)
    requires forall x :: x in order ==> x in posts
    requires forall i, j :: 0 <= i < j < |order| ==> posts[order[i]].ticket < posts[order[j]].ticket
    ensures forall x :: x in Without(order, id) ==> x in posts
    ensures forall i, j :: 0 <= i < j < |Without(order, id)| ==>
      posts[Without(order, id)[i]].ticket < posts[Without(order, id)[j]].ticket
  {
    if order != [] {
      WithoutRising(order[1..], posts, id);
      var rest := Without(order[1..], id);
      forall x | x in rest
        ensures x in posts && posts[order[0]].ticket < posts[x].ticket
      {
        assert x in order[1..];
      }
    }
  }

  lemma WithoutOrdered(order: seq<Id>, posts: map<Id, Post>, id: Id)
    requires Ordered(order, posts) && id in posts
    ensures Ordered(Without(order, id), posts - {id})
  {
    WithoutRising(order, posts, id);
    var rest := Without(order, id);
    forall i | 0 <= i < |rest|
      ensures rest[i] in posts - {id}
    {
      assert rest[i] in rest;
    }
  }

  /** With one post gone and its conversation about to be started, everyone else is still in order. */
  lemma DropKeeps(f: Flow, id: Id, now: nat, o: Owed)
    requires PostsOk(f, Some(id), now, o) && id in f.posts
    ensures PostsOk(f.(posts := f.posts - {id}), None, now, o.(starts := o.starts + {f.posts[id].conversation}))
  {
    var posts := f.posts - {id};
    var c := f.posts[id].conversation;
    forall i | i in posts
      ensures PostOk(i, posts[i], First(posts, i), f.events, now, o.(starts := o.starts + {c}))
    {
      assert PostOk(i, f.posts[i], First(f.posts, i), f.events, now, o);
      if f.posts[i].conversation != c && First(posts, i) {
        forall k | k in f.posts && f.posts[k].conversation == f.posts[i].conversation
          ensures f.posts[i].ticket <= f.posts[k].ticket
        {
          assert k in posts;
        }
      }
    }
  }

  /** A pending start discharges the start that is owed. */
  lemma StartOwed(f: Flow, c: Conversation, but: Option<Id>, now: nat, o: Owed)
    requires PostsOk(f, but, now, o.(starts := o.starts + {c}))
    ensures PostsOk(Later(f, Start(c)), but, now, o)
  {
    forall id | id in f.posts && but != Some(id)
      ensures PostOk(id, f.posts[id], First(f.posts, id), f.events + multiset{Start(c)}, now, o)
    {
      assert PostOk(id, f.posts[id], First(f.posts, id), f.events, now, o.(starts := o.starts + {c}));
      MoreEvents(id, f.posts[id], First(f.posts, id), f.events, f.events + multiset{Start(c)}, now,
                 o.(starts := o.starts + {c}));
    }
  }

  lemma DropLedger(w: World, id: Id)
    requires Ledger(w) && id in w.flow.posts
    ensures Ledger(Drop(w, id))
  {
    WithoutOrdered(w.order, w.flow.posts, id);
    forall i | i in w.flow.posts
      ensures Entered(i, w.flow.posts[i], Drop(w, id))
    {
      assert Entered(i, w.flow.posts[i], w);
    }
  }

  lemma {:induction false} ReleaseSome(uploads: map<Id, Upload>, atts: seq<Attachment>)
    ensures ReleaseAll(uploads, atts).Keys <= uploads.Keys
    ensures forall u :: u in ReleaseAll(uploads, atts) ==> ReleaseAll(uploads, atts)[u] == uploads[u]
    decreases |atts|
  {
    if atts != [] {
      ReleaseSome(if atts[0].uploadId == "" then uploads else uploads - {atts[0].uploadId}, atts[1..]);
    }
  }
}
