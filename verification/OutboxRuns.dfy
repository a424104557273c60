/** The invariant over whole runs, and what it says about every transmission. */
module OutboxRuns {
  import opened Prelude
  import opened OutboxModel
  import opened OutboxSafety
  import opened OutboxUploads
  import opened OutboxSteps

  // ---------------------------------------------------------------- events

  lemma CalmLedger(w: World, v: World)
    requires Ledger(w) && Calm(w, v)
    ensures Ledger(v)
  {
    SteadyLedger(w, v);
  }

  lemma StartSafe(w: World, c: Conversation, r: World)
    requires Safe(w) && Start(c) in w.flow.events
    requires r == Handle(Taken(w, Start(c)), Start(c), Rejected(false), "")
    ensures Safe(r)
  {
    var v := Taken(w, Start(c));
    TakenPosts(w, Start(c));
    TakenEvents(w, Start(c));
    StartPays(v.flow, v.order, v.now, c);
    MildEvents(v.flow.events, r.flow.events, w.used);
    MoreUploadEvents(w.uploads, v.flow.events, r.flow.events, None);
    CalmLedger(v, r);
  }

  lemma AttemptLedger(w: World, id: Id, r: World)
    requires Ledger(w) && id in w.flow.posts && r == Attempt(w, id)
    ensures Ledger(r)
  {
    HeadIsFirst(w.order, w.flow.posts, w.flow.posts[id].conversation);
    var q := Attempted(w.flow.posts[id], w.now, w.channels);
    if q.state == Sending && First(w.flow.posts, id) && RetryAllowed(w.flow.posts[id], w.now)
       && q == Sent(w.flow.posts[id]) {
      SentLedger(w, id, q, r);
    } else if First(w.flow.posts, id) {
      UnsentLedger(w, id, q, r);
    }
  }

  lemma UnsentLedger(w: World, id: Id, q: Post, r: World)
    requires Ledger(w) && id in w.flow.posts && SameRow(w.flow.posts[id], q)
    requires SameBooks(w, r) && r.flow.posts == w.flow.posts[id := q]
    ensures Ledger(r)
  {
    assert SameRows(w.flow.posts, w.flow.posts[id := q]);
    SteadyLedger(w, r);
  }

  lemma AttemptEvents(w: World, id: Id, r: World)
    requires EventsOk(w.flow.events, w.used) && id in w.flow.posts && id in w.used
    requires Quiet(id, w.flow.events) && r == Attempt(w, id)
    ensures EventsOk(r.flow.events, r.used) && w.flow.events <= r.flow.events && r.uploads == w.uploads
  {
  }

  lemma SentLedger(w: World, id: Id, q: Post, r: World)
    requires Ledger(w) && id in w.flow.posts && First(w.flow.posts, id)
    requires q == Sent(w.flow.posts[id]) && RetryAllowed(w.flow.posts[id], w.now)
    requires r.flow.posts == w.flow.posts[id := q] && r.wire == w.wire + [Line(id, q, w.now)]
    requires r.order == w.order && r.owned == w.owned && r.now == w.now && r.tickets == w.tickets && r.used == w.used
    ensures Ledger(r)
  {
    assert Entered(id, w.flow.posts[id], w);
    assert SamePlaces(w.flow.posts, r.flow.posts);
    SameOrdered(w.order, w.flow.posts, r.flow.posts);
    forall i | i in r.flow.posts
      ensures Entered(i, r.flow.posts[i], r)
    {
      assert Entered(i, w.flow.posts[i], w);
    }
    LineKeeps(w.wire, w.flow.posts, r.flow.posts, id, Line(id, q, w.now), w.tickets);
  }

  lemma FireSafe(w: World, id: Id, g: nat, r: World)
    requires Safe(w) && Fire(id, g) in w.flow.events && r == OnFire(Taken(w, Fire(id, g)), id, g)
    ensures Safe(r)
  {
    var v := Taken(w, Fire(id, g));
    TakenEvents(w, Fire(id, g));
    FireKeeps(w, id, g);
    if id in w.flow.posts && w.flow.posts[id].generation == g && w.flow.posts[id].state == Queued {
      assert PostOk(id, w.flow.posts[id], First(w.flow.posts, id), w.flow.events, w.now, NOTHING);
      assert Entered(id, w.flow.posts[id], w);
      AttemptSafe(v, id, r);
    }
  }

  lemma AttemptSafe(v: World, id: Id, r: World)
    requires Ledger(v) && EventsOk(v.flow.events, v.used) && UploadsOk(v.uploads, v.flow.events, None)
    requires id in v.flow.posts && id in v.used && Quiet(id, v.flow.events) && r == Attempt(v, id)
    requires PostsOk(r.flow, None, v.now, NOTHING)
    ensures Safe(r)
  {
    AttemptLedger(v, id, r);
    AttemptEvents(v, id, r);
    MoreUploadEvents(v.uploads, v.flow.events, r.flow.events, None);
    assert r.now == v.now;
  }

  // ---------------------------------------------------------------- completions

  /** What every handler that only moves deliveries along leaves to prove is the posts themselves. */
  lemma CalmSafe(v: World, r: World)
    requires Ledger(v) && EventsOk(v.flow.events, v.used) && UploadsOk(v.uploads, v.flow.events, None)
    requires Calm(v, r) && r.uploads == v.uploads && PostsOk(r.flow, None, r.now, NOTHING)
    ensures Safe(r)
  {
    CalmLedger(v, r);
    MildEvents(v.flow.events, r.flow.events, v.used);
    MoreUploadEvents(v.uploads, v.flow.events, r.flow.events, None);
  }

  lemma WaitRow(f: Flow, id: Id, now: nat)
    requires id in f.posts
    ensures SameRows(f.posts, ScheduleRetry(f, id, now).posts) && f.events <= ScheduleRetry(f, id, now).events
    ensures forall e :: ScheduleRetry(f, id, now).events[e] > f.events[e] ==> e.RetryDue? && e.id == id
  {
  }

  lemma RetryEvents(a: multiset<Event>, b: multiset<Event>, id: Id, used: set<Id>)
    requires EventsOk(a, used) && id in used && a <= b
    requires forall e :: b[e] > a[e] ==> e.RetryDue? && e.id == id
    ensures EventsOk(b, used)
  {
    forall i, g: nat | Reply(i, g) in b
      ensures i in used && b[Reply(i, g)] == 1
    {
      assert b[Reply(i, g)] <= a[Reply(i, g)];
    }
    forall i, g: nat, due: nat | RetryDue(i, g, due) in b
      ensures i in used
    {
      assert b[RetryDue(i, g, due)] > a[RetryDue(i, g, due)] || RetryDue(i, g, due) in a;
    }
    forall i, x: nat, due: nat | Deadline(i, x, due) in b
      ensures due == x + RETRY_WINDOW && i in used
    {
      assert b[Deadline(i, x, due)] <= a[Deadline(i, x, due)];
    }
  }

  lemma RetrySafe(v: World, id: Id, r: World)
    requires Ledger(v) && EventsOk(v.flow.events, v.used) && UploadsOk(v.uploads, v.flow.events, None)
    requires id in v.flow.posts && r == v.(flow := ScheduleRetry(v.flow, id, v.now))
    requires PostsOk(r.flow, None, r.now, NOTHING)
    ensures Safe(r)
  {
    assert Entered(id, v.flow.posts[id], v);
    WaitRow(v.flow, id, v.now);
    SteadyLedger(v, r);
    RetryEvents(v.flow.events, r.flow.events, id, v.used);
    MoreUploadEvents(v.uploads, v.flow.events, r.flow.events, None);
  }

  lemma RemoveBooks(v: World, id: Id, r: World)
    requires Ledger(v) && EventsOk(v.flow.events, v.used) && id in v.flow.posts && r == Remove(v, id)
    ensures Ledger(r) && EventsOk(r.flow.events, r.used)
  {
    DropLedger(v, id);
    var w1 := SaveBestEffort(Drop(v, id));
    CalmLedger(Drop(v, id), w1);
    MildEvents(v.flow.events, w1.flow.events, v.used);
    StartBooks(w1, v.flow.posts[id].conversation, r);
  }

  lemma StartBooks(w: World, c: Conversation, r: World)
    requires Ledger(w) && EventsOk(w.flow.events, w.used) && r == w.(flow := Later(w.flow, Start(c)))
    ensures Ledger(r) && EventsOk(r.flow.events, r.used)
  {
    assert SameRows(w.flow.posts, r.flow.posts);
    SteadyLedger(w, r);
  }

  lemma RemoveUploads(v: World, id: Id, r: World)
    requires UploadsOk(v.uploads, v.flow.events, None) && id in v.flow.posts && r == Remove(v, id)
    ensures UploadsOk(r.uploads, r.flow.events, None)
  {
    ReleaseSome(v.uploads, v.flow.posts[id].attachments);
  }

  lemma RemoveSafe(v: World, id: Id, r: World)
    requires Ledger(v) && EventsOk(v.flow.events, v.used) && UploadsOk(v.uploads, v.flow.events, None)
    requires id in v.flow.posts && PostsOk(v.flow, Some(id), v.now, NOTHING) && r == Remove(v, id)
    ensures Safe(r)
  {
    RemoveKeeps(v, id);
    RemoveBooks(v, id, r);
    RemoveUploads(v, id, r);
    assert r.now == v.now;
  }

  lemma RememberBooks(v: World, id: Id, serverId: Id, w: World)
    requires Ledger(v) && EventsOk(v.flow.events, v.used) && UploadsOk(v.uploads, v.flow.events, None)
    requires id in v.flow.posts && PostsOk(v.flow, Some(id), v.now, NOTHING) && w == Remember(v, serverId)
    ensures Ledger(w) && EventsOk(w.flow.events, w.used) && UploadsOk(w.uploads, w.flow.events, None)
    ensures id in w.flow.posts && PostsOk(w.flow, Some(id), w.now, NOTHING)
  {
    RememberKeeps(v, id, serverId);
    if serverId != "" {
      assert SameRows(v.flow.posts, w.flow.posts);
      SteadyLedger(v, w);
    }
  }

  lemma ConfirmSafe(v: World, id: Id, serverId: Id, r: World)
    requires Ledger(v) && EventsOk(v.flow.events, v.used) && UploadsOk(v.uploads, v.flow.events, None)
    requires id in v.flow.posts && PostsOk(v.flow, Some(id), v.now, NOTHING) && r == Confirm(v, id, serverId)
    ensures Safe(r)
  {
    var w := Remember(v, serverId);
    RememberBooks(v, id, serverId, w);
    RemoveSafe(w, id, r);
  }

  lemma ReplySafe(w: World, id: Id, g: nat, outcome: Outcome, r: World)
    requires Safe(w) && Reply(id, g) in w.flow.events && r == OnReply(Taken(w, Reply(id, g)), id, g, outcome)
    ensures Safe(r)
  {
    var e := Reply(id, g);
    TakenEvents(w, e);
    ReplyKeeps(w, id, g, outcome);
    if id in w.flow.posts && outcome.Accepted? {
      TakenPosts(w, e);
      ConfirmSafe(Taken(w, e), id, outcome.serverId, r);
    } else {
      RejectSafe(Taken(w, e), id, g, outcome, r);
    }
  }

  lemma RejectSafe(v: World, id: Id, g: nat, outcome: Outcome, r: World)
    requires Ledger(v) && EventsOk(v.flow.events, v.used) && UploadsOk(v.uploads, v.flow.events, None)
    requires id in v.flow.posts ==> outcome.Rejected?
    requires r == OnReply(v, id, g, outcome) && PostsOk(r.flow, None, v.now, NOTHING)
    ensures Safe(r)
  {
    if id in v.flow.posts && outcome.retryable && RetryAllowed(v.flow.posts[id], v.now)
       && v.flow.posts[id].generation == g && v.flow.posts[id].state != Failed {
      RetrySafe(v, id, r);
    } else {
      FailOrNot(v, id, r);
      CalmSafe(v, r);
    }
  }

  lemma FailOrNot(v: World, id: Id, r: World)
    requires r == v || (id in v.flow.posts && r == v.(flow := Fail(v.flow, id)))
    ensures Calm(v, r) && r.uploads == v.uploads && r.now == v.now
  {
  }

  lemma RetryDueSafe(w: World, id: Id, g: nat, due: nat, r: World)
    requires Safe(w) && RetryDue(id, g, due) in w.flow.events && r == OnRetryDue(Taken(w, RetryDue(id, g, due)), id, g)
    ensures Safe(r)
  {
    var v := Taken(w, RetryDue(id, g, due));
    TakenEvents(w, RetryDue(id, g, due));
    RetryDueKeeps(w, id, g, due);
    if id in w.flow.posts {
      RequeueCalm(v, id, r);
    }
    CalmSafe(v, r);
  }

  lemma RequeueCalm(v: World, id: Id, r: World)
    requires id in v.flow.posts
    requires r == v || r == v.(flow := TryStart(Requeue(v.flow, id), v.order, v.now, v.flow.posts[id].conversation))
    ensures Calm(v, r) && r.uploads == v.uploads
  {
    assert SameRows(v.flow.posts, Requeue(v.flow, id).posts);
  }

  lemma DeadlineSafe(w: World, id: Id, x: nat, due: nat, r: World)
    requires Safe(w) && Deadline(id, x, due) in w.flow.events && due <= w.now
    requires r == OnDeadline(Taken(w, Deadline(id, x, due)), id, x)
    ensures Safe(r)
  {
    var v := Taken(w, Deadline(id, x, due));
    TakenEvents(w, Deadline(id, x, due));
    DeadlineKeeps(w, id, x, due);
    FailOrNot(v, id, r);
    CalmSafe(v, r);
  }

  // ---------------------------------------------------------------- uploads and the disk

  lemma FinishSafe(v: World, u: Id, g: nat, fileId: Id, r: World)
    requires Ledger(v) && EventsOk(v.flow.events, v.used) && PostsOk(v.flow, None, v.now, NOTHING)
    requires UploadsOk(v.uploads, v.flow.events, Some(u)) && r == FinishUpload(v, u, g, fileId)
    requires u in v.uploads && v.uploads[u].generation != g ==> UploadOk(u, v.uploads[u], v.flow.events)
    ensures Safe(r)
  {
    FinishUploadKeeps(v, u, g, fileId, NOTHING);
    CalmLedger(v, r);
    MildEvents(v.flow.events, r.flow.events, v.used);
  }

  lemma UploadReplySafe(w: World, u: Id, g: nat, fileId: Id, r: World)
    requires Safe(w) && UploadReply(u, g) in w.flow.events && r == FinishUpload(Taken(w, UploadReply(u, g)), u, g, fileId)
    ensures Safe(r)
  {
    var e := UploadReply(u, g);
    TakenPosts(w, e);
    TakenEvents(w, e);
    assert forall x :: x != e ==> Taken(w, e).flow.events[x] == w.flow.events[x];
    FinishSafe(Taken(w, e), u, g, fileId, r);
  }

  lemma QuietSafe(w: World, e: Event, r: World)
    requires Safe(w) && e in w.flow.events && (e.Forget? || e.SaveAgain?)
    requires Calm(Taken(w, e), r) && r.flow.posts == w.flow.posts && r.uploads == w.uploads
    ensures Safe(r)
  {
    TakenQuietly(w, e);
    TakenEvents(w, e);
    QuietRest(Taken(w, e), r);
  }

  lemma TakenQuietly(w: World, e: Event)
    requires Safe(w) && e in w.flow.events && (e.Forget? || e.SaveAgain?)
    ensures PostsOk(Taken(w, e).flow, None, w.now, NOTHING)
  {
    assert Subject(e) == None && Wakes(e) == NOTHING;
    TakenPosts(w, e);
  }

  lemma QuietRest(v: World, r: World)
    requires Ledger(v) && EventsOk(v.flow.events, v.used) && UploadsOk(v.uploads, v.flow.events, None)
    requires PostsOk(v.flow, None, v.now, NOTHING)
    requires Calm(v, r) && r.flow.posts == v.flow.posts && r.uploads == v.uploads
    ensures Safe(r)
  {
    MildFlow(v.flow, r.flow, None, v.now, NOTHING);
    CalmSafe(v, r);
  }

  lemma StageSafe(w: World, channel: Id, path: string, u: Id, r: World)
    requires Safe(w) && r == Stage(w, channel, path, u)
    ensures Safe(r)
  {
    StageKeeps(w, channel, path, u, NOTHING);
    CalmLedger(w, r);
    MildEvents(w.flow.events, r.flow.events, w.used);
  }

  // ---------------------------------------------------------------- authoritative posts

  lemma OvertakenOk(id: Id, p: Post, first: bool, events: multiset<Event>, now: nat, a: Arrival, head: bool)
    requires PostOk(id, p, first, events, now, NOTHING)
    ensures PostOk(id, Overtaken(p, a, head), first, events, now, NOTHING)
  {
  }

  lemma OvertakenEntered(id: Id, p: Post, w: World, a: Arrival, head: bool)
    requires Entered(id, p, w)
    ensures Entered(id, Overtaken(p, a, head), w) && SamePlace(p, Overtaken(p, a, head))
  {
  }

  lemma CountedPosts(w: World, a: Arrival, head: Option<Id>, posts: map<Id, Post>)
    requires Safe(w) && posts == OvertakenAll(w.flow.posts, a, head)
    ensures SamePlaces(w.flow.posts, posts) && forall id :: id in posts ==> Entered(id, posts[id], w)
    ensures PostsOk(Flow(posts, w.flow.events), None, w.now, NOTHING)
  {
    forall id | id in w.flow.posts
      ensures SamePlace(w.flow.posts[id], posts[id]) && Entered(id, posts[id], w)
      ensures PostOk(id, posts[id], First(w.flow.posts, id), w.flow.events, w.now, NOTHING)
    {
      assert Entered(id, w.flow.posts[id], w);
      OvertakenEntered(id, w.flow.posts[id], w, a, head == Some(id));
      OvertakenOk(id, w.flow.posts[id], First(w.flow.posts, id), w.flow.events, w.now, a, head == Some(id));
    }
    ChangeAll(w.flow.posts, posts, w.flow.events, None, w.now, NOTHING);
  }

  lemma CountedSafe(w: World, a: Arrival, head: Option<Id>, r: World)
    requires Safe(w) && r == w.(flow := Flow(OvertakenAll(w.flow.posts, a, head), w.flow.events))
    ensures Safe(r)
  {
    CountedPosts(w, a, head, r.flow.posts);
    PlacedLedger(w, r);
  }

  lemma PlacedLedger(w: World, r: World)
    requires Ledger(w) && SameBooks(w, r) && SamePlaces(w.flow.posts, r.flow.posts)
    requires forall id :: id in r.flow.posts ==> Entered(id, r.flow.posts[id], r)
    ensures Ledger(r)
  {
    SameOrdered(w.order, w.flow.posts, r.flow.posts);
    forall k, id | 0 <= k < |w.wire| && id in r.flow.posts && r.flow.posts[id].conversation == w.wire[k].conversation
      ensures w.wire[k].ticket <= r.flow.posts[id].ticket
    {
      assert SamePlace(w.flow.posts[id], r.flow.posts[id]);
    }
  }

  lemma CancelSafe(w: World, id: Id, r: World)
    requires Safe(w) && r == Remove(w, id)
    ensures Safe(r)
  {
    if id in w.flow.posts {
      RemoveSafe(w, id, r);
    }
  }

  lemma ArriveSafe(w: World, a: Arrival, r: World)
    requires Safe(w) && r == Authoritative(w, a)
    ensures Safe(r)
  {
    if a.id != "" && a.id in w.confirmed {
    } else if a.pendingId != "" && a.pendingId in w.flow.posts {
      ConfirmSafe(w, a.pendingId, a.id, r);
    } else if r != w {
      CountedSafe(w, a, Head(w.order, w.flow.posts, a.conversation), r);
    }
  }

  // ---------------------------------------------------------------- the environment

  lemma LaterOk(id: Id, p: Post, first: bool, events: multiset<Event>, now: nat, now': nat)
    requires PostOk(id, p, first, events, now, NOTHING) && now <= now'
    ensures PostOk(id, p, first, events, now', NOTHING)
  {
  }

  lemma TickSafe(w: World, r: World)
    requires Safe(w) && w.now <= r.now && r == w.(now := r.now)
    ensures Safe(r)
  {
    forall id | id in w.flow.posts
      ensures PostOk(id, w.flow.posts[id], First(w.flow.posts, id), w.flow.events, r.now, NOTHING)
      ensures Entered(id, w.flow.posts[id], r)
    {
      assert Entered(id, w.flow.posts[id], w);
      LaterOk(id, w.flow.posts[id], First(w.flow.posts, id), w.flow.events, w.now, r.now);
    }
  }

  lemma SettingSafe(w: World, r: World)
    requires Safe(w) && r == w.(writable := r.writable, channels := r.channels, readable := r.readable, uploads := r.uploads)
    requires r.uploads.Keys <= w.uploads.Keys && forall u :: u in r.uploads ==> r.uploads[u] == w.uploads[u]
    ensures Safe(r)
  {
    SteadyLedger(w, r);
  }
}
