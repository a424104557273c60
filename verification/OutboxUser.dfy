/** What the user does: submitting a post, and reopening one that failed. */
module OutboxUser {
  import opened Prelude
  import opened OutboxModel
  import opened OutboxSafety
  import opened OutboxUploads
  import opened OutboxSteps
  import opened OutboxRuns

  // ---------------------------------------------------------------- submitting

  /** Staging attachments keeps everyone else in order. */
  lemma {:induction false} StageAllSafe(w: World, channel: Id, done: seq<Attachment>, todo: seq<Attachment>,
                                        uuids: seq<Id>, failed: bool, waiting: bool, r: World)
    requires Safe(w) && |uuids| == |todo|
    requires r == StagedWorld(StageAll(w, channel, done, todo, uuids, failed, waiting))
    ensures Safe(r)
    decreases |todo|, 1
  {
    if todo != [] {
      var a := todo[0];
      if a.fileId != "" {
        StageAllSafe(w, channel, done + [a], todo[1..], uuids[1..], failed, waiting, r);
      } else if a.path != "" {
        var u := if a.uploadId == "" then uuids[0] else a.uploadId;
        var w1 := Stage(w, channel, a.path, u);
        StageSafe(w, channel, a.path, u, w1);
        if u in w1.uploads {
          StageRest(w1, channel, done, todo, uuids, failed, waiting, u, r);
        }
      }
    }
  }

  lemma {:induction false} StageRest(w1: World, channel: Id, done: seq<Attachment>, todo: seq<Attachment>,
                                     uuids: seq<Id>, failed: bool, waiting: bool, u: Id, r: World)
    requires Safe(w1) && |uuids| == |todo| > 0 && u in w1.uploads
    requires
      var b := todo[0].(uploadId := u);
      r == StagedWorld(
        match w1.uploads[u].state
        case Ready => StageAll(w1, channel, done + [b.(fileId := w1.uploads[u].fileId)], todo[1..], uuids[1..], failed, waiting)
        case Broken => StageAll(w1, channel, done + [b], todo[1..], uuids[1..], true, waiting)
        case InProgress => StageAll(w1, channel, done + [b], todo[1..], uuids[1..], failed, true))
    ensures Safe(r)
    decreases |todo|, 0
  {
    var b := todo[0].(uploadId := u);
    match w1.uploads[u].state
    case Ready =>
      StageAllSafe(w1, channel, done + [b.(fileId := w1.uploads[u].fileId)], todo[1..], uuids[1..], failed, waiting, r);
    case Broken => StageAllSafe(w1, channel, done + [b], todo[1..], uuids[1..], true, waiting, r);
    case InProgress => StageAllSafe(w1, channel, done + [b], todo[1..], uuids[1..], failed, true, r);
  }

  /** A new post goes to the end of the line. */
  lemma AdmitPosts(w: World, id: Id, p: Post, f: Flow)
    requires Safe(w) && id !in w.used && id !in w.flow.posts
    requires p.state == Failed || p.state == Uploading || p.state == Queued
    requires p.window == w.now && p.ticket == w.tickets
    requires f.posts == w.flow.posts[id := p]
    requires f.events == w.flow.events + multiset{Start(p.conversation)} + multiset{Deadline(id, w.now, w.now + RETRY_WINDOW)}
    ensures PostsOk(f, None, w.now, NOTHING)
  {
    forall i | i in w.flow.posts
      ensures PostOk(i, w.flow.posts[i], First(f.posts, i), f.events, w.now, NOTHING)
    {
      assert Entered(i, w.flow.posts[i], w);
      AdmitFirst(w, id, p, i);
      MoreEvents(i, w.flow.posts[i], First(w.flow.posts, i), w.flow.events, f.events, w.now, NOTHING);
    }
    assert Quiet(id, f.events);
  }

  lemma AdmitFirst(w: World, id: Id, p: Post, i: Id)
    requires Ledger(w) && id !in w.flow.posts && p.ticket == w.tickets && i in w.flow.posts
    ensures First(w.flow.posts[id := p], i) <==> First(w.flow.posts, i)
  {
    var posts := w.flow.posts[id := p];
    assert Entered(i, w.flow.posts[i], w);
    if First(posts, i) {
      forall k | k in w.flow.posts && w.flow.posts[k].conversation == w.flow.posts[i].conversation
        ensures w.flow.posts[i].ticket <= w.flow.posts[k].ticket
      {
        assert k in posts && posts[k] == w.flow.posts[k];
      }
    }
  }

  lemma AdmitLedger(w: World, id: Id, p: Post, r: World)
    requires Ledger(w) && id !in w.flow.posts
    requires p.window == w.now && p.ticket == w.tickets && p.attempts == 0 && p.interveningCount == 0 && p.intervening == {}
    requires r.order == w.order + [id] && r.owned == w.owned + [id] && r.flow.posts == w.flow.posts[id := p]
    requires r.used == w.used + {id} && r.tickets == w.tickets + 1 && r.now == w.now && r.wire == w.wire
    ensures Ledger(r)
  {
    forall i | i in r.flow.posts
      ensures Entered(i, r.flow.posts[i], r)
    {
      if i != id {
        assert Entered(i, w.flow.posts[i], w);
      }
    }
    forall i, j | 0 <= i < j < |r.order|
      ensures r.flow.posts[r.order[i]].ticket < r.flow.posts[r.order[j]].ticket
    {
      assert w.order[i] in w.order;
      assert Entered(w.order[i], w.flow.posts[w.order[i]], w);
      if j < |w.order| {
        assert w.order[j] in w.order;
      }
    }
  }

  lemma Unused(w: World, id: Id)
    requires Ledger(w)
    ensures id !in w.used ==> id !in w.flow.posts
  {
  }

  lemma AdmitSafe(w: World, id: Id, p: Post, r: World)
    requires Safe(w) && id !in w.used && r == Admit(w, id, p).0
    requires p.state == Failed || p.state == Uploading || p.state == Queued
    requires p.window == w.now && p.ticket == w.tickets && p.attempts == 0 && p.interveningCount == 0 && p.intervening == {}
    ensures Safe(r)
  {
    if w.writable {
      AppendSafe(w, id, p, r);
    } else {
      RefuseSafe(w, id, p, r);
    }
  }

  /** What appending does to everything the invariant speaks of. */
  ghost predicate Appended(w: World, id: Id, p: Post, r: World) {
    && r.order == w.order + [id] && r.owned == w.owned + [id] && r.flow.posts == w.flow.posts[id := p]
    && r.flow.events == w.flow.events + multiset{Start(p.conversation)} + multiset{Deadline(id, w.now, w.now + RETRY_WINDOW)}
    && r.used == w.used + {id} && r.tickets == w.tickets + 1 && r.now == w.now && r.wire == w.wire
    && r.uploads == w.uploads
  }

  lemma AppendSafe(w: World, id: Id, p: Post, r: World)
    requires Safe(w) && id !in w.used && Appended(w, id, p, r)
    requires p.state == Failed || p.state == Uploading || p.state == Queued
    requires p.window == w.now && p.ticket == w.tickets && p.attempts == 0 && p.interveningCount == 0 && p.intervening == {}
    ensures Safe(r)
  {
    Unused(w, id);
    AdmitPosts(w, id, p, r.flow);
    AdmitLedger(w, id, p, r);
    AdmitEvents(w.flow.events, w.used, id, p.conversation, w.now);
    MoreUploadEvents(w.uploads, w.flow.events, r.flow.events, None);
  }

  lemma AdmitEvents(events: multiset<Event>, used: set<Id>, id: Id, c: Conversation, now: nat)
    requires EventsOk(events, used)
    ensures EventsOk(events + multiset{Start(c)} + multiset{Deadline(id, now, now + RETRY_WINDOW)}, used + {id})
  {
  }

  lemma RefuseSafe(w: World, id: Id, p: Post, r: World)
    requires Safe(w) && !w.writable && r == Admit(w, id, p).0
    ensures Safe(r)
  {
    ReleaseSome(w.uploads, p.attachments);
    forall i | i in w.flow.posts
      ensures Entered(i, w.flow.posts[i], r)
    {
      assert Entered(i, w.flow.posts[i], w);
    }
  }

  lemma SubmitSafe(w: World, d: Draft, r: World)
    requires Safe(w) && |d.uuids| == |d.attachments| && d.id !in w.used && r == Enqueue(w, d).0
    ensures Safe(r)
  {
    if Enqueueable(d) && d.id !in w.flow.posts {
      var s := StageAll(w, d.conversation.channel, [], d.attachments, d.uuids, false, false);
      StageAllSafe(w, d.conversation.channel, [], d.attachments, d.uuids, false, false, StagedWorld(s));
      if s.Staged? {
        AdmitSafe(s.world, d.id, NewPost(d, s.attachments, s.world.now, s.world.tickets, s.failed, s.waiting), r);
      }
    }
  }

  // ---------------------------------------------------------------- reopening a failed post

  lemma StageOutcome(w: World, channel: Id, path: string, u: Id)
    ensures Stage(w, channel, path, u) == w || (u in Stage(w, channel, path, u).uploads
              && Stage(w, channel, path, u).uploads[u].state != Ready)
  {
  }

  /** Naming an attachment's upload, or giving it the file it lacked, keeps its post in order. */
  lemma NameKeeps(f: Flow, id: Id, i: nat, a: Attachment, now: nat, o: Owed, g: Flow)
    requires PostsOk(f, None, now, o) && id in f.posts && i < |f.posts[id].attachments|
    requires a.fileId != "" || a.fileId == f.posts[id].attachments[i].fileId
    requires g == Put(f, id, f.posts[id].(attachments := f.posts[id].attachments[i := a]))
    ensures PostsOk(g, None, now, o)
  {
    assert PostOk(id, f.posts[id], First(f.posts, id), f.events, now, o);
    assert AttachmentsReady(f.posts[id]) ==> AttachmentsReady(g.posts[id]);
    NamedOk(id, f.posts[id], g.posts[id], First(f.posts, id), f.events, now, o);
    Move(f, id, g.posts[id], f.events, now, o);
  }

  lemma NamedOk(id: Id, p: Post, q: Post, first: bool, events: multiset<Event>, now: nat, o: Owed)
    requires PostOk(id, p, first, events, now, o) && q == p.(attachments := q.attachments)
    requires AttachmentsReady(p) ==> AttachmentsReady(q)
    ensures PostOk(id, q, first, events, now, o)
  {
  }

  /** Deliveries with an owed deadline, uploads in order, books in order: the state inside a user retry. */
  ghost predicate Reopening(w: World, id: Id) {
    && Ordered(w.order, w.flow.posts) && w.owned == w.order
    && PostsOk(w.flow, None, w.now, Owed({}, {id})) && UploadsOk(w.uploads, w.flow.events, None)
  }

  lemma CalmOrdered(w: World, v: World)
    requires Ordered(w.order, w.flow.posts) && w.owned == w.order && Calm(w, v)
    ensures Ordered(v.order, v.flow.posts) && v.owned == v.order
  {
    RowsPlaces(w.flow.posts, v.flow.posts);
    SameOrdered(w.order, w.flow.posts, v.flow.posts);
  }

  lemma StageReopening(w: World, id: Id, channel: Id, path: string, u: Id, v: World)
    requires Reopening(w, id) && v == Stage(w, channel, path, u)
    ensures Reopening(v, id)
  {
    StageKeeps(w, channel, path, u, Owed({}, {id}));
    CalmOrdered(w, v);
  }

  lemma RetryReopening(w: World, id: Id, u: Id, v: World)
    requires Reopening(w, id) && v == RetryUpload(w, u)
    ensures Reopening(v, id)
  {
    RetryUploadKeeps(w, u, Owed({}, {id}));
    CalmOrdered(w, v);
  }

  lemma NameReopening(w: World, id: Id, i: nat, a: Attachment, v: World)
    requires Reopening(w, id) && id in w.flow.posts && i < |w.flow.posts[id].attachments|
    requires a.path == w.flow.posts[id].attachments[i].path && v == SetAttachment(w, id, i, a)
    requires a.fileId != "" || a.fileId == w.flow.posts[id].attachments[i].fileId
    ensures Reopening(v, id)
  {
    NameKeeps(w.flow, id, i, a, w.now, Owed({}, {id}), v.flow);
    CalmOrdered(w, v);
  }

  /** When no upload had to be waited for, the post is where the retry put it and nothing new is pending. */
  ghost predicate Untouched(w: World, v: World, id: Id)
    requires id in w.flow.posts && id in v.flow.posts
  {
    v.flow.events == w.flow.events && v.flow.posts[id].state == w.flow.posts[id].state
  }

  lemma RestartOneKeeps(w: World, id: Id, i: nat, uuid: Id, r: (World, bool))
    requires Reopening(w, id) && id in w.flow.posts && i < |w.flow.posts[id].attachments|
    requires r == RestartOne(w, id, i, uuid)
    ensures Reopening(r.0, id) && (!r.1 ==> Untouched(w, r.0, id))
  {
    var a := w.flow.posts[id].attachments[i];
    if a.fileId == "" {
      var channel := w.flow.posts[id].conversation.channel;
      var restage := a.uploadId !in w.uploads && channel in w.channels && a.path != "";
      var u := if restage && a.uploadId == "" then uuid else a.uploadId;
      var w1 := if restage then Stage(w, channel, a.path, u) else w;
      if restage {
        StageReopening(w, id, channel, a.path, u, w1);
        StageOutcome(w, channel, a.path, u);
      }
      NamedReopening(w1, id, i, u, r);
    }
  }

  lemma NamedReopening(w1: World, id: Id, i: nat, u: Id, r: (World, bool))
    requires Reopening(w1, id) && id in w1.flow.posts && i < |w1.flow.posts[id].attachments|
    requires
      var b := w1.flow.posts[id].attachments[i];
      var w2 := SetAttachment(w1, id, i, b.(uploadId := u));
      r == if u in w2.uploads && w2.uploads[u].state == Ready
           then (SetAttachment(w2, id, i, b.(uploadId := u, fileId := w2.uploads[u].fileId)), false)
           else (RetryUpload(w2, u), true)
    ensures Reopening(r.0, id)
    ensures !r.1 ==> Untouched(w1, r.0, id) && u in w1.uploads && w1.uploads[u].state == Ready
  {
    var b := w1.flow.posts[id].attachments[i];
    var w2 := SetAttachment(w1, id, i, b.(uploadId := u));
    NameReopening(w1, id, i, b.(uploadId := u), w2);
    if u in w2.uploads && w2.uploads[u].state == Ready {
      assert UploadOk(u, w2.uploads[u], w2.flow.events);
      NameReopening(w2, id, i, b.(uploadId := u, fileId := w2.uploads[u].fileId), r.0);
    } else {
      RetryReopening(w2, id, u, r.0);
    }
  }

  lemma {:induction false} RestartAllKeeps(w: World, id: Id, i: nat, uuids: seq<Id>, r: (World, bool))
    requires Reopening(w, id) && id in w.flow.posts && i <= |w.flow.posts[id].attachments| == |uuids|
    requires r == RestartAll(w, id, i, uuids)
    ensures Reopening(r.0, id) && (!r.1 ==> Untouched(w, r.0, id))
    decreases |uuids| - i
  {
    if i < |uuids| {
      var one := RestartOne(w, id, i, uuids[i]);
      RestartOneKeeps(w, id, i, uuids[i], one);
      RestartAllKeeps(one.0, id, i + 1, uuids, RestartAll(one.0, id, i + 1, uuids));
    }
  }

  lemma ReopenPosts(w: World, id: Id, q: Post, v: World)
    requires Safe(w) && id in w.flow.posts && w.flow.posts[id].state == Failed
    requires q.state == Uploading && SamePlace(w.flow.posts[id], q) && v == w.(flow := Put(w.flow, id, q))
    ensures Reopening(v, id)
  {
    var o := Owed({}, {id});
    assert PostOk(id, w.flow.posts[id], First(w.flow.posts, id), w.flow.events, w.now, NOTHING);
    OthersOwe(w.flow, id, w.now, o);
    Move(w.flow, id, q, w.flow.events, w.now, o);
    assert SamePlaces(w.flow.posts, v.flow.posts);
    SameOrdered(w.order, w.flow.posts, v.flow.posts);
  }

  lemma ReopenLedger(w: World, id: Id, tail: nat, v: World)
    requires Ledger(w) && id in w.flow.posts && v == Reopen(w, id, tail)
    ensures Ledger(v)
  {
    forall i | i in v.flow.posts
      ensures Entered(i, v.flow.posts[i], v)
    {
      assert Entered(i, w.flow.posts[i], w);
    }
    assert SamePlaces(w.flow.posts, v.flow.posts);
    PlacedLedger(w, v);
  }

  /** With its deadline and a start of its conversation scheduled, the reopened post is back in order. */
  lemma Scheduled(f: Flow, id: Id, now: nat, g: Flow)
    requires id in f.posts && PostsOk(f, None, now, Owed({f.posts[id].conversation}, {id}))
    requires f.posts[id].window == now
    requires g == Later(Later(f, Deadline(id, now, now + RETRY_WINDOW)), Start(f.posts[id].conversation))
    ensures PostsOk(g, None, now, NOTHING)
  {
    var o := Owed({f.posts[id].conversation}, {id});
    forall i | i in f.posts
      ensures PostOk(i, f.posts[i], First(f.posts, i), g.events, now, NOTHING)
    {
      assert PostOk(i, f.posts[i], First(f.posts, i), f.events, now, o);
      MoreEvents(i, f.posts[i], First(f.posts, i), f.events, g.events, now, o);
      Paid(i, f.posts[i], First(f.posts, i), g.events, now, o);
    }
  }

  lemma Paid(i: Id, p: Post, first: bool, events: multiset<Event>, now: nat, o: Owed)
    requires PostOk(i, p, first, events, now, o)
    requires i in o.deadlines ==> Deadline(i, p.window, p.window + RETRY_WINDOW) in events
    requires p.conversation in o.starts ==> Start(p.conversation) in events
    ensures PostOk(i, p, first, events, now, NOTHING)
  {
  }

  /** The post as the retry leaves it before scheduling: waiting for uploads, or queued. */
  lemma ReopenedFlow(v: World, id: Id, r: (World, bool), f: Flow)
    requires id in v.flow.posts && v.flow.posts[id].state == Uploading && Quiet(id, v.flow.events)
    requires id in r.0.flow.posts && Reopening(r.0, id) && (!r.1 ==> Untouched(v, r.0, id))
    requires f == if r.1 then r.0.flow else Requeue(r.0.flow, id)
    ensures PostsOk(f, None, r.0.now, Owed({r.0.flow.posts[id].conversation}, {id}))
  {
    var o := Owed({r.0.flow.posts[id].conversation}, {id});
    assert PostOk(id, r.0.flow.posts[id], First(r.0.flow.posts, id), r.0.flow.events, r.0.now, Owed({}, {id}));
    Weaken(r.0.flow, r.0.now, Owed({}, {id}), o);
    if !r.1 {
      Move(r.0.flow, id, Requeue(r.0.flow, id).posts[id], r.0.flow.events, r.0.now, o);
    }
  }

  lemma Weaken(f: Flow, now: nat, o: Owed, o': Owed)
    requires PostsOk(f, None, now, o) && o.starts <= o'.starts && o.deadlines <= o'.deadlines
    ensures PostsOk(f, None, now, o')
  {
    forall i | i in f.posts
      ensures PostOk(i, f.posts[i], First(f.posts, i), f.events, now, o')
    {
      assert PostOk(i, f.posts[i], First(f.posts, i), f.events, now, o);
    }
  }

  lemma ResumeBooks(w: World, waiting: bool, id: Id, r: World)
    requires Ledger(w) && EventsOk(w.flow.events, w.used) && id in w.flow.posts && r == Resume(w, waiting, id)
    ensures Ledger(r) && EventsOk(r.flow.events, r.used) && w.flow.events <= r.flow.events
  {
    assert Entered(id, w.flow.posts[id], w);
    assert SameRows(w.flow.posts, r.flow.posts);
    SteadyLedger(w, r);
  }

  lemma ResumeSafe(v: World, id: Id, w: World, waiting: bool, r: World)
    requires id in v.flow.posts && v.flow.posts[id].state == Uploading && Quiet(id, v.flow.events)
    requires id in w.flow.posts && Reopening(w, id) && (!waiting ==> Untouched(v, w, id))
    requires w.flow.posts[id].window == w.now && Ledger(w) && EventsOk(w.flow.events, w.used)
    requires r == Resume(w, waiting, id)
    ensures Safe(r)
  {
    ResumeFlow(v, id, w, waiting, r);
    ResumeBooks(w, waiting, id, r);
    ResumeUploads(w, waiting, id, r);
  }

  lemma ResumeFlow(v: World, id: Id, w: World, waiting: bool, r: World)
    requires id in v.flow.posts && v.flow.posts[id].state == Uploading && Quiet(id, v.flow.events)
    requires id in w.flow.posts && Reopening(w, id) && (!waiting ==> Untouched(v, w, id))
    requires w.flow.posts[id].window == w.now && r == Resume(w, waiting, id)
    ensures PostsOk(r.flow, None, w.now, NOTHING)
  {
    var f := ResumedFlow(w, waiting, id, r);
    ReopenedFlow(v, id, (w, waiting), f);
    Scheduled(f, id, w.now, r.flow);
  }

  lemma ResumedFlow(w: World, waiting: bool, id: Id, r: World) returns (f: Flow)
    requires id in w.flow.posts && r == Resume(w, waiting, id)
    ensures f == (if waiting then w.flow else Requeue(w.flow, id)) && id in f.posts
    ensures f.posts[id].window == w.flow.posts[id].window && f.posts[id].conversation == w.flow.posts[id].conversation
    ensures r.flow == Later(Later(f, Deadline(id, w.now, w.now + RETRY_WINDOW)), Start(f.posts[id].conversation))
  {
    f := if waiting then w.flow else Requeue(w.flow, id);
  }

  lemma ResumeUploads(w: World, waiting: bool, id: Id, r: World)
    requires UploadsOk(w.uploads, w.flow.events, None) && id in w.flow.posts && r == Resume(w, waiting, id)
    requires w.flow.events <= r.flow.events
    ensures UploadsOk(r.uploads, r.flow.events, None)
  {
    MoreUploadEvents(w.uploads, w.flow.events, r.flow.events, None);
  }

  lemma RestartBooks(v: World, id: Id, w: World)
    requires Ledger(v) && EventsOk(v.flow.events, v.used) && Calm(v, w) && id in v.flow.posts
    ensures Ledger(w) && EventsOk(w.flow.events, w.used) && id in w.flow.posts
    ensures w.flow.posts[id].window == v.flow.posts[id].window && w.now == v.now
  {
    SteadyLedger(v, w);
    MildEvents(v.flow.events, w.flow.events, v.used);
    RowFacts(v.flow.posts[id], w.flow.posts[id]);
  }

  lemma ReopenSafe(v: World, id: Id, uuids: seq<Id>, all: (World, bool), r: World)
    requires Reopening(v, id) && Ledger(v) && EventsOk(v.flow.events, v.used) && id in v.flow.posts
    requires v.flow.posts[id].state == Uploading && v.flow.posts[id].window == v.now && Quiet(id, v.flow.events)
    requires |uuids| == |v.flow.posts[id].attachments|
    requires all == RestartAll(v, id, 0, uuids) && r == Resume(all.0, all.1, id)
    ensures Safe(r)
  {
    RestartAllKeeps(v, id, 0, uuids, all);
    RestartBooks(v, id, all.0);
    ResumeSafe(v, id, all.0, all.1, r);
  }

  lemma UserRetrySafe(w: World, id: Id, tail: nat, uuids: seq<Id>, r: World)
    requires Safe(w) && id in w.flow.posts && |uuids| == |w.flow.posts[id].attachments|
    requires r == Retry(w, id, tail, uuids)
    ensures Safe(r)
  {
    if w.flow.posts[id].state == Failed {
      var v := Reopen(w, id, tail);
      ReopenPosts(w, id, v.flow.posts[id], v);
      ReopenLedger(w, id, tail, v);
      assert PostOk(id, w.flow.posts[id], First(w.flow.posts, id), w.flow.events, w.now, NOTHING);
      ReopenSafe(v, id, uuids, RestartAll(v, id, 0, uuids), r);
    }
  }
}
