/** The outbox as the service keeps it: fields updated in place, loops over the order; each method refines its transition. */
module OutboxService {
  import opened Prelude
  import opened OutboxModel
  import opened OutboxSafety
  import OutboxTheorems

  // ---------------------------------------------------------------- facts about the loops' specifications

  ghost predicate Ascending(ids: seq<Id>, posts: map<Id, Post>) {
    && (forall id :: id in ids ==> id in posts)
    && forall i, j :: 0 <= i < j < |ids| ==> posts[ids[i]].ticket < posts[ids[j]].ticket
  }

  lemma Prepend(id: Id, ids: seq<Id>, posts: map<Id, Post>)
    requires id in posts && Ascending(ids, posts)
    requires forall o :: o in ids ==> posts[id].ticket < posts[o].ticket
    ensures Ascending([id] + ids, posts)
  {
  }

  lemma {:induction false} PendingAscending(order: seq<Id>, posts: map<Id, Post>, c: Conversation)
    requires Ascending(order, posts)
    ensures Ascending(PendingIds(order, posts, c), posts)
  {
    if order != [] {
      assert Ascending(order[1..], posts) by {
        assert forall i :: 0 <= i < |order| - 1 ==> order[1..][i] == order[i + 1];
      }
      PendingAscending(order[1..], posts, c);
      if posts[order[0]].conversation == c {
        forall o | o in PendingIds(order[1..], posts, c) ensures posts[order[0]].ticket < posts[o].ticket {
          assert o in order[1..];
        }
        Prepend(order[0], PendingIds(order[1..], posts, c), posts);
      }
    }
  }

  lemma PendingStep(order: seq<Id>, posts: map<Id, Post>, c: Conversation, i: nat)
    requires i < |order|
    ensures PendingIds(order[i..], posts, c)
      == (if order[i] in posts && posts[order[i]].conversation == c then [order[i]] else []) + PendingIds(order[i + 1..], posts, c)
  {
    assert order[i..][0] == order[i] && order[i..][1..] == order[i + 1..];
  }

  lemma PendingDistinct(order: seq<Id>, posts: map<Id, Post>, c: Conversation)
    requires Ordered(order, posts)
    ensures Distinct(PendingIds(order, posts, c))
  {
    assert Ascending(order, posts);
    PendingAscending(order, posts, c);
  }

  /** A loop over identifiers that rewrites one row after the other. */
  ghost function Each(posts: map<Id, Post>, ids: seq<Id>, f: (Id, Post) -> Post): map<Id, Post> {
    if ids == [] || ids[0] !in posts then posts
    else Each(posts[ids[0] := f(ids[0], posts[ids[0]])], ids[1..], f)
  }

  lemma {:induction false} EachAt(posts: map<Id, Post>, ids: seq<Id>, f: (Id, Post) -> Post)
    requires Distinct(ids) && forall id :: id in ids ==> id in posts
    ensures Each(posts, ids, f) == map id | id in posts :: if id in ids then f(id, posts[id]) else posts[id]
  {
    if ids != [] {
      var id := ids[0];
      assert forall j :: 0 <= j < |ids| - 1 ==> ids[1..][j] == ids[j + 1];
      assert id !in ids[1..];
      EachAt(posts[id := f(id, posts[id])], ids[1..], f);
    }
  }

  lemma EachStep(posts: map<Id, Post>, ids: seq<Id>, i: nat, f: (Id, Post) -> Post)
    requires i < |ids| && ids[i] in posts
    ensures Each(posts, ids[i..], f) == Each(posts[ids[i] := f(ids[i], posts[ids[i]])], ids[i + 1..], f)
  {
    assert ids[i..][0] == ids[i] && ids[i..][1..] == ids[i + 1..];
  }

  ghost function Blocking(): (Id, Post) -> Post {
    (_, p) => BlockPost(p)
  }

  ghost function Counting(a: Arrival, head: Id): (Id, Post) -> Post {
    (id, p) => Overtaken(p, a, id == head)
  }

  ghost function Noticing(u: Id, upload: Upload): (Id, Post) -> Post {
    (_, p) => Notice(p, u, upload)
  }

  lemma EachBlocked(order: seq<Id>, posts: map<Id, Post>, c: Conversation)
    requires Ordered(order, posts) && PendingIds(order, posts, c) != []
    ensures var ids := PendingIds(order, posts, c);
      Each(posts, ids[1..], Blocking()) == BlockLater(posts, c, ids[0])
  {
    var ids := PendingIds(order, posts, c);
    PendingDistinct(order, posts, c);
    assert ids == [ids[0]] + ids[1..];
    assert forall id :: id in ids[1..] <==> id in ids && id != ids[0];
    EachAt(posts, ids[1..], Blocking());
    assert forall id :: id in posts ==> (id in ids[1..] <==> posts[id].conversation == c && id != ids[0]);
    SameBlocked(posts, ids[1..], c, ids[0]);
  }

  lemma SameBlocked(posts: map<Id, Post>, later: seq<Id>, c: Conversation, head: Id)
    requires forall id :: id in posts ==> (id in later <==> posts[id].conversation == c && id != head)
    ensures (map id | id in posts :: if id in later then Blocking()(id, posts[id]) else posts[id]) == BlockLater(posts, c, head)
  {
  }

  lemma EachCounted(order: seq<Id>, posts: map<Id, Post>, a: Arrival)
    requires Ordered(order, posts) && PendingIds(order, posts, a.conversation) != []
    ensures var ids := PendingIds(order, posts, a.conversation);
      Each(posts, ids, Counting(a, ids[0])) == OvertakenAll(posts, a, Some(ids[0]))
  {
    PendingDistinct(order, posts, a.conversation);
    EachAt(posts, PendingIds(order, posts, a.conversation), Counting(a, PendingIds(order, posts, a.conversation)[0]));
  }

  lemma EachNoticed(order: seq<Id>, posts: map<Id, Post>, u: Id, upload: Upload)
    requires Ordered(order, posts)
    ensures Each(posts, order, Noticing(u, upload)) == NoticeAll(posts, u, upload)
  {
    assert Distinct(order);
    EachAt(posts, order, Noticing(u, upload));
  }

  /** The conversations noted so far, after one more post. */
  ghost function Noted(cs: seq<Conversation>, p: Post, u: Id): seq<Conversation> {
    if Waits(p, u) && p.conversation !in cs then cs + [p.conversation] else cs
  }

  ghost function Members(cs: seq<Conversation>): set<Conversation> {
    set c | c in cs
  }

  lemma AffectedStep(owned: seq<Id>, posts: map<Id, Post>, u: Id, i: nat, cs: seq<Conversation>)
    requires i < |owned| && owned[i] in posts
    ensures var cs' := Noted(cs, posts[owned[i]], u);
      cs + Affected(owned[i..], posts, u, Members(cs)) == cs' + Affected(owned[i + 1..], posts, u, Members(cs'))
  {
    var p := posts[owned[i]];
    assert owned[i..][0] == owned[i] && owned[i..][1..] == owned[i + 1..];
    if Waits(p, u) && p.conversation !in cs {
      assert Members(cs + [p.conversation]) == Members(cs) + {p.conversation};
    }
  }

  lemma NeverThere(posts: map<Id, Post>, id: Id, p: Post)
    requires id !in posts
    ensures posts[id := p] - {id} == posts
  {
  }

  lemma StartForm(w: World, u: Id)
    ensures u !in w.uploads ==> StartUpload(w, u) == w
    ensures u in w.uploads && w.uploads[u].channel !in w.channels ==>
      StartUpload(w, u) == UploadChanged(SetUpload(w, u, Broken, "", w.uploads[u].generation + 1), u)
  {
    if u in w.uploads && w.uploads[u].channel !in w.channels {
      UnreachableForm(w, u, w.uploads[u].generation + 1);
    }
  }

  lemma UnreachableForm(w: World, u: Id, g: nat)
    requires u in w.uploads && w.uploads[u].channel !in w.channels && g == w.uploads[u].generation + 1
    ensures StartUpload(w, u) == UploadChanged(SetUpload(w, u, Broken, "", g), u)
  {
  }

  /** The posts from position i on are as they were. */
  ghost predicate Ahead(owned: seq<Id>, i: nat, now: map<Id, Post>, before: map<Id, Post>) {
    forall j :: i <= j < |owned| ==> owned[j] in now && owned[j] in before && now[owned[j]] == before[owned[j]]
  }

  lemma AheadStep(owned: seq<Id>, i: nat, now: map<Id, Post>, before: map<Id, Post>, p: Post)
    requires Distinct(owned) && i < |owned| && Ahead(owned, i, now, before)
    ensures now[owned[i]] == before[owned[i]] && Ahead(owned, i + 1, now[owned[i] := p], before)
  {
  }

  lemma AdvanceForm(f: Flow, head: Id, now: nat)
    requires head in f.posts
    ensures var p := f.posts[head];
      Advance(f, head, now) ==
        if p.state == Failed || p.state == Uploading || p.state == Sending || p.state == RetryWait then f
        else if p.interveningCount >= MAX_INTERVENING || now - p.window >= RETRY_WINDOW then Fail(f, head)
        else Later(Put(f, head, p.(state := Queued, generation := p.generation + 1)), Fire(head, p.generation + 1))
  {
    var q := Advanced(f.posts[head], now);
    if q == f.posts[head] {
      assert f.posts[head := q] == f.posts;
    }
    if q.state != Queued {
      assert f.events + multiset{} == f.events;
    }
  }

  /** A running upload whose completion is on its way, or that failed at once. */
  function Running(w: World, u: Id, generation: nat, present: bool): World {
    if present then w.(flow := Later(w.flow, UploadReply(u, generation))) else FinishUpload(w, u, generation, "")
  }

  lemma RunningForm(w: World, u: Id, generation: nat, present: bool)
    requires u in w.uploads && w.uploads[u].channel in w.channels
    requires generation == w.uploads[u].generation + 1 && present == (w.uploads[u].path in w.readable)
    ensures StartUpload(w, u)
      == Running(UploadChanged(SetUpload(w, u, InProgress, "", generation), u), u, generation, present)
  {
  }

  /** Posts that keep their ticket keep the order. */
  lemma CalmTidy(w: World, v: World)
    requires Calm(w, v) && Ordered(w.order, w.flow.posts) && w.owned == w.order
    ensures Ordered(v.order, v.flow.posts) && v.owned == v.order
  {
    forall id | id in w.flow.posts ensures v.flow.posts[id].ticket == w.flow.posts[id].ticket {
      assert Intent(v.flow.posts[id]).ticket == Intent(w.flow.posts[id]).ticket;
    }
  }

  class PendingPostService {
    /** The service's fields, the uploads it observes and its environment, updated in place. */
    var s: World

    ghost predicate Tidy()
      reads this
    {
      Ordered(s.order, s.flow.posts) && s.owned == s.order
    }

    // -------------------------------------------------------------- queries

    method PendingIdsOf(c: Conversation) returns (ids: seq<Id>)
      ensures ids == PendingIds(s.order, s.flow.posts, c)
    {
      ids := [];
      var i := 0;
      while i < |s.order|
        invariant i <= |s.order|
        invariant ids + PendingIds(s.order[i..], s.flow.posts, c) == PendingIds(s.order, s.flow.posts, c)
      {
        PendingStep(s.order, s.flow.posts, c, i);
        var id := s.order[i];
        if id in s.flow.posts && s.flow.posts[id].conversation == c {
          ids := ids + [id];
        }
        i := i + 1;
      }
    }

    method FirstPendingId(c: Conversation) returns (first: Option<Id>)
      ensures first == Head(s.order, s.flow.posts, c)
    {
      var i := 0;
      while i < |s.order|
        invariant i <= |s.order|
        invariant PendingIds(s.order[i..], s.flow.posts, c) == PendingIds(s.order, s.flow.posts, c)
      {
        PendingStep(s.order, s.flow.posts, c, i);
        var id := s.order[i];
        if id in s.flow.posts && s.flow.posts[id].conversation == c {
          return Some(id);
        }
        i := i + 1;
      }
      return None;
    }

    /** Work handed to a timer or to the network. */
    method Pend(e: Event)
      modifies this
      ensures s == old(s).(flow := Later(old(s).flow, e))
    {
      s := s.(flow := s.flow.(events := s.flow.events + multiset{e}));
    }

    method SetPost(id: Id, p: Post)
      modifies this
      ensures s == old(s).(flow := Put(old(s).flow, id, p))
    {
      s := s.(flow := s.flow.(posts := s.flow.posts[id := p]));
    }

    // -------------------------------------------------------------- persistence

    method Persist() returns (ok: bool)
      modifies this
      ensures ok == old(s).writable
      ensures s == if ok then old(s).(disk := old(s).backlog + Records(old(s).order, old(s).flow.posts)) else old(s)
    {
      var rows: seq<Record> := s.backlog;
      var i := 0;
      while i < |s.order|
        invariant i <= |s.order| && s == old(s)
        invariant rows + Records(s.order[i..], s.flow.posts) == s.backlog + Records(s.order, s.flow.posts)
      {
        var id := s.order[i];
        if id in s.flow.posts {
          rows := rows + [RecordOf(id, s.flow.posts[id])];
        }
        i := i + 1;
      }
      ok := s.writable;
      if ok {
        s := s.(disk := rows);
      }
    }

    method PersistBestEffort()
      modifies this
      ensures s == SaveBestEffort(old(s))
    {
      var ok := Persist();
      if ok {
        s := s.(saveScheduled := false);
      } else if !s.saveScheduled {
        s := s.(saveScheduled := true);
        Pend(SaveAgain(s.now + SAVE_RETRY));
      }
    }

    // -------------------------------------------------------------- delivery

    method FailNow(id: Id)
      requires id in s.flow.posts
      modifies this
      ensures s == old(s).(flow := Fail(old(s).flow, id))
    {
      var p := s.flow.posts[id];
      SetPost(id, p.(state := Failed, generation := p.generation + 1));
    }

    /** The loop that blocks everything behind the head. */
    method BlockBehind(ids: seq<Id>)
      requires ids != [] && forall id :: id in ids ==> id in s.flow.posts
      modifies this
      ensures s == old(s).(flow := old(s).flow.(posts := Each(old(s).flow.posts, ids[1..], Blocking())))
    {
      var i := 1;
      while i < |ids|
        invariant 1 <= i <= |ids|
        invariant s == old(s).(flow := old(s).flow.(posts := s.flow.posts))
        invariant s.flow.posts.Keys == old(s).flow.posts.Keys
        invariant Each(s.flow.posts, ids[i..], Blocking()) == Each(old(s).flow.posts, ids[1..], Blocking())
      {
        EachStep(s.flow.posts, ids, i, Blocking());
        BlockOne(ids[i]);
        i := i + 1;
      }
    }

    method BlockOne(id: Id)
      requires id in s.flow.posts
      modifies this
      ensures s == old(s).(flow := Put(old(s).flow, id, BlockPost(old(s).flow.posts[id])))
    {
      var p := s.flow.posts[id];
      if p.state == Failed || p.state == Blocked {
        assert s.flow.posts[id := p] == s.flow.posts;
        return;
      }
      SetPost(id, p.(state := Blocked, generation := p.generation + 1));
    }

    method TryStartConversation(c: Conversation)
      requires Tidy()
      modifies this
      ensures s == old(s).(flow := TryStart(old(s).flow, old(s).order, old(s).now, c))
      ensures Tidy()
    {
      CalmTidy(s, s.(flow := TryStart(s.flow, s.order, s.now, c)));
      var ids := PendingIdsOf(c);
      if |ids| == 0 {
        return;
      }
      EachBlocked(s.order, s.flow.posts, c);
      BlockBehind(ids);
      AdvanceHead(ids[0]);
    }

    method AdvanceHead(head: Id)
      requires head in s.flow.posts
      modifies this
      ensures s == old(s).(flow := Advance(old(s).flow, head, old(s).now))
    {
      AdvanceForm(s.flow, head, s.now);
      var p := s.flow.posts[head];
      if p.state == Failed || p.state == Uploading || p.state == Sending || p.state == RetryWait {
        return;
      }
      if p.interveningCount >= MAX_INTERVENING || s.now - p.window >= RETRY_WINDOW {
        FailNow(head);
        return;
      }
      SetPost(head, p.(state := Queued, generation := p.generation + 1));
      Pend(Fire(head, p.generation + 1));
    }

    method AttemptNow(id: Id)
      modifies this
      ensures s == Attempt(old(s), id)
    {
      if id !in s.flow.posts {
        return;
      }
      var p := s.flow.posts[id];
      var first := FirstPendingId(p.conversation);
      if first != Some(id) {
        return;
      }
      if p.attempts >= MAX_ATTEMPTS || s.now - p.window >= RETRY_WINDOW
         || p.interveningCount >= MAX_INTERVENING || p.conversation.channel !in s.channels
      {
        FailNow(id);
        return;
      }
      if !AttachmentsReady(p) {
        SetPost(id, p.(state := Uploading, generation := p.generation + 1));
        return;
      }
      var q := p.(attempts := p.attempts + 1, state := Sending, generation := p.generation + 1);
      SetPost(id, q);
      Pend(Reply(id, q.generation));
      s := s.(wire := s.wire + [Line(id, q, s.now)]);
    }

    method ScheduleRetryOf(id: Id)
      requires id in s.flow.posts
      modifies this
      ensures s == old(s).(flow := ScheduleRetry(old(s).flow, id, old(s).now))
    {
      var p := s.flow.posts[id];
      if p.attempts <= 0 || p.attempts >= MAX_ATTEMPTS {
        FailNow(id);
        return;
      }
      var delay := RETRY_DELAYS[Min(p.attempts - 1, |RETRY_DELAYS| - 1)];
      var remaining := RETRY_WINDOW - (s.now - p.window);
      if remaining <= 0 {
        FailNow(id);
        return;
      }
      SetPost(id, p.(state := RetryWait, generation := p.generation + 1));
      Pend(RetryDue(id, p.generation + 1, s.now + Min(delay, remaining)));
    }

    method ReleaseUploads(atts: seq<Attachment>)
      modifies this
      ensures s == old(s).(uploads := ReleaseAll(old(s).uploads, atts))
    {
      var i := 0;
      while i < |atts|
        invariant i <= |atts| && s == old(s).(uploads := s.uploads)
        invariant ReleaseAll(s.uploads, atts[i..]) == ReleaseAll(old(s).uploads, atts)
      {
        if atts[i].uploadId != "" {
          s := s.(uploads := s.uploads - {atts[i].uploadId});
        }
        i := i + 1;
      }
    }

    method RemovePost(id: Id)
      modifies this
      ensures s == Remove(old(s), id)
    {
      if id !in s.flow.posts {
        return;
      }
      var c := s.flow.posts[id].conversation;
      ReleaseUploads(s.flow.posts[id].attachments);
      s := s.(order := Without(s.order, id), owned := Without(s.owned, id),
              flow := s.flow.(posts := s.flow.posts - {id}));
      PersistBestEffort();
      Pend(Start(c));
    }

    method ConfirmPost(id: Id, serverId: Id)
      modifies this
      ensures s == Confirm(old(s), id, serverId)
    {
      if id !in s.flow.posts {
        return;
      }
      if serverId != "" {
        s := s.(confirmed := s.confirmed + {serverId});
        Pend(Forget(serverId, s.now + RETRY_WINDOW));
      }
      RemovePost(id);
    }

    /** What a create-post request's completion does. */
    method PostCreated(id: Id, generation: nat, outcome: Outcome)
      modifies this
      ensures s == OnReply(old(s), id, generation, outcome)
    {
      if id !in s.flow.posts {
        return;
      }
      if outcome.Accepted? {
        ConfirmPost(id, outcome.serverId);
        return;
      }
      var p := s.flow.posts[id];
      if p.generation != generation || p.state == Failed {
        return;
      }
      if outcome.retryable && p.attempts < MAX_ATTEMPTS && s.now - p.window < RETRY_WINDOW
         && p.interveningCount < MAX_INTERVENING
      {
        ScheduleRetryOf(id);
      } else {
        FailNow(id);
      }
    }

    method RetryTimer(id: Id, generation: nat)
      requires Tidy()
      modifies this
      ensures s == OnRetryDue(old(s), id, generation)
    {
      if id !in s.flow.posts || s.flow.posts[id].generation != generation || s.flow.posts[id].state != RetryWait {
        return;
      }
      var p := s.flow.posts[id];
      SetPost(id, p.(state := Queued, generation := p.generation + 1));
      assert s == old(s).(flow := Requeue(old(s).flow, id));
      TryStartConversation(p.conversation);
    }

    method DeadlineTimer(id: Id, window: nat)
      modifies this
      ensures s == OnDeadline(old(s), id, window)
    {
      if id !in s.flow.posts || s.flow.posts[id].state == Failed || s.flow.posts[id].window != window {
        return;
      }
      if s.flow.posts[id].state == Sending {
        return;
      }
      FailNow(id);
    }

    // -------------------------------------------------------------- authoritative posts

    /** The loop that counts an arrival against every waiting post of its conversation. */
    method CountArrival(ids: seq<Id>, a: Arrival)
      requires ids != [] && Distinct(ids) && forall id :: id in ids ==> id in s.flow.posts
      modifies this
      ensures s == old(s).(flow := old(s).flow.(posts := Each(old(s).flow.posts, ids, Counting(a, ids[0]))))
    {
      ghost var f := Counting(a, ids[0]);
      var i := 0;
      while i < |ids|
        invariant i <= |ids|
        invariant s == old(s).(flow := old(s).flow.(posts := s.flow.posts))
        invariant s.flow.posts.Keys == old(s).flow.posts.Keys
        invariant Each(s.flow.posts, ids[i..], f) == Each(old(s).flow.posts, ids, f)
      {
        EachStep(s.flow.posts, ids, i, f);
        CountOne(ids[i], a, i == 0);
        i := i + 1;
      }
    }

    method CountOne(id: Id, a: Arrival, head: bool)
      requires id in s.flow.posts
      modifies this
      ensures s == old(s).(flow := Put(old(s).flow, id, Overtaken(old(s).flow.posts[id], a, head)))
    {
      var p := s.flow.posts[id];
      if a.id in p.intervening || (p.tail > 0 && a.createAt <= p.tail) {
        assert s.flow.posts[id := p] == s.flow.posts;
        return;
      }
      var seen := p.intervening + {a.id};
      var q := p.(intervening := seen, interveningCount := |seen|);
      if head && q.state != Failed && q.state != Sending && q.interveningCount >= MAX_INTERVENING {
        q := q.(state := Failed, generation := q.generation + 1);
      }
      SetPost(id, q);
    }

    method HandleAuthoritativePost(a: Arrival)
      requires Tidy()
      modifies this
      ensures s == Authoritative(old(s), a)
    {
      if a.id != "" && a.id in s.confirmed {
        return;
      }
      if a.pendingId != "" && a.pendingId in s.flow.posts {
        ConfirmPost(a.pendingId, a.id);
        return;
      }
      var ids := PendingIdsOf(a.conversation);
      if |ids| == 0 || a.id == "" || !a.visible {
        return;
      }
      EachCounted(s.order, s.flow.posts, a);
      PendingDistinct(s.order, s.flow.posts, a.conversation);
      CountArrival(ids, a);
    }

    // -------------------------------------------------------------- uploads

    /** The loop over one post's attachments: fill in the file of every attachment that waited for this upload. */
    method FillAttachments(atts: seq<Attachment>, u: Id, upload: Upload)
      returns (filled: seq<Attachment>, matched: bool)
      ensures filled == Filled(atts, u, upload)
      ensures matched <==> exists i :: 0 <= i < |atts| && atts[i].uploadId == u && atts[i].fileId == ""
    {
      filled, matched := atts, false;
      var i := 0;
      while i < |atts|
        invariant i <= |atts| == |filled|
        invariant filled[..i] == Filled(atts, u, upload)[..i] && filled[i..] == atts[i..]
        invariant matched <==> exists k :: 0 <= k < i && atts[k].uploadId == u && atts[k].fileId == ""
      {
        assert filled[i] == filled[i..][0] == atts[i];
        if atts[i].uploadId == u && atts[i].fileId == "" {
          matched := true;
          if upload.state == Ready {
            filled := filled[i := atts[i].(fileId := upload.fileId)];
          }
        }
        i := i + 1;
      }
    }

    /** One post is told about its upload; the answer says whether it waited for it. */
    method NotifyPost(id: Id, u: Id, upload: Upload) returns (matched: bool)
      requires id in s.flow.posts
      modifies this
      ensures s == old(s).(flow := Put(old(s).flow, id, Notice(old(s).flow.posts[id], u, upload)))
      ensures matched == Waits(old(s).flow.posts[id], u)
    {
      var p := s.flow.posts[id];
      var filled;
      filled, matched := FillAttachments(p.attachments, u, upload);
      if !matched {
        assert s.flow.posts[id := p] == s.flow.posts;
        return;
      }
      var q := p.(attachments := filled);
      if upload.state == Broken {
        if q.state != Failed {
          q := q.(state := Failed, generation := q.generation + 1);
        }
      } else if q.state == Uploading && AttachmentsReady(q) {
        q := q.(state := Queued, generation := q.generation + 1);
      }
      SetPost(id, q);
    }

    /** The loop over all posts; `cs` collects the conversations with a post that waited. */
    method NotifyPosts(u: Id, upload: Upload) returns (cs: seq<Conversation>)
      requires Distinct(s.owned) && forall id :: id in s.owned ==> id in s.flow.posts
      modifies this
      ensures s == old(s).(flow := old(s).flow.(posts := Each(old(s).flow.posts, s.owned, Noticing(u, upload))))
      ensures cs == Affected(s.owned, old(s).flow.posts, u, Members([]))
    {
      ghost var f, before := Noticing(u, upload), s.flow.posts;
      cs := [];
      var i := 0;
      while i < |s.owned|
        invariant i <= |s.owned|
        invariant s == old(s).(flow := old(s).flow.(posts := s.flow.posts)) && s.flow.posts.Keys == before.Keys
        invariant Each(s.flow.posts, s.owned[i..], f) == Each(before, s.owned, f)
        invariant Ahead(s.owned, i, s.flow.posts, before)
        invariant cs + Affected(s.owned[i..], before, u, Members(cs)) == Affected(s.owned, before, u, Members([]))
      {
        EachStep(s.flow.posts, s.owned, i, f);
        AffectedStep(s.owned, before, u, i, cs);
        AheadStep(s.owned, i, s.flow.posts, before, Notice(before[s.owned[i]], u, upload));
        cs := NotifyAndNote(s.owned[i], u, upload, cs);
        i := i + 1;
      }
    }

    method NotifyAndNote(id: Id, u: Id, upload: Upload, cs: seq<Conversation>) returns (noted: seq<Conversation>)
      requires id in s.flow.posts
      modifies this
      ensures s == old(s).(flow := Put(old(s).flow, id, Notice(old(s).flow.posts[id], u, upload)))
      ensures noted == Noted(cs, old(s).flow.posts[id], u)
    {
      var c := s.flow.posts[id].conversation;
      var matched := NotifyPost(id, u, upload);
      noted := if matched && c !in cs then cs + [c] else cs;
    }

    method HandleAttachmentUploadChanged(u: Id)
      requires Tidy()
      modifies this
      ensures s == UploadChanged(old(s), u)
      ensures Tidy()
    {
      if u == "" || u !in s.uploads {
        return;
      }
      CalmTidy(s, s.(flow := s.flow.(posts := NoticeAll(s.flow.posts, u, s.uploads[u]))));
      EachNoticed(s.order, s.flow.posts, u, s.uploads[u]);
      assert Members([]) == {};
      var cs := NotifyPosts(u, s.uploads[u]);
      if |cs| > 0 {
        CalmTidy(s, SaveBestEffort(s));
        PersistBestEffort();
      }
      StartAffected(cs);
    }

    method StartAffected(cs: seq<Conversation>)
      requires Tidy()
      modifies this
      ensures s == old(s).(flow := TryStartAll(old(s).flow, old(s).order, old(s).now, cs))
      ensures Tidy()
    {
      var i := 0;
      while i < |cs|
        invariant i <= |cs| && Tidy() && s == old(s).(flow := s.flow)
        invariant TryStartAll(s.flow, s.order, s.now, cs[i..])
                  == TryStartAll(old(s).flow, old(s).order, old(s).now, cs)
      {
        assert cs[i..][0] == cs[i] && cs[i..][1..] == cs[i + 1..];
        TryStartConversation(cs[i]);
        i := i + 1;
      }
    }

    method UploadFinished(u: Id, generation: nat, fileId: Id)
      requires Tidy()
      modifies this
      ensures s == FinishUpload(old(s), u, generation, fileId)
      ensures Tidy()
    {
      if u !in s.uploads || s.uploads[u].generation != generation {
        return;
      }
      var state := if fileId == "" then Broken else Ready;
      s := s.(uploads := s.uploads[u := s.uploads[u].(state := state, fileId := fileId, generation := generation)]);
      HandleAttachmentUploadChanged(u);
    }

    method StartAttachmentUpload(u: Id)
      requires Tidy()
      modifies this
      ensures s == StartUpload(old(s), u)
      ensures Tidy()
    {
      StartForm(s, u);
      if u in s.uploads {
        if s.uploads[u].channel in s.channels {
          BeginUpload(u);
        } else {
          ChangeUpload(u, Broken, s.uploads[u].generation + 1);
        }
      }
    }

    method BeginUpload(u: Id)
      requires Tidy() && u in s.uploads && s.uploads[u].channel in s.channels
      modifies this
      ensures s == StartUpload(old(s), u)
      ensures Tidy()
    {
      var generation, present := s.uploads[u].generation + 1, s.uploads[u].path in s.readable;
      RunningForm(s, u, generation, present);
      ChangeUpload(u, InProgress, generation);
      SendFile(u, generation, present);
    }

    /** The upload enters a state without a file, and everyone who waits for it is told. */
    method ChangeUpload(u: Id, state: UploadState, generation: nat)
      requires Tidy() && u in s.uploads
      modifies this
      ensures s == UploadChanged(SetUpload(old(s), u, state, "", generation), u)
      ensures Tidy()
    {
      s := s.(uploads := s.uploads[u := s.uploads[u].(state := state, fileId := "", generation := generation)]);
      HandleAttachmentUploadChanged(u);
    }

    /** The file goes out; one that cannot be read fails at once. */
    method SendFile(u: Id, generation: nat, present: bool)
      requires Tidy()
      modifies this
      ensures s == Running(old(s), u, generation, present)
      ensures Tidy()
    {
      if present {
        Pend(UploadReply(u, generation));
      } else {
        UploadFinished(u, generation, "");
      }
    }

    method StageAttachment(channel: Id, path: string, u: Id)
      requires Tidy()
      modifies this
      ensures s == Stage(old(s), channel, path, u)
      ensures Tidy()
    {
      if channel == "" || path == "" || u == "" {
        return;
      }
      if u in s.uploads && s.uploads[u].channel == channel && s.uploads[u].path == path {
        return;
      }
      s := s.(uploads := s.uploads[u := Upload(channel, path, InProgress, "", 0)]);
      StartAttachmentUpload(u);
    }

    method RetryAttachmentUpload(u: Id)
      requires Tidy()
      modifies this
      ensures s == RetryUpload(old(s), u)
      ensures Tidy()
    {
      if u in s.uploads && s.uploads[u].state == Broken {
        StartAttachmentUpload(u);
      }
    }

    // -------------------------------------------------------------- submit

    /** The loop over a new post's attachments: stage what has no file yet, and note what is missing. */
    method StageAttachments(channel: Id, todo: seq<Attachment>, uuids: seq<Id>)
      returns (refused: bool, atts: seq<Attachment>, failed: bool, waiting: bool)
      requires Tidy() && |uuids| == |todo|
      modifies this
      ensures StageAll(old(s), channel, [], todo, uuids, false, false)
              == if refused then Refused(s) else Staged(s, atts, failed, waiting)
    {
      refused, atts, failed, waiting := false, [], false, false;
      ghost var all := StageAll(s, channel, [], todo, uuids, false, false);
      var i := 0;
      while i < |todo|
        invariant i <= |todo| && Tidy()
        invariant StageAll(s, channel, atts, todo[i..], uuids[i..], failed, waiting) == all
      {
        assert todo[i..][0] == todo[i] && todo[i..][1..] == todo[i + 1..];
        assert uuids[i..][0] == uuids[i] && uuids[i..][1..] == uuids[i + 1..];
        var a := todo[i];
        if a.fileId != "" {
          atts := atts + [a];
        } else if a.path == "" {
          refused := true;
          return;
        } else {
          var u := if a.uploadId == "" then uuids[i] else a.uploadId;
          StageAttachment(channel, a.path, u);
          a := a.(uploadId := u);
          if u !in s.uploads {
            failed := true;
            atts := atts + [a] + todo[i + 1..];
            return;
          }
          if s.uploads[u].state == Ready {
            a := a.(fileId := s.uploads[u].fileId);
          } else if s.uploads[u].state == Broken {
            failed := true;
          } else {
            waiting := true;
          }
          atts := atts + [a];
        }
        i := i + 1;
      }
    }

    method EnqueuePost(d: Draft) returns (id: Id)
      requires Tidy() && |d.uuids| == |d.attachments|
      modifies this
      ensures (s, id) == Enqueue(old(s), d)
    {
      if d.conversation.channel == "" || d.id == "" || (d.message == "" && d.attachments == []) {
        return "";
      }
      if d.id in s.flow.posts {
        return d.id;
      }
      var refused, atts, failed, waiting := StageAttachments(d.conversation.channel, d.attachments, d.uuids);
      if refused {
        return "";
      }
      assert Calm(old(s), StagedWorld(StageAll(old(s), d.conversation.channel, [], d.attachments, d.uuids, false, false)));
      CalmTidy(old(s), s);
      id := AdmitPost(d.id, NewPost(d, atts, s.now, s.tickets, failed, waiting));
    }

    /** Append the post to all three containers; if the file cannot be written, take it out of them again. */
    method AdmitPost(id: Id, p: Post) returns (r: Id)
      requires Tidy() && id !in s.flow.posts && id != ""
      modifies this
      ensures (s, r) == Admit(old(s), id, p)
    {
      var ok := Append(id, p);
      if ok {
        Announce(id, p.conversation);
        r := id;
      } else {
        NeverThere(old(s).flow.posts, id, p);
        TakeOut(id, p);
        r := "";
      }
    }

    method Append(id: Id, p: Post) returns (ok: bool)
      modifies this
      ensures ok == old(s).writable
      ensures var posts, order := old(s).flow.posts[id := p], old(s).order + [id];
        s == old(s).(owned := old(s).owned + [id], flow := old(s).flow.(posts := posts), order := order,
                     disk := if ok then old(s).backlog + Records(order, posts) else old(s).disk)
    {
      s := s.(owned := s.owned + [id], flow := s.flow.(posts := s.flow.posts[id := p]), order := s.order + [id]);
      ok := Persist();
    }

    method Announce(id: Id, c: Conversation)
      modifies this
      ensures s == old(s).(used := old(s).used + {id}, tickets := old(s).tickets + 1,
                           flow := Later(Later(old(s).flow, Start(c)), Deadline(id, s.now, s.now + RETRY_WINDOW)))
    {
      s := s.(used := s.used + {id}, tickets := s.tickets + 1);
      Pend(Start(c));
      Pend(Deadline(id, s.now, s.now + RETRY_WINDOW));
    }

    /** Undo the appending of a post: all three containers are as they were before. */
    method TakeOut(id: Id, p: Post)
      requires s.order != [] && s.order == s.owned && s.order[|s.order| - 1] == id && id !in s.order[..|s.order| - 1]
      modifies this
      ensures s == old(s).(uploads := ReleaseAll(old(s).uploads, p.attachments),
                           order := old(s).order[..|old(s).order| - 1], owned := old(s).order[..|old(s).order| - 1],
                           flow := old(s).flow.(posts := old(s).flow.posts - {id}))
    {
      var n := |s.order| - 1;
      assert s.order == s.order[..n] + [id];
      WithoutAppend(s.order[..n], [id], id);
      ReleaseUploads(p.attachments);
      s := s.(order := Without(s.order, id), owned := Without(s.owned, id),
              flow := s.flow.(posts := s.flow.posts - {id}));
    }

    // -------------------------------------------------------------- user retry

    method PutAttachment(id: Id, i: nat, a: Attachment)
      requires Tidy() && id in s.flow.posts && i < |s.flow.posts[id].attachments|
      requires a.path == s.flow.posts[id].attachments[i].path
      modifies this
      ensures s == SetAttachment(old(s), id, i, a)
      ensures Tidy()
    {
      CalmTidy(s, SetAttachment(s, id, i, a));
      SetPost(id, s.flow.posts[id].(attachments := s.flow.posts[id].attachments[i := a]));
    }

    method RestartAttachment(id: Id, i: nat, uuid: Id) returns (waiting: bool)
      requires Tidy() && id in s.flow.posts && i < |s.flow.posts[id].attachments|
      modifies this
      ensures (s, waiting) == RestartOne(old(s), id, i, uuid)
      ensures Tidy()
    {
      var a := s.flow.posts[id].attachments[i];
      if a.fileId != "" {
        return false;
      }
      var channel := s.flow.posts[id].conversation.channel;
      var u := a.uploadId;
      if u !in s.uploads && channel in s.channels && a.path != "" {
        if u == "" {
          u := uuid;
        }
        StageAttachment(channel, a.path, u);
      }
      assert SameRow(old(s).flow.posts[id], s.flow.posts[id]);
      var b := s.flow.posts[id].attachments[i];
      PutAttachment(id, i, b.(uploadId := u));
      if u in s.uploads && s.uploads[u].state == Ready {
        PutAttachment(id, i, b.(uploadId := u, fileId := s.uploads[u].fileId));
        return false;
      }
      RetryAttachmentUpload(u);
      return true;
    }

    method RestartAttachments(id: Id, uuids: seq<Id>) returns (waiting: bool)
      requires Tidy() && id in s.flow.posts && |uuids| == |s.flow.posts[id].attachments|
      modifies this
      ensures (s, waiting) == RestartAll(old(s), id, 0, uuids)
      ensures id in s.flow.posts
    {
      waiting := false;
      ghost var all := RestartAll(s, id, 0, uuids);
      var i := 0;
      while i < |uuids|
        invariant i <= |uuids| && Tidy() && id in s.flow.posts && |uuids| == |s.flow.posts[id].attachments|
        invariant all == (RestartAll(s, id, i, uuids).0, waiting || RestartAll(s, id, i, uuids).1)
      {
        ghost var w := s;
        var more := RestartAttachment(id, i, uuids[i]);
        assert SameRow(w.flow.posts[id], s.flow.posts[id]);
        waiting := waiting || more;
        i := i + 1;
      }
    }

    method RetryPost(id: Id, tail: nat, uuids: seq<Id>) returns (ok: bool)
      requires Tidy() && (id in s.flow.posts ==> |uuids| == |s.flow.posts[id].attachments|)
      modifies this
      ensures s == Retry(old(s), id, tail, uuids)
      ensures ok <==> old(id in s.flow.posts && s.flow.posts[id].state == Failed)
    {
      if id !in s.flow.posts || s.flow.posts[id].state != Failed {
        return false;
      }
      ReopenPost(id, tail);
      var waiting := RestartAttachments(id, uuids);
      ResumePost(waiting, id);
      return true;
    }

    method ResumePost(waiting: bool, id: Id)
      requires id in s.flow.posts
      modifies this
      ensures s == Resume(old(s), waiting, id)
    {
      var p := s.flow.posts[id];
      if !waiting {
        SetPost(id, p.(state := Queued, generation := p.generation + 1));
      }
      Pend(Deadline(id, s.now, s.now + RETRY_WINDOW));
      Pend(Start(p.conversation));
    }

    method ReopenPost(id: Id, tail: nat)
      requires Tidy() && id in s.flow.posts
      modifies this
      ensures s == Reopen(old(s), id, tail)
      ensures Tidy() && id in s.flow.posts && |s.flow.posts[id].attachments| == |old(s).flow.posts[id].attachments|
    {
      var p := s.flow.posts[id];
      if p.conversation.channel in s.channels {
        p := p.(tail := tail);
      }
      SetPost(id, p.(attempts := 0, interveningCount := 0, intervening := {}, window := s.now,
                     state := Uploading, generation := p.generation + 1));
    }

    // -------------------------------------------------------------- one step

    method HandleEvent(e: Event, outcome: Outcome, fileId: Id)
      requires Tidy()
      modifies this
      ensures s == Handle(old(s), e, outcome, fileId)
    {
      match e
      case Start(c) => TryStartConversation(c);
      case Fire(id, g) =>
        if id in s.flow.posts && s.flow.posts[id].generation == g && s.flow.posts[id].state == Queued {
          AttemptNow(id);
        }
      case RetryDue(id, g, _) => RetryTimer(id, g);
      case Deadline(id, window, _) => DeadlineTimer(id, window);
      case Reply(id, g) => PostCreated(id, g, outcome);
      case Forget(serverId, _) => s := s.(confirmed := s.confirmed - {serverId});
      case UploadReply(u, g) => UploadFinished(u, g, fileId);
      case SaveAgain(_) =>
        s := s.(saveScheduled := false);
        PersistBestEffort();
    }

    /** The service takes exactly the steps of the state machine, and keeps its invariant. */
    method Step(a: Action)
      requires Safe(s) && Enabled(s, a)
      modifies this
      ensures s == Next(old(s), a) && Safe(s)
    {
      OutboxTheorems.NextSafe(s, a, Next(s, a));
      match a
      case Submit(d) => var _ := EnqueuePost(d);
      case UserRetry(id, tail, uuids) => var _ := RetryPost(id, tail, uuids);
      case Cancel(id) => RemovePost(id);
      case ComposerStage(channel, path, u) => StageAttachment(channel, path, u);
      case ComposerRelease(u) => s := s.(uploads := s.uploads - {u});
      case Arrive(arrival) => HandleAuthoritativePost(arrival);
      case Tick(ms) => s := s.(now := s.now + ms);
      case Disk(ok) => s := s.(writable := ok);
      case Reachable(cs, files) => s := s.(channels := cs, readable := files);
      case Deliver(e, outcome, fileId) =>
        s := s.(flow := s.flow.(events := s.flow.events - multiset{e}));
        HandleEvent(e, outcome, fileId);
    }
  }
}
