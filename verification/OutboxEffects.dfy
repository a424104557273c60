/** What the outbox does with a post, and why: when it sends, when it fails, what a retry and a removal leave. */
module OutboxEffects {
  import opened Prelude
  import opened OutboxModel
  import opened OutboxSafety
  import opened OutboxRuns
  import opened OutboxTheorems

  // ---------------------------------------------------------------- sending

  /** Everything a post needs to be sent now. */
  predicate Sendable(w: World, id: Id, g: nat) {
    && id in w.flow.posts
    && var p := w.flow.posts[id];
    && p.generation == g && p.state == Queued && Head(w.order, w.flow.posts, p.conversation) == Some(id)
    && p.attempts < MAX_ATTEMPTS && w.now - p.window < RETRY_WINDOW && p.interveningCount < MAX_INTERVENING
    && p.conversation.channel in w.channels && forall i :: 0 <= i < |p.attachments| ==> p.attachments[i].fileId != ""
  }

  /** A timer sends exactly when nothing stands in the way: one request that says what the post says. */
  lemma FireSendsExactly(w: World, id: Id, g: nat, r: World)
    requires r == OnFire(w, id, g)
    ensures r.wire != w.wire <==> Sendable(w, id, g)
    ensures Sendable(w, id, g) ==>
      var (p, q) := (w.flow.posts[id], r.flow.posts[id]);
      && |r.wire| == |w.wire| + 1 && r.wire[..|w.wire|] == w.wire
      && var t := r.wire[|w.wire|];
      && t.id == id && t.conversation == p.conversation && t.message == p.message && t.at == w.now
      && |t.files| == |p.attachments| && (forall i :: 0 <= i < |t.files| ==> t.files[i] == p.attachments[i].fileId)
      && q == p.(state := Sending, attempts := p.attempts + 1, generation := g + 1)
      && Reply(id, g + 1) in r.flow.events && t.generation == g + 1
  {
  }

  // ---------------------------------------------------------------- answers

  /** May a post that was rejected be sent again? */
  predicate Again(p: Post, retryable: bool, now: nat) {
    retryable && p.attempts < MAX_ATTEMPTS && now - p.window < RETRY_WINDOW && p.interveningCount < MAX_INTERVENING
  }

  /** When: after the delay of the table, or at the end of the window if that is sooner. */
  function AgainAt(p: Post, now: nat): int
    requires 0 < p.attempts <= |RETRY_DELAYS|
  {
    if now + RETRY_DELAYS[p.attempts - 1] <= p.window + RETRY_WINDOW then now + RETRY_DELAYS[p.attempts - 1]
    else p.window + RETRY_WINDOW
  }

  /** A rejected request is tried again exactly when it may be, at the time of the table; otherwise the post has failed. */
  lemma RejectedExactly(w: World, id: Id, retryable: bool, r: World)
    requires Safe(w) && id in w.flow.posts && w.flow.posts[id].state == Sending
    requires r == OnReply(w, id, w.flow.posts[id].generation, Rejected(retryable))
    ensures id in r.flow.posts && r.wire == w.wire
    ensures r.flow.posts[id].generation == w.flow.posts[id].generation + 1
    ensures r.flow.posts[id].attempts == w.flow.posts[id].attempts
    ensures r.flow.posts[id].state == if Again(w.flow.posts[id], retryable, w.now) then RetryWait else Failed
    ensures Again(w.flow.posts[id], retryable, w.now) ==>
      && 0 < w.flow.posts[id].attempts <= |RETRY_DELAYS| && AgainAt(w.flow.posts[id], w.now) >= 0
      && RetryDue(id, r.flow.posts[id].generation, AgainAt(w.flow.posts[id], w.now)) in r.flow.events
  {
    assert PostOk(id, w.flow.posts[id], First(w.flow.posts, id), w.flow.events, w.now, NOTHING);
  }

  /** An accepted request removes its post, remembers the server's identifier, and starts the conversation again. */
  lemma AcceptedExactly(w: World, id: Id, g: nat, serverId: Id, r: World)
    requires id in w.flow.posts && r == OnReply(w, id, g, Accepted(serverId))
    ensures r.flow.posts == w.flow.posts - {id} && Start(w.flow.posts[id].conversation) in r.flow.events
    ensures r.confirmed == if serverId == "" then w.confirmed else w.confirmed + {serverId}
    ensures serverId != "" ==> Forget(serverId, w.now + RETRY_WINDOW) in r.flow.events
  {
    RemovedIsGone(Remember(w, serverId), id, r);
  }

  predicate Uses(atts: seq<Attachment>, u: Id) {
    u != "" && exists i :: 0 <= i < |atts| && atts[i].uploadId == u
  }

  lemma {:induction false} Released(uploads: map<Id, Upload>, atts: seq<Attachment>, u: Id)
    ensures u in ReleaseAll(uploads, atts) <==> u in uploads && !Uses(atts, u)
    ensures u in ReleaseAll(uploads, atts) ==> ReleaseAll(uploads, atts)[u] == uploads[u]
  {
    if atts != [] {
      var rest := if atts[0].uploadId == "" then uploads else uploads - {atts[0].uploadId};
      Released(rest, atts[1..], u);
      assert Uses(atts, u) <==> Uses(atts[1..], u) || (u != "" && atts[0].uploadId == u) by {
        assert atts == [atts[0]] + atts[1..];
        assert forall i :: 0 <= i < |atts| - 1 ==> atts[1..][i] == atts[i + 1];
        if Uses(atts, u) && atts[0].uploadId != u {
          var i :| 0 <= i < |atts| && atts[i].uploadId == u;
          assert atts[1..][i - 1].uploadId == u;
        }
      }
    }
  }

  /** Just these uploads are gone. */
  ghost predicate ReleasedOnly(before: map<Id, Upload>, after: map<Id, Upload>, atts: seq<Attachment>) {
    && (forall u :: u in after <==> u in before && !Uses(atts, u))
    && forall u :: u in after ==> after[u] == before[u]
  }

  /** A removed post is gone with its uploads; every other post and upload is as it was. */
  lemma RemovedIsGone(w: World, id: Id, r: World)
    requires id in w.flow.posts && r == Remove(w, id)
    ensures r.flow.posts == w.flow.posts - {id} && r.wire == w.wire && r.confirmed == w.confirmed
    ensures Start(w.flow.posts[id].conversation) in r.flow.events
    ensures ReleasedOnly(w.uploads, r.uploads, w.flow.posts[id].attachments)
  {
    forall u {
      Released(w.uploads, w.flow.posts[id].attachments, u);
    }
  }

  /** A cancelled post is gone, whatever state it was in, and no other. */
  lemma CancelledIsGone(w: World, id: Id, r: World)
    requires r == Next(w, Cancel(id))
    ensures r.flow.posts == w.flow.posts - {id} && r.wire == w.wire
    ensures id in w.flow.posts ==> Start(w.flow.posts[id].conversation) in r.flow.events
  {
    if id in w.flow.posts {
      RemovedIsGone(w, id, r);
    } else {
      assert w.flow.posts - {id} == w.flow.posts;
    }
  }

  /** A post of the outbox that arrives from the server is confirmed by it, and its echoes are ignored from then on. */
  lemma ArrivalConfirms(w: World, arrival: Arrival, r: World)
    requires r == Next(w, Arrive(arrival)) && arrival.pendingId != "" && arrival.pendingId in w.flow.posts
    ensures arrival.id != "" && arrival.id in w.confirmed ==> r == w
    ensures arrival.id == "" || arrival.id !in w.confirmed ==> r.flow.posts == w.flow.posts - {arrival.pendingId}
    ensures arrival.id == "" || arrival.id !in w.confirmed ==>
      Start(w.flow.posts[arrival.pendingId].conversation) in r.flow.events
    ensures arrival.id != "" ==> arrival.id in r.confirmed
  {
    RemovedIsGone(Remember(w, arrival.id), arrival.pendingId, Remove(Remember(w, arrival.id), arrival.pendingId));
  }

  // ---------------------------------------------------------------- a retry by the user

  /** The same post with a new budget. */
  predicate StartedOver(p: Post, q: Post, now: nat, tail: nat) {
    && q.conversation == p.conversation && q.message == p.message && q.ticket == p.ticket
    && Bare(q.attachments) == Bare(p.attachments)
    && q.window == now && q.attempts == 0 && q.intervening == {} && q.interveningCount == 0 && q.tail == tail
  }

  /** A failed post that is retried starts over: a new window, no attempts, nothing overtaken - and is the same post. */
  lemma RetryStartsOver(w: World, id: Id, tail: nat, uuids: seq<Id>, r: World)
    requires id in w.flow.posts && w.flow.posts[id].state == Failed && |uuids| == |w.flow.posts[id].attachments|
    requires r == Retry(w, id, tail, uuids)
    ensures id in r.flow.posts && Start(w.flow.posts[id].conversation) in r.flow.events
    ensures Deadline(id, w.now, w.now + RETRY_WINDOW) in r.flow.events && r.wire == w.wire
    ensures StartedOver(w.flow.posts[id], r.flow.posts[id], w.now,
                        if w.flow.posts[id].conversation.channel in w.channels then tail else w.flow.posts[id].tail)
  {
    var v, u, waiting := RetryForm(w, id, tail, uuids, r);
    RetryParts(w, id, tail, v, u, waiting, r);
  }

  lemma RetryParts(w: World, id: Id, tail: nat, v: World, u: World, waiting: bool, r: World)
    requires id in w.flow.posts && v == Reopen(w, id, tail) && id in v.flow.posts && Calm(v, u) && id in u.flow.posts
    requires r == Resume(u, waiting, id)
    ensures id in r.flow.posts && Start(w.flow.posts[id].conversation) in r.flow.events
    ensures Deadline(id, w.now, w.now + RETRY_WINDOW) in r.flow.events && r.wire == w.wire
    ensures StartedOver(w.flow.posts[id], r.flow.posts[id], w.now,
                        if w.flow.posts[id].conversation.channel in w.channels then tail else w.flow.posts[id].tail)
  {
    Reopening(w, id, tail, v);
    ResumedCalm(v, u, waiting, id, r);
    StartedChain(w.flow.posts[id], v.flow.posts[id], r.flow.posts[id], w.now, v.flow.posts[id].tail);
  }

  lemma RetryForm(w: World, id: Id, tail: nat, uuids: seq<Id>, r: World) returns (v: World, u: World, waiting: bool)
    requires id in w.flow.posts && w.flow.posts[id].state == Failed && |uuids| == |w.flow.posts[id].attachments|
    requires r == Retry(w, id, tail, uuids)
    ensures v == Reopen(w, id, tail) && id in v.flow.posts && Calm(v, u) && id in u.flow.posts
    ensures r == Resume(u, waiting, id)
  {
    v := Reopen(w, id, tail);
    var all := RestartAll(v, id, 0, uuids);
    u, waiting := all.0, all.1;
  }

  lemma ResumedCalm(v: World, u: World, waiting: bool, id: Id, r: World)
    requires id in v.flow.posts && id in u.flow.posts && Calm(v, u) && r == Resume(u, waiting, id)
    ensures id in r.flow.posts && r.wire == v.wire && Start(v.flow.posts[id].conversation) in r.flow.events
    ensures Deadline(id, v.now, v.now + RETRY_WINDOW) in r.flow.events && SameBudget(v.flow.posts[id], r.flow.posts[id])
  {
    SameIntent(v.flow.posts[id], u.flow.posts[id]);
    Resumed(u, waiting, id, r);
  }

  lemma Reopening(w: World, id: Id, tail: nat, v: World)
    requires id in w.flow.posts && v == Reopen(w, id, tail)
    ensures id in v.flow.posts && v.now == w.now && v.wire == w.wire
    ensures StartedOver(w.flow.posts[id], v.flow.posts[id], w.now,
                        if w.flow.posts[id].conversation.channel in w.channels then tail else w.flow.posts[id].tail)
  {
  }

  /** Only how far its delivery and its uploads have come may differ. */
  predicate SameBudget(p: Post, q: Post) {
    && q.conversation == p.conversation && q.message == p.message && q.ticket == p.ticket && q.tail == p.tail
    && Bare(q.attachments) == Bare(p.attachments) && q.window == p.window && q.attempts == p.attempts
    && q.intervening == p.intervening && q.interveningCount == p.interveningCount
  }

  lemma StartedChain(p: Post, v: Post, q: Post, now: nat, tail: nat)
    requires StartedOver(p, v, now, tail) && SameBudget(v, q)
    ensures StartedOver(p, q, now, tail)
  {
  }

  lemma Resumed(u: World, waiting: bool, id: Id, r: World)
    requires id in u.flow.posts && r == Resume(u, waiting, id)
    ensures id in r.flow.posts && r.wire == u.wire
    ensures Start(u.flow.posts[id].conversation) in r.flow.events
    ensures Deadline(id, u.now, u.now + RETRY_WINDOW) in r.flow.events
    ensures SameBudget(u.flow.posts[id], r.flow.posts[id])
  {
  }

  lemma SameIntent(p: Post, q: Post)
    requires SameRow(p, q)
    ensures SameBudget(p, q)
  {
    var a, b := Intent(p), Intent(q);
    assert a.conversation == b.conversation && a.message == b.message && a.ticket == b.ticket && a.tail == b.tail;
    assert a.window == b.window && a.attempts == b.attempts && a.intervening == b.intervening;
    assert a.interveningCount == b.interveningCount && a.attachments == b.attachments;
  }

  // ---------------------------------------------------------------- why a post fails

  /** Its time is up, or too many posts came in between. */
  predicate Late(p: Post, now: nat) {
    now - p.window >= RETRY_WINDOW || p.interveningCount >= MAX_INTERVENING
  }

  /** As far as starts and uploads go, a post fails only if it is late or a file of it is missing, and loses no file. */
  predicate Fair(p: Post, q: Post, now: nat) {
    && q.window == p.window && q.interveningCount == p.interveningCount
    && (q.state == Failed && p.state != Failed ==> Late(p, now) || !AttachmentsReady(p))
    && (AttachmentsReady(p) ==> AttachmentsReady(q))
  }

  ghost predicate FairAll(a: map<Id, Post>, b: map<Id, Post>, now: nat) {
    b.Keys == a.Keys && forall id :: id in a ==> Fair(a[id], b[id], now)
  }

  lemma FairTwice(a: map<Id, Post>, b: map<Id, Post>, c: map<Id, Post>, now: nat)
    requires FairAll(a, b, now) && FairAll(b, c, now)
    ensures FairAll(a, c, now)
  {
    forall id | id in a ensures Fair(a[id], c[id], now) {
      assert Fair(a[id], b[id], now) && Fair(b[id], c[id], now);
    }
  }

  lemma StartFair(f: Flow, order: seq<Id>, now: nat, c: Conversation)
    ensures FairAll(f.posts, TryStart(f, order, now, c).posts, now)
  {
  }

  lemma {:induction false} StartAllFair(f: Flow, order: seq<Id>, now: nat, cs: seq<Conversation>)
    ensures FairAll(f.posts, TryStartAll(f, order, now, cs).posts, now)
    decreases |cs|
  {
    if cs != [] {
      var g := TryStart(f, order, now, cs[0]);
      StartFair(f, order, now, cs[0]);
      StartAllFair(g, order, now, cs[1..]);
      FairTwice(f.posts, g.posts, TryStartAll(f, order, now, cs).posts, now);
    }
  }

  lemma NoticeFair(p: Post, u: Id, upload: Upload, now: nat)
    ensures Fair(p, Notice(p, u, upload), now)
  {
  }

  lemma ChangedFair(w: World, u: Id)
    ensures FairAll(w.flow.posts, UploadChanged(w, u).flow.posts, w.now)
  {
    if u != "" && u in w.uploads {
      var posts := NoticeAll(w.flow.posts, u, w.uploads[u]);
      forall id | id in posts ensures Fair(w.flow.posts[id], posts[id], w.now) {
        NoticeFair(w.flow.posts[id], u, w.uploads[u], w.now);
      }
      ChangedStarts(w, u, posts);
    }
  }

  lemma ChangedStarts(w: World, u: Id, posts: map<Id, Post>)
    requires u != "" && u in w.uploads && posts == NoticeAll(w.flow.posts, u, w.uploads[u])
    requires FairAll(w.flow.posts, posts, w.now)
    ensures FairAll(w.flow.posts, UploadChanged(w, u).flow.posts, w.now)
  {
    var cs := Affected(w.owned, w.flow.posts, u, {});
    var w1 := w.(flow := w.flow.(posts := posts));
    var w2 := if cs == [] then w1 else SaveBestEffort(w1);
    StartAllFair(w2.flow, w2.order, w2.now, cs);
    FairTwice(w.flow.posts, posts, UploadChanged(w, u).flow.posts, w.now);
  }

  lemma FinishFair(w: World, u: Id, g: nat, fileId: Id)
    ensures FairAll(w.flow.posts, FinishUpload(w, u, g, fileId).flow.posts, w.now)
  {
    if u in w.uploads {
      ChangedFair(SetUpload(w, u, if fileId == "" then Broken else Ready, fileId, g), u);
    }
  }

  lemma StartUploadFair(w: World, u: Id, r: World)
    requires r == StartUpload(w, u)
    ensures FairAll(w.flow.posts, r.flow.posts, w.now)
  {
    if u in w.uploads && w.uploads[u].channel !in w.channels {
      UnreachableFair(w, u, r);
    } else if u in w.uploads {
      ReachableFair(w, u, r);
    }
  }

  lemma UnreachableFair(w: World, u: Id, r: World)
    requires u in w.uploads && w.uploads[u].channel !in w.channels && r == StartUpload(w, u)
    ensures FairAll(w.flow.posts, r.flow.posts, w.now)
  {
    var v := SetUpload(w, u, Broken, "", w.uploads[u].generation + 1);
    UnreachableStart(w, u, v, r);
    ChangedFair(v, u);
  }

  lemma UnreachableStart(w: World, u: Id, v: World, r: World)
    requires u in w.uploads && w.uploads[u].channel !in w.channels && r == StartUpload(w, u)
    requires v == SetUpload(w, u, Broken, "", w.uploads[u].generation + 1)
    ensures r == UploadChanged(v, u) && v.flow == w.flow && v.now == w.now
  {
  }

  lemma ReachableFair(w: World, u: Id, r: World)
    requires u in w.uploads && w.uploads[u].channel in w.channels && r == StartUpload(w, u)
    ensures FairAll(w.flow.posts, r.flow.posts, w.now)
  {
    var w0 := SetUpload(w, u, InProgress, "", w.uploads[u].generation + 1);
    ChangedFair(w0, u);
    RunningFair(w.flow.posts, w.uploads[u].path in w.readable, UploadChanged(w0, u), u, w.uploads[u].generation + 1, r, w.now);
  }

  lemma RunningFair(posts: map<Id, Post>, readable: bool, w1: World, u: Id, g: nat, r: World, now: nat)
    requires FairAll(posts, w1.flow.posts, now) && w1.now == now
    requires r == if readable then w1.(flow := Later(w1.flow, UploadReply(u, g))) else FinishUpload(w1, u, g, "")
    ensures FairAll(posts, r.flow.posts, now)
  {
    if !readable {
      FinishFair(w1, u, g, "");
      FairTwice(posts, w1.flow.posts, r.flow.posts, now);
    }
  }

  lemma StageFair(w: World, channel: Id, path: string, u: Id)
    ensures FairAll(w.flow.posts, Stage(w, channel, path, u).flow.posts, w.now)
  {
    var v := w.(uploads := w.uploads[u := Upload(channel, path, InProgress, "", 0)]);
    StartUploadFair(v, u, StartUpload(v, u));
  }

  lemma {:induction false} StageAllFair(w: World, channel: Id, done: seq<Attachment>, todo: seq<Attachment>,
                                        uuids: seq<Id>, failed: bool, waiting: bool)
    requires |uuids| == |todo|
    ensures FairAll(w.flow.posts, StagedWorld(StageAll(w, channel, done, todo, uuids, failed, waiting)).flow.posts, w.now)
    decreases |todo|
  {
    if todo != [] {
      var a := todo[0];
      if a.fileId != "" {
        StageAllFair(w, channel, done + [a], todo[1..], uuids[1..], failed, waiting);
      } else if a.path != "" {
        var u := if a.uploadId == "" then uuids[0] else a.uploadId;
        var (w1, b) := (Stage(w, channel, a.path, u), a.(uploadId := u));
        StageFair(w, channel, a.path, u);
        if u in w1.uploads {
          var c := if w1.uploads[u].state == Ready then b.(fileId := w1.uploads[u].fileId) else b;
          var (f, x) := (failed || w1.uploads[u].state == Broken, waiting || w1.uploads[u].state == InProgress);
          StageAllFair(w1, channel, done + [c], todo[1..], uuids[1..], f, x);
          var s := StageAll(w, channel, done, todo, uuids, failed, waiting);
          assert s == StageAll(w1, channel, done + [c], todo[1..], uuids[1..], f, x);
          FairTwice(w.flow.posts, w1.flow.posts, StagedWorld(s).flow.posts, w.now);
        }
      }
    }
  }

  /** The same for all posts but one. */
  ghost predicate FairBut(a: map<Id, Post>, b: map<Id, Post>, x: Id, now: nat) {
    b.Keys == a.Keys && forall id :: id in a && id != x ==> Fair(a[id], b[id], now)
  }

  lemma FairButTwice(a: map<Id, Post>, b: map<Id, Post>, c: map<Id, Post>, x: Id, now: nat)
    requires FairBut(a, b, x, now) && FairBut(b, c, x, now)
    ensures FairBut(a, c, x, now)
  {
    forall id | id in a && id != x ensures Fair(a[id], c[id], now) {
      assert Fair(a[id], b[id], now) && Fair(b[id], c[id], now);
    }
  }

  lemma RestartOneFair(w: World, x: Id, i: nat, uuid: Id)
    requires x in w.flow.posts && i < |w.flow.posts[x].attachments|
    ensures FairBut(w.flow.posts, RestartOne(w, x, i, uuid).0.flow.posts, x, w.now)
  {
    var a := w.flow.posts[x].attachments[i];
    if a.fileId == "" {
      var channel := w.flow.posts[x].conversation.channel;
      var restage := a.uploadId !in w.uploads && channel in w.channels && a.path != "";
      var u := if restage && a.uploadId == "" then uuid else a.uploadId;
      StageFair(w, channel, a.path, u);
      NamedFair(w, if restage then Stage(w, channel, a.path, u) else w, x, i, u, RestartOne(w, x, i, uuid).0);
    }
  }

  lemma NamedFair(w: World, w1: World, x: Id, i: nat, u: Id, r: World)
    requires FairAll(w.flow.posts, w1.flow.posts, w.now) && w1.now == w.now
    requires x in w1.flow.posts && i < |w1.flow.posts[x].attachments|
    requires
      var b := w1.flow.posts[x].attachments[i];
      var w2 := SetAttachment(w1, x, i, b.(uploadId := u));
      r == if u in w2.uploads && w2.uploads[u].state == Ready
           then SetAttachment(w2, x, i, b.(uploadId := u, fileId := w2.uploads[u].fileId))
           else RetryUpload(w2, u)
    ensures FairBut(w.flow.posts, r.flow.posts, x, w.now)
  {
    var b := w1.flow.posts[x].attachments[i];
    RetriedFair(w, w1, SetAttachment(w1, x, i, b.(uploadId := u)), x, u);
  }

  lemma RetriedFair(w: World, w1: World, w2: World, x: Id, u: Id)
    requires FairAll(w.flow.posts, w1.flow.posts, w.now) && w1.now == w.now && w2.now == w.now
    requires w2.flow.posts.Keys == w1.flow.posts.Keys
    requires forall id :: id in w1.flow.posts && id != x ==> w2.flow.posts[id] == w1.flow.posts[id]
    ensures FairBut(w.flow.posts, w2.flow.posts, x, w.now)
    ensures FairBut(w.flow.posts, RetryUpload(w2, u).flow.posts, x, w.now)
  {
    StartUploadFair(w2, u, StartUpload(w2, u));
    FairButTwice(w.flow.posts, w2.flow.posts, RetryUpload(w2, u).flow.posts, x, w.now);
  }

  lemma {:induction false} RestartAllFair(w: World, x: Id, i: nat, uuids: seq<Id>)
    requires x in w.flow.posts && i <= |w.flow.posts[x].attachments| == |uuids|
    ensures FairBut(w.flow.posts, RestartAll(w, x, i, uuids).0.flow.posts, x, w.now)
    decreases |uuids| - i
  {
    if i < |uuids| {
      var v := RestartOne(w, x, i, uuids[i]).0;
      RestartOneFair(w, x, i, uuids[i]);
      RestartAllFair(v, x, i + 1, uuids);
      FairButTwice(w.flow.posts, v.flow.posts, RestartAll(w, x, i, uuids).0.flow.posts, x, w.now);
    }
  }

  /** An action in which an upload may fail. */
  predicate MovesUploads(a: Action) {
    a.Submit? || a.UserRetry? || a.ComposerStage? || (a.Deliver? && a.event.UploadReply?)
  }

  /** The reasons for which a post may fail. */
  predicate Cause(w: World, a: Action, p: Post, q: Post, id: Id) {
    || w.now - p.window >= RETRY_WINDOW || q.interveningCount >= MAX_INTERVENING
    || (MovesUploads(a) && !AttachmentsReady(p))
    || (a.Deliver? && a.event == Fire(id, p.generation)
        && (p.attempts >= MAX_ATTEMPTS || p.conversation.channel !in w.channels))
    || (a.Deliver? && a.event == Reply(id, p.generation) && a.outcome.Rejected?
        && (!a.outcome.retryable || p.attempts >= MAX_ATTEMPTS))
  }

  /** The post has failed in this step. */
  predicate HasFailed(w: World, r: World, id: Id) {
    id in w.flow.posts && id in r.flow.posts && w.flow.posts[id].state != Failed && r.flow.posts[id].state == Failed
  }

  lemma HandleFails(v: World, e: Event, outcome: Outcome, fileId: Id, r: World, id: Id)
    requires r == Handle(v, e, outcome, fileId) && HasFailed(v, r, id)
    requires !e.Fire? && !e.Deadline? && !e.Reply?
    ensures v.now - v.flow.posts[id].window >= RETRY_WINDOW || r.flow.posts[id].interveningCount >= MAX_INTERVENING
      || (e.UploadReply? && !AttachmentsReady(v.flow.posts[id]))
  {
    match e
    case Start(c) => StartFails(v, c, r, id);
    case RetryDue(x, g, _) => DueFails(v, x, g, r, id);
    case UploadReply(u, g) => UploadFails(v, u, g, fileId, r, id);
    case SaveAgain(_) => SaveFails(v, r, id);
    case Forget(_, _) =>
  }

  lemma StartFails(v: World, c: Conversation, r: World, id: Id)
    requires r == v.(flow := TryStart(v.flow, v.order, v.now, c)) && HasFailed(v, r, id)
    ensures v.now - v.flow.posts[id].window >= RETRY_WINDOW || r.flow.posts[id].interveningCount >= MAX_INTERVENING
  {
    StartFair(v.flow, v.order, v.now, c);
  }

  lemma AnswerFails(w: World, v: World, x: Id, g: nat, outcome: Outcome, r: World, id: Id)
    requires Safe(w) && Reply(x, g) in w.flow.events && v == Taken(w, Reply(x, g)) && r == OnReply(v, x, g, outcome)
    requires HasFailed(w, r, id)
    ensures id == x && g == w.flow.posts[id].generation && outcome.Rejected?
    ensures var p := w.flow.posts[id];
      !outcome.retryable || p.attempts >= MAX_ATTEMPTS || w.now - p.window >= RETRY_WINDOW
      || r.flow.posts[id].interveningCount >= MAX_INTERVENING
  {
    ReplyState(w, x, g, id);
    ReplyFails(v, x, g, outcome, r, id);
  }

  lemma OverdueFails(w: World, v: World, x: Id, window: nat, due: nat, r: World, id: Id)
    requires Safe(w) && Deadline(x, window, due) in w.flow.events && due <= w.now
    requires v == Taken(w, Deadline(x, window, due)) && r == OnDeadline(v, x, window) && HasFailed(w, r, id)
    ensures w.now - w.flow.posts[id].window >= RETRY_WINDOW
  {
    DeadlineFails(v, x, window, r, id);
    assert due == window + RETRY_WINDOW;
  }

  lemma UploadFails(v: World, u: Id, g: nat, fileId: Id, r: World, id: Id)
    requires r == FinishUpload(v, u, g, fileId) && HasFailed(v, r, id)
    ensures Late(v.flow.posts[id], v.now) || !AttachmentsReady(v.flow.posts[id])
    ensures r.flow.posts[id].interveningCount == v.flow.posts[id].interveningCount
  {
    FinishFair(v, u, g, fileId);
  }

  lemma SaveFails(v: World, r: World, id: Id)
    requires r == SaveBestEffort(v.(saveScheduled := false))
    ensures !HasFailed(v, r, id)
  {
  }

  lemma FireFails(v: World, x: Id, g: nat, r: World, id: Id)
    requires r == OnFire(v, x, g) && HasFailed(v, r, id)
    ensures var p := v.flow.posts[id];
      id == x && g == p.generation
      && (p.attempts >= MAX_ATTEMPTS || p.conversation.channel !in v.channels
          || v.now - p.window >= RETRY_WINDOW || r.flow.posts[id].interveningCount >= MAX_INTERVENING)
  {
  }

  lemma DeadlineFails(v: World, x: Id, window: nat, r: World, id: Id)
    requires r == OnDeadline(v, x, window) && HasFailed(v, r, id)
    ensures v.flow.posts[id].window == window
  {
  }

  lemma DueFails(v: World, x: Id, g: nat, r: World, id: Id)
    requires r == OnRetryDue(v, x, g) && HasFailed(v, r, id)
    ensures v.now - v.flow.posts[id].window >= RETRY_WINDOW || r.flow.posts[id].interveningCount >= MAX_INTERVENING
  {
    var f := Requeue(v.flow, x);
    RequeuedStart(f, v.order, v.now, v.flow.posts[x].conversation, id);
  }

  lemma RequeuedStart(f: Flow, order: seq<Id>, now: nat, c: Conversation, id: Id)
    requires id in f.posts && f.posts[id].state != Failed
    ensures var g := TryStart(f, order, now, c);
      id in g.posts && g.posts[id].window == f.posts[id].window
      && (g.posts[id].state == Failed ==>
            now - f.posts[id].window >= RETRY_WINDOW || g.posts[id].interveningCount >= MAX_INTERVENING)
  {
  }

  lemma ReplyState(w: World, x: Id, g: nat, id: Id)
    requires Safe(w) && Reply(x, g) in w.flow.events
    ensures x in w.flow.posts ==> w.flow.posts[x].generation == g && w.flow.posts[x].attempts > 0
  {
    if x in w.flow.posts {
      assert PostOk(x, w.flow.posts[x], First(w.flow.posts, x), w.flow.events, w.now, NOTHING);
    }
  }

  lemma ReplyFails(v: World, x: Id, g: nat, outcome: Outcome, r: World, id: Id)
    requires r == OnReply(v, x, g, outcome) && HasFailed(v, r, id)
    requires x in v.flow.posts ==> v.flow.posts[x].generation == g && v.flow.posts[x].attempts > 0
    ensures outcome.Rejected? && id == x
    ensures var p := v.flow.posts[id];
      !outcome.retryable || p.attempts >= MAX_ATTEMPTS || v.now - p.window >= RETRY_WINDOW
      || r.flow.posts[id].interveningCount >= MAX_INTERVENING
  {
    if x in v.flow.posts && outcome.Accepted? {
      AcceptedExactly(v, x, g, outcome.serverId, r);
    }
  }

  lemma ArriveFails(w: World, arrival: Arrival, r: World, id: Id)
    requires r == Authoritative(w, arrival) && HasFailed(w, r, id)
    ensures r.flow.posts[id].interveningCount >= MAX_INTERVENING
  {
    if !(arrival.id != "" && arrival.id in w.confirmed) && arrival.pendingId in w.flow.posts {
      if arrival.pendingId != "" {
        RemovedIsGone(Remember(w, arrival.id), arrival.pendingId, r);
      }
    }
  }

  lemma SubmitFails(w: World, d: Draft, r: World, id: Id)
    requires |d.uuids| == |d.attachments| && r == Enqueue(w, d).0 && HasFailed(w, r, id)
    ensures Late(w.flow.posts[id], w.now) || !AttachmentsReady(w.flow.posts[id])
    ensures r.flow.posts[id].interveningCount == w.flow.posts[id].interveningCount
  {
    var s := StageAll(w, d.conversation.channel, [], d.attachments, d.uuids, false, false);
    StageAllFair(w, d.conversation.channel, [], d.attachments, d.uuids, false, false);
    assert StagedWorld(s).flow.posts.Keys == w.flow.posts.Keys;
  }

  lemma RetryFails(w: World, x: Id, tail: nat, uuids: seq<Id>, r: World, id: Id)
    requires x in w.flow.posts ==> |uuids| == |w.flow.posts[x].attachments|
    requires r == Retry(w, x, tail, uuids) && HasFailed(w, r, id)
    ensures Late(w.flow.posts[id], w.now) || !AttachmentsReady(w.flow.posts[id])
    ensures r.flow.posts[id].interveningCount == w.flow.posts[id].interveningCount
  {
    if x in w.flow.posts && w.flow.posts[x].state == Failed {
      var v := Reopen(w, x, tail);
      RestartAllFair(v, x, 0, uuids);
      ResumedOthers(RestartAll(v, x, 0, uuids), x, id, r);
    }
  }

  lemma ResumedOthers(all: (World, bool), x: Id, id: Id, r: World)
    requires x in all.0.flow.posts && id in all.0.flow.posts && id != x && r == Resume(all.0, all.1, x)
    ensures id in r.flow.posts && r.flow.posts[id] == all.0.flow.posts[id]
  {
  }

  /**
   * No post fails without a cause: its time is up, three posts came in between, its attempts are used up, its channel
   * is gone, the server refused it for good, or an upload it needs moved in this step while a file of it is missing.
   */
  lemma FailsOnlyForCause(w: World, a: Action, r: World, id: Id)
    requires Safe(w) && Enabled(w, a) && r == Next(w, a) && HasFailed(w, r, id)
    ensures Cause(w, a, w.flow.posts[id], r.flow.posts[id], id)
  {
    if a.Deliver? {
      DeliveryFails(w, Taken(w, a.event), a, r, id);
    } else {
      CallFails(w, a, r, id);
    }
  }

  lemma DeliveryFails(w: World, v: World, a: Action, r: World, id: Id)
    requires Safe(w) && a.Deliver? && Enabled(w, a) && v == Taken(w, a.event) && HasFailed(w, r, id)
    requires r == Handle(v, a.event, a.outcome, a.fileId)
    ensures Cause(w, a, w.flow.posts[id], r.flow.posts[id], id)
  {
    if a.event.Fire? {
      FireFails(v, a.event.id, a.event.generation, r, id);
    } else if a.event.Deadline? {
      OverdueFails(w, v, a.event.id, a.event.window, a.event.due, r, id);
    } else if a.event.Reply? {
      AnswerFails(w, v, a.event.id, a.event.generation, a.outcome, r, id);
    } else {
      HandleFails(v, a.event, a.outcome, a.fileId, r, id);
    }
  }

  lemma CallFails(w: World, a: Action, r: World, id: Id)
    requires Enabled(w, a) && r == Next(w, a) && HasFailed(w, r, id) && !a.Deliver?
    ensures (MovesUploads(a) && (Late(w.flow.posts[id], w.now) || !AttachmentsReady(w.flow.posts[id]))
             && r.flow.posts[id].interveningCount == w.flow.posts[id].interveningCount)
      || r.flow.posts[id].interveningCount >= MAX_INTERVENING
  {
    match a
    case Submit(d) => SubmitFails(w, d, r, id);
    case UserRetry(x, tail, uuids) => RetryFails(w, x, tail, uuids, r, id);
    case Cancel(x) => CancelFails(w, x, r, id);
    case ComposerStage(channel, path, u) => StageFair(w, channel, path, u);
    case Arrive(arrival) => ArriveFails(w, arrival, r, id);
    case _ =>
  }

  lemma CancelFails(w: World, x: Id, r: World, id: Id)
    requires r == Remove(w, x)
    ensures !HasFailed(w, r, id)
  {
    if x in w.flow.posts {
      RemovedIsGone(w, x, r);
    }
  }
}
