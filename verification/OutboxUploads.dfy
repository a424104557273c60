/** Uploads finishing, failing and restarting under the posts that wait for them. */
module OutboxUploads {
  import opened Prelude
  import opened OutboxModel
  import opened OutboxSafety

  function Starting(o: Owed, cs: seq<Conversation>): Owed {
    o.(starts := o.starts + set c | c in cs)
  }

  /** One notification: a post that gets going owes its conversation a start. */
  lemma NoticeOne(id: Id, p: Post, first: bool, events: multiset<Event>, now: nat, o: Owed, o': Owed, u: Id, upload: Upload)
    requires PostOk(id, p, first, events, now, o)
    requires o'.deadlines == o.deadlines && o.starts <= o'.starts
    requires Waits(p, u) ==> p.conversation in o'.starts
    ensures PostOk(id, Notice(p, u, upload), first, events, now, o')
  {
  }

  /** Exactly the conversations with a waiting post are affected, each listed once. */
  lemma {:induction false} AffectedExactly(owned: seq<Id>, posts: map<Id, Post>, u: Id, seen: set<Conversation>)
    ensures forall id :: id in owned && id in posts && Waits(posts[id], u) && posts[id].conversation !in seen ==>
      posts[id].conversation in Affected(owned, posts, u, seen)
    ensures forall c :: c in Affected(owned, posts, u, seen) ==>
      && c !in seen
      && exists id :: id in owned && id in posts && Waits(posts[id], u) && posts[id].conversation == c
    ensures Distinct(Affected(owned, posts, u, seen))
    ensures |Affected(owned, posts, u, seen)| <= |owned|
  {
    if owned != [] {
      if owned[0] in posts && Waits(posts[owned[0]], u) && posts[owned[0]].conversation !in seen {
        AffectedExactly(owned[1..], posts, u, seen + {posts[owned[0]].conversation});
      } else {
        AffectedExactly(owned[1..], posts, u, seen);
      }
    }
  }

  lemma NoticeKeeps(f: Flow, owned: seq<Id>, u: Id, upload: Upload, now: nat, o: Owed)
    requires PostsOk(f, None, now, o) && forall id :: id in f.posts ==> id in owned
    ensures PostsOk(f.(posts := NoticeAll(f.posts, u, upload)), None, now, Starting(o, Affected(owned, f.posts, u, {})))
  {
    var posts := NoticeAll(f.posts, u, upload);
    var o' := Starting(o, Affected(owned, f.posts, u, {}));
    AffectedExactly(owned, f.posts, u, {});
    RowsPlaces(f.posts, posts);
    forall id | id in posts
      ensures PostOk(id, posts[id], First(f.posts, id), f.events, now, o')
    {
      NoticeOne(id, f.posts[id], First(f.posts, id), f.events, now, o, o', u, upload);
    }
    ChangeAll(f.posts, posts, f.events, None, now, o');
  }

  lemma UploadChangedKeeps(w: World, u: Id, o: Owed)
    requires Ordered(w.order, w.flow.posts) && w.owned == w.order && o.starts == {}
    requires PostsOk(w.flow, None, w.now, o)
    ensures PostsOk(UploadChanged(w, u).flow, None, w.now, o)
  {
    if u != "" && u in w.uploads {
      var cs := Affected(w.owned, w.flow.posts, u, {});
      NoticeKeeps(w.flow, w.owned, u, w.uploads[u], w.now, o);
      var w1 := w.(flow := w.flow.(posts := NoticeAll(w.flow.posts, u, w.uploads[u])));
      var w2 := if cs == [] then w1 else SaveBestEffort(w1);
      MildFlow(w1.flow, w2.flow, None, w.now, Starting(o, cs));
      RowsPlaces(w.flow.posts, w2.flow.posts);
      SameOrdered(w.order, w.flow.posts, w2.flow.posts);
      TryStartAllKeeps(w2.flow, w2.order, cs, w2.now, Starting(o, cs));
      assert Starting(o, cs).(starts := {}) == o;
    }
  }

  lemma MoreUploadEvents(uploads: map<Id, Upload>, a: multiset<Event>, b: multiset<Event>, but: Option<Id>)
    requires UploadsOk(uploads, a, but) && a <= b
    ensures UploadsOk(uploads, b, but)
  {
  }

  /** The upload is settled, and everything that waited for it has been told. */
  lemma SettledKeeps(w: World, w1: World, u: Id, o: Owed, r: World)
    requires Ordered(w.order, w.flow.posts) && w.owned == w.order && o.starts == {} && w1 == w.(uploads := w1.uploads)
    requires PostsOk(w.flow, None, w.now, o) && UploadsOk(w1.uploads, w.flow.events, None) && r == UploadChanged(w1, u)
    ensures PostsOk(r.flow, None, w.now, o) && UploadsOk(r.uploads, r.flow.events, None)
  {
    UploadChangedKeeps(w1, u, o);
    MoreUploadEvents(w1.uploads, w.flow.events, r.flow.events, None);
  }

  lemma SettledOk(w: World, u: Id, state: UploadState, fileId: Id, generation: nat)
    requires u in w.uploads && UploadsOk(w.uploads, w.flow.events, Some(u))
    requires state == if fileId == "" then Broken else Ready
    ensures UploadsOk(SetUpload(w, u, state, fileId, generation).uploads, w.flow.events, None)
  {
  }

  /** A completion settles the upload it belongs to; one of an older generation changes nothing. */
  lemma FinishUploadKeeps(w: World, u: Id, generation: nat, fileId: Id, o: Owed)
    requires Ordered(w.order, w.flow.posts) && w.owned == w.order && o.starts == {}
    requires PostsOk(w.flow, None, w.now, o) && UploadsOk(w.uploads, w.flow.events, Some(u))
    requires u in w.uploads && w.uploads[u].generation != generation ==> UploadOk(u, w.uploads[u], w.flow.events)
    ensures PostsOk(FinishUpload(w, u, generation, fileId).flow, None, w.now, o)
    ensures UploadsOk(FinishUpload(w, u, generation, fileId).uploads, FinishUpload(w, u, generation, fileId).flow.events, None)
  {
    if u in w.uploads && w.uploads[u].generation == generation {
      var state := if fileId == "" then Broken else Ready;
      SettledOk(w, u, state, fileId, generation);
      SettledKeeps(w, SetUpload(w, u, state, fileId, generation), u, o, FinishUpload(w, u, generation, fileId));
    }
  }

  lemma StartUploadKeeps(w: World, u: Id, o: Owed)
    requires Ordered(w.order, w.flow.posts) && w.owned == w.order && o.starts == {} && u in w.uploads
    requires PostsOk(w.flow, None, w.now, o) && UploadsOk(w.uploads, w.flow.events, Some(u))
    ensures PostsOk(StartUpload(w, u).flow, None, w.now, o)
    ensures UploadsOk(StartUpload(w, u).uploads, StartUpload(w, u).flow.events, None)
  {
    if w.uploads[u].channel !in w.channels {
      StartUnreachable(w, u, o);
    } else if w.uploads[u].path in w.readable {
      StartRunning(w, u, o);
    } else {
      StartUnreadable(w, u, o);
    }
  }

  lemma StartUnreachable(w: World, u: Id, o: Owed)
    requires Ordered(w.order, w.flow.posts) && w.owned == w.order && o.starts == {} && u in w.uploads
    requires PostsOk(w.flow, None, w.now, o) && UploadsOk(w.uploads, w.flow.events, Some(u))
    requires w.uploads[u].channel !in w.channels
    ensures PostsOk(StartUpload(w, u).flow, None, w.now, o)
    ensures UploadsOk(StartUpload(w, u).uploads, StartUpload(w, u).flow.events, None)
  {
    Unreachable(w, SetUpload(w, u, Broken, "", w.uploads[u].generation + 1), u, o, StartUpload(w, u));
  }

  lemma StartRunning(w: World, u: Id, o: Owed)
    requires Ordered(w.order, w.flow.posts) && w.owned == w.order && o.starts == {} && u in w.uploads
    requires PostsOk(w.flow, None, w.now, o) && UploadsOk(w.uploads, w.flow.events, Some(u))
    requires w.uploads[u].channel in w.channels && w.uploads[u].path in w.readable
    ensures PostsOk(StartUpload(w, u).flow, None, w.now, o)
    ensures UploadsOk(StartUpload(w, u).uploads, StartUpload(w, u).flow.events, None)
  {
    Running(w, SetUpload(w, u, InProgress, "", w.uploads[u].generation + 1), u, o, StartUpload(w, u));
  }

  lemma StartUnreadable(w: World, u: Id, o: Owed)
    requires Ordered(w.order, w.flow.posts) && w.owned == w.order && o.starts == {} && u in w.uploads
    requires PostsOk(w.flow, None, w.now, o) && UploadsOk(w.uploads, w.flow.events, Some(u))
    requires w.uploads[u].channel in w.channels && w.uploads[u].path !in w.readable
    ensures PostsOk(StartUpload(w, u).flow, None, w.now, o)
    ensures UploadsOk(StartUpload(w, u).uploads, StartUpload(w, u).flow.events, None)
  {
    Unreadable(w, SetUpload(w, u, InProgress, "", w.uploads[u].generation + 1), u, o, StartUpload(w, u));
  }

  lemma Unreachable(w: World, w0: World, u: Id, o: Owed, r: World)
    requires Ordered(w.order, w.flow.posts) && w.owned == w.order && o.starts == {} && u in w.uploads
    requires PostsOk(w.flow, None, w.now, o) && UploadsOk(w.uploads, w.flow.events, Some(u))
    requires w0 == SetUpload(w, u, Broken, "", w.uploads[u].generation + 1) && r == UploadChanged(w0, u)
    ensures PostsOk(r.flow, None, w.now, o) && UploadsOk(r.uploads, r.flow.events, None)
  {
    UploadChangedKeeps(w0, u, o);
    MoreUploadEvents(w0.uploads, w.flow.events, r.flow.events, None);
  }

  lemma Running(w: World, w0: World, u: Id, o: Owed, r: World)
    requires Ordered(w.order, w.flow.posts) && w.owned == w.order && o.starts == {} && u in w.uploads
    requires PostsOk(w.flow, None, w.now, o) && UploadsOk(w.uploads, w.flow.events, Some(u))
    requires w0 == SetUpload(w, u, InProgress, "", w.uploads[u].generation + 1)
    requires r.flow == Later(UploadChanged(w0, u).flow, UploadReply(u, w.uploads[u].generation + 1)) && r.uploads == w0.uploads
    ensures PostsOk(r.flow, None, w.now, o) && UploadsOk(r.uploads, r.flow.events, None)
  {
    UploadChangedKeeps(w0, u, o);
    var w1 := UploadChanged(w0, u);
    var e := UploadReply(u, w.uploads[u].generation + 1);
    MoreTimers(w1.flow, e, None, w.now, o);
    MoreUploadEvents(w0.uploads, w.flow.events, r.flow.events, Some(u));
    assert e in r.flow.events;
  }

  lemma Unreadable(w: World, w0: World, u: Id, o: Owed, r: World)
    requires Ordered(w.order, w.flow.posts) && w.owned == w.order && o.starts == {} && u in w.uploads
    requires PostsOk(w.flow, None, w.now, o) && UploadsOk(w.uploads, w.flow.events, Some(u))
    requires w0 == SetUpload(w, u, InProgress, "", w.uploads[u].generation + 1)
    requires r == FinishUpload(UploadChanged(w0, u), u, w.uploads[u].generation + 1, "")
    ensures PostsOk(r.flow, None, w.now, o) && UploadsOk(r.uploads, r.flow.events, None)
  {
    UploadChangedKeeps(w0, u, o);
    var w1 := UploadChanged(w0, u);
    MoreUploadEvents(w0.uploads, w.flow.events, w1.flow.events, Some(u));
    RowsPlaces(w.flow.posts, w1.flow.posts);
    SameOrdered(w.order, w.flow.posts, w1.flow.posts);
    FinishUploadKeeps(w1, u, w.uploads[u].generation + 1, "", o);
  }

  lemma StageKeeps(w: World, channel: Id, path: string, u: Id, o: Owed)
    requires Ordered(w.order, w.flow.posts) && w.owned == w.order && o.starts == {}
    requires PostsOk(w.flow, None, w.now, o) && UploadsOk(w.uploads, w.flow.events, None)
    ensures PostsOk(Stage(w, channel, path, u).flow, None, w.now, o)
    ensures UploadsOk(Stage(w, channel, path, u).uploads, Stage(w, channel, path, u).flow.events, None)
  {
    if channel != "" && path != "" && u != ""
       && !(u in w.uploads && w.uploads[u].channel == channel && w.uploads[u].path == path) {
      StartUploadKeeps(w.(uploads := w.uploads[u := Upload(channel, path, InProgress, "", 0)]), u, o);
    }
  }

  lemma RetryUploadKeeps(w: World, u: Id, o: Owed)
    requires Ordered(w.order, w.flow.posts) && w.owned == w.order && o.starts == {}
    requires PostsOk(w.flow, None, w.now, o) && UploadsOk(w.uploads, w.flow.events, None)
    ensures PostsOk(RetryUpload(w, u).flow, None, w.now, o)
    ensures UploadsOk(RetryUpload(w, u).uploads, RetryUpload(w, u).flow.events, None)
  {
    if u in w.uploads && w.uploads[u].state == Broken {
      StartUploadKeeps(w, u, o);
    }
  }
}
