/** The files a post is sent with: what the server gave for its uploads, or what the submission came with. */
module OutboxFiles {
  import opened Prelude
  import opened OutboxModel
  import opened OutboxSafety
  import opened OutboxRuns
  import opened OutboxTheorems
  import opened OutboxContent

  /** An upload identifier with the server's file identifier. */
  type Pair = (Id, Id)

  predicate PairsIn(atts: seq<Attachment>, known: set<Pair>) {
    forall i :: 0 <= i < |atts| && atts[i].fileId != "" ==> (atts[i].uploadId, atts[i].fileId) in known
  }

  ghost predicate PostsKnown(posts: map<Id, Post>, known: set<Pair>) {
    forall id :: id in posts ==> PairsIn(posts[id].attachments, known)
  }

  ghost predicate UploadsKnown(uploads: map<Id, Upload>, known: set<Pair>) {
    forall u :: u in uploads && uploads[u].fileId != "" ==> (u, uploads[u].fileId) in known
  }

  ghost predicate Known(w: World, known: set<Pair>) {
    PostsKnown(w.flow.posts, known) && UploadsKnown(w.uploads, known)
  }

  // ---------------------------------------------------------------- uploads

  lemma StartKnown(f: Flow, order: seq<Id>, now: nat, c: Conversation, known: set<Pair>)
    requires PostsKnown(f.posts, known)
    ensures PostsKnown(TryStart(f, order, now, c).posts, known)
  {
  }

  lemma {:induction false} StartAllKnown(f: Flow, order: seq<Id>, now: nat, cs: seq<Conversation>, known: set<Pair>)
    requires PostsKnown(f.posts, known)
    ensures PostsKnown(TryStartAll(f, order, now, cs).posts, known)
    decreases |cs|
  {
    if cs != [] {
      StartKnown(f, order, now, cs[0], known);
      StartAllKnown(TryStart(f, order, now, cs[0]), order, now, cs[1..], known);
    }
  }

  lemma NoticeKnown(p: Post, u: Id, upload: Upload, known: set<Pair>)
    requires PairsIn(p.attachments, known) && (upload.fileId != "" ==> (u, upload.fileId) in known)
    ensures PairsIn(Notice(p, u, upload).attachments, known)
  {
  }

  lemma ChangedKnown(w: World, u: Id, known: set<Pair>)
    requires Known(w, known)
    ensures Known(UploadChanged(w, u), known)
  {
    if u != "" && u in w.uploads {
      var posts := NoticeAll(w.flow.posts, u, w.uploads[u]);
      forall id | id in posts ensures PairsIn(posts[id].attachments, known) {
        NoticeKnown(w.flow.posts[id], u, w.uploads[u], known);
      }
      ChangedStarts(w, u, posts, known);
    }
  }

  lemma ChangedStarts(w: World, u: Id, posts: map<Id, Post>, known: set<Pair>)
    requires u != "" && u in w.uploads && posts == NoticeAll(w.flow.posts, u, w.uploads[u])
    requires PostsKnown(posts, known)
    ensures PostsKnown(UploadChanged(w, u).flow.posts, known)
  {
    var cs := Affected(w.owned, w.flow.posts, u, {});
    var w1 := w.(flow := w.flow.(posts := posts));
    var w2 := if cs == [] then w1 else SaveBestEffort(w1);
    StartAllKnown(w2.flow, w2.order, w2.now, cs, known);
  }

  lemma FinishKnown(w: World, u: Id, g: nat, fileId: Id, known: set<Pair>)
    requires Known(w, known) && (fileId != "" ==> (u, fileId) in known)
    ensures Known(FinishUpload(w, u, g, fileId), known)
  {
    if u in w.uploads {
      ChangedKnown(SetUpload(w, u, if fileId == "" then Broken else Ready, fileId, g), u, known);
    }
  }

  lemma StartUploadKnown(w: World, u: Id, r: World, known: set<Pair>)
    requires Known(w, known) && r == StartUpload(w, u)
    ensures Known(r, known)
  {
    if u in w.uploads && w.uploads[u].channel !in w.channels {
      UnreachableKnown(w, u, r, known);
    } else if u in w.uploads {
      ReachableKnown(w, u, r, known);
    }
  }

  lemma UnreachableKnown(w: World, u: Id, r: World, known: set<Pair>)
    requires Known(w, known) && u in w.uploads && w.uploads[u].channel !in w.channels && r == StartUpload(w, u)
    ensures Known(r, known)
  {
    var v := SetUpload(w, u, Broken, "", w.uploads[u].generation + 1);
    assert r == UploadChanged(v, u);
    ChangedKnown(v, u, known);
  }

  lemma ReachableKnown(w: World, u: Id, r: World, known: set<Pair>)
    requires Known(w, known) && u in w.uploads && w.uploads[u].channel in w.channels && r == StartUpload(w, u)
    ensures Known(r, known)
  {
    var w0 := SetUpload(w, u, InProgress, "", w.uploads[u].generation + 1);
    ChangedKnown(w0, u, known);
    RunningKnown(w.uploads[u].path in w.readable, UploadChanged(w0, u), u, w.uploads[u].generation + 1, r, known);
  }

  lemma RunningKnown(readable: bool, w1: World, u: Id, g: nat, r: World, known: set<Pair>)
    requires Known(w1, known)
    requires r == if readable then w1.(flow := Later(w1.flow, UploadReply(u, g))) else FinishUpload(w1, u, g, "")
    ensures Known(r, known)
  {
    if !readable {
      FinishKnown(w1, u, g, "", known);
    }
  }

  lemma StageKnown(w: World, channel: Id, path: string, u: Id, known: set<Pair>)
    requires Known(w, known)
    ensures Known(Stage(w, channel, path, u), known)
  {
    var v := w.(uploads := w.uploads[u := Upload(channel, path, InProgress, "", 0)]);
    StartUploadKnown(v, u, StartUpload(v, u), known);
  }

  // ---------------------------------------------------------------- which files an upload fills in

  ghost predicate SameFiles(a: map<Id, Post>, b: map<Id, Post>) {
    b.Keys == a.Keys && forall id :: id in a ==> b[id].attachments == a[id].attachments
  }

  lemma {:induction false} StartsKeepFiles(f: Flow, order: seq<Id>, now: nat, cs: seq<Conversation>)
    ensures SameFiles(f.posts, TryStartAll(f, order, now, cs).posts)
    decreases |cs|
  {
    if cs != [] {
      StartKeepsFiles(f, order, now, cs[0]);
      StartsKeepFiles(TryStart(f, order, now, cs[0]), order, now, cs[1..]);
    }
  }

  lemma StartKeepsFiles(f: Flow, order: seq<Id>, now: nat, c: Conversation)
    ensures SameFiles(f.posts, TryStart(f, order, now, c).posts)
  {
  }

  /** Who waits for an upload that is ready gets its file; everybody else keeps what they have. */
  function FilesAfter(p: Post, u: Id, upload: Upload): seq<Attachment> {
    seq(|p.attachments|, i requires 0 <= i < |p.attachments| => FileAfter(p.attachments[i], u, upload))
  }

  function FileAfter(a: Attachment, u: Id, upload: Upload): Attachment {
    if upload.state == Ready && a.uploadId == u && a.fileId == "" then a.(fileId := upload.fileId) else a
  }

  lemma NoticeFills(p: Post, u: Id, upload: Upload)
    ensures Notice(p, u, upload).attachments == FilesAfter(p, u, upload)
  {
    var q := Notice(p, u, upload).attachments;
    assert |q| == |p.attachments|;
    forall i | 0 <= i < |q| ensures q[i] == FilesAfter(p, u, upload)[i] {
    }
  }

  ghost predicate FilledAll(a: map<Id, Post>, b: map<Id, Post>, u: Id, upload: Upload) {
    b.Keys == a.Keys && forall id :: id in a ==> b[id].attachments == FilesAfter(a[id], u, upload)
  }

  lemma ChangedFills(w: World, u: Id)
    requires u != "" && u in w.uploads
    ensures FilledAll(w.flow.posts, UploadChanged(w, u).flow.posts, u, w.uploads[u])
  {
    var posts := NoticeAll(w.flow.posts, u, w.uploads[u]);
    forall id | id in posts ensures posts[id].attachments == FilesAfter(w.flow.posts[id], u, w.uploads[u]) {
      NoticeFills(w.flow.posts[id], u, w.uploads[u]);
    }
    ChangedStartsKeep(w, u, posts);
  }

  lemma ChangedStartsKeep(w: World, u: Id, posts: map<Id, Post>)
    requires u != "" && u in w.uploads && posts == NoticeAll(w.flow.posts, u, w.uploads[u])
    ensures SameFiles(posts, UploadChanged(w, u).flow.posts)
  {
    var cs := Affected(w.owned, w.flow.posts, u, {});
    var w1 := w.(flow := w.flow.(posts := posts));
    var w2 := if cs == [] then w1 else SaveBestEffort(w1);
    StartsKeepFiles(w2.flow, w2.order, w2.now, cs);
  }

  /** A finished upload is ready with the server's file, and so is every attachment that waited for it. */
  lemma FinishedFills(w: World, u: Id, g: nat, fileId: Id, r: World)
    requires u != "" && u in w.uploads && w.uploads[u].generation == g && r == FinishUpload(w, u, g, fileId)
    ensures u in r.uploads && r.uploads[u].state == (if fileId == "" then Broken else Ready) && r.uploads[u].fileId == fileId
    ensures r.uploads[u].path == w.uploads[u].path && r.uploads[u].channel == w.uploads[u].channel
    ensures forall x :: x != u ==> (x in r.uploads <==> x in w.uploads) && (x in w.uploads ==> r.uploads[x] == w.uploads[x])
    ensures FilledAll(w.flow.posts, r.flow.posts, u, r.uploads[u])
  {
    ChangedFills(SetUpload(w, u, if fileId == "" then Broken else Ready, fileId, g), u);
  }

  /** An upload that is not ready fills nothing in. */
  lemma ChangedKeeps(w: World, u: Id)
    requires u in w.uploads ==> w.uploads[u].state != Ready
    ensures SameFiles(w.flow.posts, UploadChanged(w, u).flow.posts)
  {
    if u != "" && u in w.uploads {
      ChangedFills(w, u);
      forall id | id in w.flow.posts ensures FilesAfter(w.flow.posts[id], u, w.uploads[u]) == w.flow.posts[id].attachments {
      }
    }
  }

  lemma StartUploadKeeps(w: World, u: Id, r: World)
    requires r == StartUpload(w, u)
    ensures SameFiles(w.flow.posts, r.flow.posts)
  {
    if u in w.uploads && w.uploads[u].channel !in w.channels {
      UnreachableKeeps(w, u, r);
    } else if u in w.uploads {
      ReachableKeeps(w, u, r);
    }
  }

  lemma UnreachableKeeps(w: World, u: Id, r: World)
    requires u in w.uploads && w.uploads[u].channel !in w.channels && r == StartUpload(w, u)
    ensures SameFiles(w.flow.posts, r.flow.posts)
  {
    var v := SetUpload(w, u, Broken, "", w.uploads[u].generation + 1);
    assert r == UploadChanged(v, u);
    ChangedKeeps(v, u);
  }

  lemma ReachableKeeps(w: World, u: Id, r: World)
    requires u in w.uploads && w.uploads[u].channel in w.channels && r == StartUpload(w, u)
    ensures SameFiles(w.flow.posts, r.flow.posts)
  {
    var w0 := SetUpload(w, u, InProgress, "", w.uploads[u].generation + 1);
    ChangedKeeps(w0, u);
    RunningKeeps(w.flow.posts, w.uploads[u].path in w.readable, UploadChanged(w0, u), u, w.uploads[u].generation + 1, r);
  }

  lemma RunningKeeps(posts: map<Id, Post>, readable: bool, w1: World, u: Id, g: nat, r: World)
    requires SameFiles(posts, w1.flow.posts)
    requires r == if readable then w1.(flow := Later(w1.flow, UploadReply(u, g))) else FinishUpload(w1, u, g, "")
    ensures SameFiles(posts, r.flow.posts)
  {
    if !readable && u in w1.uploads {
      ChangedKeeps(SetUpload(w1, u, Broken, "", g), u);
    }
  }

  /** Staging gives no attachment a file. */
  lemma StageKeeps(w: World, channel: Id, path: string, u: Id)
    ensures SameFiles(w.flow.posts, Stage(w, channel, path, u).flow.posts)
  {
    var v := w.(uploads := w.uploads[u := Upload(channel, path, InProgress, "", 0)]);
    StartUploadKeeps(v, u, StartUpload(v, u));
  }

  // ---------------------------------------------------------------- submissions and retries

  lemma PairsTail(atts: seq<Attachment>, known: set<Pair>)
    requires PairsIn(atts, known) && atts != []
    ensures PairsIn(atts[1..], known)
  {
    forall i | 0 <= i < |atts| - 1 ensures atts[1..][i] == atts[i + 1] {
    }
  }

  lemma PairsMore(atts: seq<Attachment>, a: Attachment, known: set<Pair>)
    requires PairsIn(atts, known) && (a.fileId != "" ==> (a.uploadId, a.fileId) in known)
    ensures PairsIn(atts + [a], known)
  {
  }

  lemma {:induction false} StageAllKnown(w: World, channel: Id, done: seq<Attachment>, todo: seq<Attachment>,
                                         uuids: seq<Id>, failed: bool, waiting: bool, known: set<Pair>)
    requires |uuids| == |todo| && Known(w, known) && PairsIn(done, known) && PairsIn(todo, known)
    ensures var s := StageAll(w, channel, done, todo, uuids, failed, waiting);
      Known(StagedWorld(s), known) && (s.Staged? ==> PairsIn(s.attachments, known))
    decreases |todo|
  {
    if todo != [] {
      var a := todo[0];
      PairsTail(todo, known);
      if a.fileId != "" {
        PairsMore(done, a, known);
        StageAllKnown(w, channel, done + [a], todo[1..], uuids[1..], failed, waiting, known);
      } else if a.path != "" {
        var u := if a.uploadId == "" then uuids[0] else a.uploadId;
        var (w1, b) := (Stage(w, channel, a.path, u), a.(uploadId := u));
        StageKnown(w, channel, a.path, u, known);
        PairsMore(done, b, known);
        if u in w1.uploads {
          match w1.uploads[u].state
          case Ready =>
            var c := b.(fileId := w1.uploads[u].fileId);
            PairsMore(done, c, known);
            StageAllKnown(w1, channel, done + [c], todo[1..], uuids[1..], failed, waiting, known);
          case Broken => StageAllKnown(w1, channel, done + [b], todo[1..], uuids[1..], true, waiting, known);
          case InProgress => StageAllKnown(w1, channel, done + [b], todo[1..], uuids[1..], failed, true, known);
        }
      }
    }
  }

  lemma SubmitKnown(w: World, d: Draft, known: set<Pair>)
    requires |d.uuids| == |d.attachments| && Known(w, known) && PairsIn(d.attachments, known)
    ensures Known(Enqueue(w, d).0, known)
  {
    if Enqueueable(d) && d.id !in w.flow.posts {
      StageAllKnown(w, d.conversation.channel, [], d.attachments, d.uuids, false, false, known);
      var s := StageAll(w, d.conversation.channel, [], d.attachments, d.uuids, false, false);
      if s.Staged? {
        AdmitKnown(s.world, d.id, NewPost(d, s.attachments, s.world.now, s.world.tickets, s.failed, s.waiting), known);
      }
    }
  }

  lemma AdmitKnown(w: World, id: Id, p: Post, known: set<Pair>)
    requires Known(w, known) && PairsIn(p.attachments, known)
    ensures Known(Admit(w, id, p).0, known)
  {
    ReleaseKnown(w.uploads, p.attachments, known);
  }

  lemma {:induction false} ReleaseKnown(uploads: map<Id, Upload>, atts: seq<Attachment>, known: set<Pair>)
    requires UploadsKnown(uploads, known)
    ensures UploadsKnown(ReleaseAll(uploads, atts), known)
  {
    if atts != [] {
      ReleaseKnown(if atts[0].uploadId == "" then uploads else uploads - {atts[0].uploadId}, atts[1..], known);
    }
  }

  lemma NameKnown(w: World, id: Id, i: nat, a: Attachment, known: set<Pair>)
    requires Known(w, known) && id in w.flow.posts && i < |w.flow.posts[id].attachments|
    requires a.path == w.flow.posts[id].attachments[i].path && (a.fileId != "" ==> (a.uploadId, a.fileId) in known)
    ensures Known(SetAttachment(w, id, i, a), known)
  {
  }

  lemma RestartOneKnown(w: World, id: Id, i: nat, uuid: Id, known: set<Pair>)
    requires Known(w, known) && id in w.flow.posts && i < |w.flow.posts[id].attachments|
    ensures Known(RestartOne(w, id, i, uuid).0, known)
  {
    var a := w.flow.posts[id].attachments[i];
    if a.fileId == "" {
      var channel := w.flow.posts[id].conversation.channel;
      var restage := a.uploadId !in w.uploads && channel in w.channels && a.path != "";
      var u := if restage && a.uploadId == "" then uuid else a.uploadId;
      StageKnown(w, channel, a.path, u, known);
      StageKeeps(w, channel, a.path, u);
      NamedKnown(if restage then Stage(w, channel, a.path, u) else w, id, i, u, RestartOne(w, id, i, uuid).0, known);
    }
  }

  lemma NamedKnown(w1: World, id: Id, i: nat, u: Id, r: World, known: set<Pair>)
    requires Known(w1, known) && id in w1.flow.posts && i < |w1.flow.posts[id].attachments|
    requires w1.flow.posts[id].attachments[i].fileId == ""
    requires
      var b := w1.flow.posts[id].attachments[i];
      var w2 := SetAttachment(w1, id, i, b.(uploadId := u));
      r == if u in w2.uploads && w2.uploads[u].state == Ready
           then SetAttachment(w2, id, i, b.(uploadId := u, fileId := w2.uploads[u].fileId))
           else RetryUpload(w2, u)
    ensures Known(r, known)
  {
    var b := w1.flow.posts[id].attachments[i];
    NameKnown(w1, id, i, b.(uploadId := u), known);
    var w2 := SetAttachment(w1, id, i, b.(uploadId := u));
    if u in w2.uploads {
      NameKnown(w2, id, i, b.(uploadId := u, fileId := w2.uploads[u].fileId), known);
    }
    StartUploadKnown(w2, u, StartUpload(w2, u), known);
  }

  lemma {:induction false} RestartAllKnown(w: World, id: Id, i: nat, uuids: seq<Id>, known: set<Pair>)
    requires Known(w, known) && id in w.flow.posts && i <= |w.flow.posts[id].attachments| == |uuids|
    ensures Known(RestartAll(w, id, i, uuids).0, known)
    decreases |uuids| - i
  {
    if i < |uuids| {
      RestartOneKnown(w, id, i, uuids[i], known);
      RestartAllKnown(RestartOne(w, id, i, uuids[i]).0, id, i + 1, uuids, known);
    }
  }

  lemma RetryKnown(w: World, id: Id, tail: nat, uuids: seq<Id>, known: set<Pair>)
    requires Known(w, known) && id in w.flow.posts && |uuids| == |w.flow.posts[id].attachments|
    ensures Known(Retry(w, id, tail, uuids), known)
  {
    if w.flow.posts[id].state == Failed {
      var v := Reopen(w, id, tail);
      RestartAllKnown(v, id, 0, uuids, known);
      ResumeKnown(RestartAll(v, id, 0, uuids), id, known);
    }
  }

  lemma ResumeKnown(all: (World, bool), id: Id, known: set<Pair>)
    requires id in all.0.flow.posts && Known(all.0, known)
    ensures Known(Resume(all.0, all.1, id), known)
  {
  }

  // ---------------------------------------------------------------- every step

  lemma RemoveKnown(w: World, id: Id, known: set<Pair>)
    requires Known(w, known)
    ensures Known(Remove(w, id), known)
  {
    if id in w.flow.posts {
      ReleaseKnown(w.uploads, w.flow.posts[id].attachments, known);
    }
  }

  lemma ReplyKnown(w: World, id: Id, g: nat, outcome: Outcome, known: set<Pair>)
    requires Known(w, known)
    ensures Known(OnReply(w, id, g, outcome), known)
  {
    if outcome.Accepted? {
      RemoveKnown(Remember(w, outcome.serverId), id, known);
    }
  }

  lemma DueKnown(w: World, id: Id, g: nat, known: set<Pair>)
    requires Known(w, known)
    ensures Known(OnRetryDue(w, id, g), known)
  {
    if id in w.flow.posts {
      StartKnown(Requeue(w.flow, id), w.order, w.now, w.flow.posts[id].conversation, known);
    }
  }

  lemma FireKnown(w: World, id: Id, g: nat, known: set<Pair>)
    requires Known(w, known)
    ensures Known(OnFire(w, id, g), known)
  {
  }

  /** What a step makes known: the files a submission comes with, and the file of an upload that is done. */
  function Learned(a: Action): set<Pair> {
    match a
    case Submit(d) => set i | 0 <= i < |d.attachments| :: (d.attachments[i].uploadId, d.attachments[i].fileId)
    case Deliver(UploadReply(u, _), _, fileId) => {(u, fileId)}
    case _ => {}
  }

  lemma HandleKnown(w: World, e: Event, outcome: Outcome, fileId: Id, known: set<Pair>)
    requires Known(w, known) && (e.UploadReply? ==> (e.uploadId, fileId) in known)
    ensures Known(Handle(w, e, outcome, fileId), known)
  {
    match e
    case Start(c) => StartKnown(w.flow, w.order, w.now, c, known);
    case Fire(id, g) => FireKnown(w, id, g, known);
    case RetryDue(id, g, _) => DueKnown(w, id, g, known);
    case Reply(id, g) => ReplyKnown(w, id, g, outcome, known);
    case UploadReply(u, g) => FinishKnown(w, u, g, fileId, known);
    case _ =>
  }

  lemma DraftKnown(d: Draft, known: set<Pair>)
    requires Learned(Submit(d)) <= known
    ensures PairsIn(d.attachments, known)
  {
    forall i | 0 <= i < |d.attachments|
      ensures (d.attachments[i].uploadId, d.attachments[i].fileId) in Learned(Submit(d))
    {
    }
  }

  lemma RetriedKnown(w: World, id: Id, tail: nat, uuids: seq<Id>, known: set<Pair>)
    requires Known(w, known) && (id in w.flow.posts ==> |uuids| == |w.flow.posts[id].attachments|)
    ensures Known(Retry(w, id, tail, uuids), known)
  {
    if id in w.flow.posts {
      RetryKnown(w, id, tail, uuids, known);
    }
  }

  lemma ArriveKnown(w: World, arrival: Arrival, known: set<Pair>)
    requires Known(w, known)
    ensures Known(Authoritative(w, arrival), known)
  {
    if arrival.pendingId != "" && arrival.pendingId in w.flow.posts {
      RemoveKnown(Remember(w, arrival.id), arrival.pendingId, known);
    }
  }

  lemma DeliverKnown(w: World, e: Event, outcome: Outcome, fileId: Id, known: set<Pair>)
    requires Known(w, known) && (e.UploadReply? ==> (e.uploadId, fileId) in known)
    ensures Known(Handle(Taken(w, e), e, outcome, fileId), known)
  {
    HandleKnown(Taken(w, e), e, outcome, fileId, known);
  }

  lemma StepKnown(w: World, a: Action, r: World, known: set<Pair>)
    requires Enabled(w, a) && r == Next(w, a) && Known(w, known) && Learned(a) <= known
    ensures Known(r, known)
  {
    match a
    case Submit(d) =>
      DraftKnown(d, known);
      SubmitKnown(w, d, known);
    case UserRetry(id, tail, uuids) => RetriedKnown(w, id, tail, uuids, known);
    case Cancel(id) => RemoveKnown(w, id, known);
    case ComposerStage(channel, path, u) => StageKnown(w, channel, path, u, known);
    case Arrive(arrival) => ArriveKnown(w, arrival, known);
    case Deliver(e, outcome, fileId) => DeliverKnown(w, e, outcome, fileId, known);
    case _ =>
  }

  // ---------------------------------------------------------------- over runs

  function AllLearned(acts: seq<Action>, i: nat): set<Pair>
    requires i <= |acts|
  {
    if i == 0 then {} else AllLearned(acts, i - 1) + Learned(acts[i - 1])
  }

  lemma {:induction false} LearnedAt(acts: seq<Action>, i: nat, x: Pair)
    requires i <= |acts| && x in AllLearned(acts, i)
    ensures exists j :: 0 <= j < i && x in Learned(acts[j])
  {
    if x !in Learned(acts[i - 1]) {
      LearnedAt(acts, i - 1, x);
    }
  }

  lemma KnownMore(w: World, a: set<Pair>, b: set<Pair>)
    requires Known(w, a) && a <= b
    ensures Known(w, b)
  {
  }

  lemma {:induction false} RunKnown(ws: seq<World>, acts: seq<Action>, i: nat)
    requires IsRun(ws, acts) && Initial(ws[0]) && i < |ws|
    ensures Known(ws[i], AllLearned(acts, i))
  {
    if i > 0 {
      RunKnown(ws, acts, i - 1);
      KnownMore(ws[i - 1], AllLearned(acts, i - 1), AllLearned(acts, i));
      StepKnown(ws[i - 1], acts[i - 1], ws[i], AllLearned(acts, i));
    }
  }

  /** The file came with a submission under this upload, or the server gave it when this upload was done. */
  ghost predicate Given(acts: seq<Action>, i: nat, u: Id, fileId: Id)
    requires i <= |acts|
  {
    exists j :: 0 <= j < i && (u, fileId) in Learned(acts[j])
  }

  /**
   * Over every run each file of a request is that of the attachment at the same place, and was given by the server
   * when that attachment's upload was done, or came with a submission.
   */
  lemma SentFilesAreGiven(ws: seq<World>, acts: seq<Action>, i: nat, k: nat)
    requires IsRun(ws, acts) && Initial(ws[0]) && i < |acts| && |ws[i].wire| <= k < |ws[i + 1].wire|
    ensures var t := ws[i + 1].wire[k];
      && t.id in ws[i].flow.posts && |t.files| == |ws[i].flow.posts[t.id].attachments|
      && forall n :: 0 <= n < |t.files| ==>
           t.files[n] != "" && Given(acts, i, ws[i].flow.posts[t.id].attachments[n].uploadId, t.files[n])
  {
    InitialSafe(ws[0]);
    RunSafe(ws, acts, i);
    WireGrows(ws[i], acts[i], ws[i + 1], k);
    RunKnown(ws, acts, i);
    PairsGiven(ws[i], acts, i, ws[i + 1].wire[k]);
  }

  lemma PairsGiven(w: World, acts: seq<Action>, i: nat, t: Transmission)
    requires i <= |acts| && Known(w, AllLearned(acts, i)) && SaysSame(t, w.flow.posts)
    ensures |t.files| == |w.flow.posts[t.id].attachments|
    ensures forall n :: 0 <= n < |t.files| ==>
      t.files[n] != "" && Given(acts, i, w.flow.posts[t.id].attachments[n].uploadId, t.files[n])
  {
    var atts := w.flow.posts[t.id].attachments;
    forall n | 0 <= n < |t.files| ensures t.files[n] != "" && Given(acts, i, atts[n].uploadId, t.files[n]) {
      LearnedAt(acts, i, (atts[n].uploadId, t.files[n]));
    }
  }
}
