/** The outbox file: it keeps up with the outbox, or a further save is pending. */
module OutboxDisk {
  import opened Prelude
  import opened OutboxModel
  import opened OutboxSafety
  import opened OutboxRuns
  import opened OutboxTheorems

  function Durable(w: World): seq<Record> {
    w.backlog + Records(w.order, w.flow.posts)
  }

  /** Unless a save is pending, the file ends with the rescued backlog followed by the outbox in order. */
  ghost predicate InSync(w: World) {
    if w.saveScheduled then exists due: nat :: SaveAgain(due) in w.flow.events
    else EndsWith(w.disk, Durable(w))
  }

  lemma {:induction false} SamePaths(a: seq<Attachment>, b: seq<Attachment>)
    requires Bare(a) == Bare(b)
    ensures Paths(a) == Paths(b)
  {
    assert |Bare(a)| == |Bare(b)|;
    if a != [] {
      assert a[0].path == Bare(a)[0].path == Bare(b)[0].path == b[0].path;
      assert Bare(a[1..]) == Bare(a)[1..] == Bare(b)[1..] == Bare(b[1..]);
      SamePaths(a[1..], b[1..]);
    }
  }

  lemma SameRecord(id: Id, p: Post, q: Post)
    requires SameRow(p, q)
    ensures RecordOf(id, p) == RecordOf(id, q)
  {
    var a, b := Intent(p), Intent(q);
    assert a.conversation == b.conversation && a.message == b.message && a.attachments == b.attachments;
    SamePaths(p.attachments, q.attachments);
  }

  /** What is durable of a post does not depend on how far its delivery has come. */
  lemma {:induction false} SameRecords(order: seq<Id>, a: map<Id, Post>, b: map<Id, Post>)
    requires SameRows(a, b)
    ensures Records(order, a) == Records(order, b)
  {
    if order != [] {
      if order[0] in a {
        SameRecord(order[0], a[order[0]], b[order[0]]);
      }
      SameRecords(order[1..], a, b);
    }
  }

  ghost predicate SameFile(w: World, r: World) {
    r.disk == w.disk && r.saveScheduled == w.saveScheduled && r.backlog == w.backlog && r.order == w.order
  }

  lemma FileKeeps(w: World, r: World)
    requires InSync(w) && SameFile(w, r) && SameRows(w.flow.posts, r.flow.posts)
    requires forall due: nat :: SaveAgain(due) in w.flow.events ==> SaveAgain(due) in r.flow.events
    ensures InSync(r)
  {
    SameRecords(w.order, w.flow.posts, r.flow.posts);
    if w.saveScheduled {
      var due: nat :| SaveAgain(due) in w.flow.events;
      assert SaveAgain(due) in r.flow.events;
    }
  }

  /** A best-effort save brings the file up to date or leaves a save pending, whatever it found. */
  lemma SaveSyncs(w: World)
    requires w.saveScheduled ==> exists due: nat :: SaveAgain(due) in w.flow.events
    ensures InSync(SaveBestEffort(w))
  {
    if !w.writable && !w.saveScheduled {
      assert SaveAgain(w.now + SAVE_RETRY) in SaveBestEffort(w).flow.events;
    }
  }

  lemma TrySame(w: World, r: World, f: Flow)
    requires r == w.(flow := f) && InSync(w) && SameRows(w.flow.posts, f.posts) && w.flow.events <= f.events
    ensures InSync(r)
  {
    FileKeeps(w, r);
  }

  lemma ChangedSync(w: World, u: Id)
    requires InSync(w)
    ensures InSync(UploadChanged(w, u)) && UploadChanged(w, u).backlog == w.backlog
  {
    if u != "" && u in w.uploads {
      var cs := Affected(w.owned, w.flow.posts, u, {});
      var w1 := w.(flow := w.flow.(posts := NoticeAll(w.flow.posts, u, w.uploads[u])));
      FileKeeps(w, w1);
      SaveSyncs(w1);
      var w2 := if cs == [] then w1 else SaveBestEffort(w1);
      TrySame(w2, UploadChanged(w, u), TryStartAll(w2.flow, w2.order, w2.now, cs));
    }
  }

  lemma FinishSync(w: World, u: Id, g: nat, fileId: Id)
    requires InSync(w)
    ensures InSync(FinishUpload(w, u, g, fileId))
  {
    if u in w.uploads && w.uploads[u].generation == g {
      ChangedSync(SetUpload(w, u, if fileId == "" then Broken else Ready, fileId, g), u);
    }
  }

  lemma StartSync(w: World, u: Id, r: World)
    requires InSync(w) && r == StartUpload(w, u)
    ensures InSync(r)
  {
    if u in w.uploads && w.uploads[u].channel !in w.channels {
      UnreachableSync(w, u, r);
    } else if u in w.uploads {
      ReachableSync(w, u, r);
    }
  }

  lemma UnreachableSync(w: World, u: Id, r: World)
    requires InSync(w) && u in w.uploads && w.uploads[u].channel !in w.channels && r == StartUpload(w, u)
    ensures InSync(r)
  {
    ChangedSync(SetUpload(w, u, Broken, "", w.uploads[u].generation + 1), u);
  }

  lemma ReachableSync(w: World, u: Id, r: World)
    requires InSync(w) && u in w.uploads && w.uploads[u].channel in w.channels && r == StartUpload(w, u)
    ensures InSync(r)
  {
    var w0 := SetUpload(w, u, InProgress, "", w.uploads[u].generation + 1);
    ChangedSync(w0, u);
    RunningSync(w.uploads[u].path in w.readable, UploadChanged(w0, u), u, w.uploads[u].generation + 1, r);
  }

  lemma RunningSync(readable: bool, w1: World, u: Id, g: nat, r: World)
    requires InSync(w1)
    requires r == if readable then w1.(flow := Later(w1.flow, UploadReply(u, g))) else FinishUpload(w1, u, g, "")
    ensures InSync(r)
  {
    if readable {
      TrySame(w1, r, Later(w1.flow, UploadReply(u, g)));
    } else {
      FinishSync(w1, u, g, "");
    }
  }

  lemma StageSync(w: World, channel: Id, path: string, u: Id)
    requires InSync(w)
    ensures InSync(Stage(w, channel, path, u))
  {
    if channel != "" && path != "" && u != ""
       && !(u in w.uploads && w.uploads[u].channel == channel && w.uploads[u].path == path) {
      StartSync(w.(uploads := w.uploads[u := Upload(channel, path, InProgress, "", 0)]), u, Stage(w, channel, path, u));
    }
  }

  lemma {:induction false} StageAllSync(w: World, channel: Id, done: seq<Attachment>, todo: seq<Attachment>,
                                        uuids: seq<Id>, failed: bool, waiting: bool)
    requires InSync(w) && |uuids| == |todo|
    ensures InSync(StagedWorld(StageAll(w, channel, done, todo, uuids, failed, waiting)))
    decreases |todo|
  {
    if todo != [] {
      var a := todo[0];
      if a.fileId != "" {
        StageAllSync(w, channel, done + [a], todo[1..], uuids[1..], failed, waiting);
      } else if a.path != "" {
        var u := if a.uploadId == "" then uuids[0] else a.uploadId;
        var w1 := Stage(w, channel, a.path, u);
        StageSync(w, channel, a.path, u);
        var b := a.(uploadId := u);
        if u in w1.uploads {
          match w1.uploads[u].state
          case Ready =>
            StageAllSync(w1, channel, done + [b.(fileId := w1.uploads[u].fileId)], todo[1..], uuids[1..], failed, waiting);
          case Broken => StageAllSync(w1, channel, done + [b], todo[1..], uuids[1..], true, waiting);
          case InProgress => StageAllSync(w1, channel, done + [b], todo[1..], uuids[1..], failed, true);
        }
      }
    }
  }

  // ---------------------------------------------------------------- removing, admitting, reopening

  lemma DropSync(w: World, id: Id)
    requires InSync(w) && id in w.flow.posts
    ensures Drop(w, id).saveScheduled ==> exists due: nat :: SaveAgain(due) in Drop(w, id).flow.events
  {
  }

  lemma RemoveSync(w: World, id: Id)
    requires InSync(w)
    ensures InSync(Remove(w, id))
  {
    if id in w.flow.posts {
      DropSync(w, id);
      SaveSyncs(Drop(w, id));
      var w1 := SaveBestEffort(Drop(w, id));
      TrySame(w1, Remove(w, id), Later(w1.flow, Start(w.flow.posts[id].conversation)));
    }
  }

  lemma ConfirmSync(w: World, id: Id, serverId: Id)
    requires InSync(w)
    ensures InSync(Confirm(w, id, serverId))
  {
    FileKeeps(w, Remember(w, serverId));
    RemoveSync(Remember(w, serverId), id);
  }

  lemma AdmitSync(w: World, id: Id, p: Post)
    requires InSync(w) && id !in w.flow.posts
    ensures InSync(Admit(w, id, p).0)
  {
    var r := Admit(w, id, p).0;
    if w.writable {
      if w.saveScheduled {
        var due: nat :| SaveAgain(due) in w.flow.events;
        assert SaveAgain(due) in r.flow.events;
      }
    }
  }

  lemma SubmitSync(w: World, d: Draft)
    requires InSync(w) && |d.uuids| == |d.attachments|
    ensures InSync(Enqueue(w, d).0)
  {
    if Enqueueable(d) && d.id !in w.flow.posts {
      StageAllSync(w, d.conversation.channel, [], d.attachments, d.uuids, false, false);
      var s := StageAll(w, d.conversation.channel, [], d.attachments, d.uuids, false, false);
      if s.Staged? {
        AdmitSync(s.world, d.id, NewPost(d, s.attachments, s.world.now, s.world.tickets, s.failed, s.waiting));
      }
    }
  }

  lemma NameSync(w: World, id: Id, i: nat, a: Attachment)
    requires InSync(w) && id in w.flow.posts && i < |w.flow.posts[id].attachments|
    requires a.path == w.flow.posts[id].attachments[i].path
    ensures InSync(SetAttachment(w, id, i, a))
  {
    FileKeeps(w, SetAttachment(w, id, i, a));
  }

  lemma RestartOneSync(w: World, id: Id, i: nat, uuid: Id)
    requires InSync(w) && id in w.flow.posts && i < |w.flow.posts[id].attachments|
    ensures InSync(RestartOne(w, id, i, uuid).0)
  {
    var a := w.flow.posts[id].attachments[i];
    if a.fileId == "" {
      var channel := w.flow.posts[id].conversation.channel;
      var restage := a.uploadId !in w.uploads && channel in w.channels && a.path != "";
      var u := if restage && a.uploadId == "" then uuid else a.uploadId;
      StageSync(w, channel, a.path, u);
      NamedSync(if restage then Stage(w, channel, a.path, u) else w, id, i, u, RestartOne(w, id, i, uuid).0);
    }
  }

  lemma NamedSync(w1: World, id: Id, i: nat, u: Id, r: World)
    requires InSync(w1) && id in w1.flow.posts && i < |w1.flow.posts[id].attachments|
    requires
      var b := w1.flow.posts[id].attachments[i];
      var w2 := SetAttachment(w1, id, i, b.(uploadId := u));
      r == if u in w2.uploads && w2.uploads[u].state == Ready
           then SetAttachment(w2, id, i, b.(uploadId := u, fileId := w2.uploads[u].fileId))
           else RetryUpload(w2, u)
    ensures InSync(r)
  {
    var b := w1.flow.posts[id].attachments[i];
    NameSync(w1, id, i, b.(uploadId := u));
    RestartedSync(SetAttachment(w1, id, i, b.(uploadId := u)), id, i, u);
  }

  lemma RestartedSync(w2: World, id: Id, i: nat, u: Id)
    requires InSync(w2) && id in w2.flow.posts && i < |w2.flow.posts[id].attachments|
    ensures u in w2.uploads ==>
      InSync(SetAttachment(w2, id, i, w2.flow.posts[id].attachments[i].(uploadId := u, fileId := w2.uploads[u].fileId)))
    ensures InSync(RetryUpload(w2, u))
  {
    if u in w2.uploads {
      NameSync(w2, id, i, w2.flow.posts[id].attachments[i].(uploadId := u, fileId := w2.uploads[u].fileId));
    }
    StartSync(w2, u, StartUpload(w2, u));
  }

  lemma {:induction false} RestartAllSync(w: World, id: Id, i: nat, uuids: seq<Id>)
    requires InSync(w) && id in w.flow.posts && i <= |w.flow.posts[id].attachments| == |uuids|
    ensures InSync(RestartAll(w, id, i, uuids).0)
    decreases |uuids| - i
  {
    if i < |uuids| {
      RestartOneSync(w, id, i, uuids[i]);
      RestartAllSync(RestartOne(w, id, i, uuids[i]).0, id, i + 1, uuids);
    }
  }

  lemma ReopenRecord(p: Post, now: nat, tail: nat, id: Id)
    ensures RecordOf(id, Reopened(p, now, tail)) == RecordOf(id, p)
  {
  }

  lemma {:induction false} PutRecords(order: seq<Id>, posts: map<Id, Post>, id: Id, q: Post)
    requires id in posts && RecordOf(id, q) == RecordOf(id, posts[id])
    ensures Records(order, posts[id := q]) == Records(order, posts)
  {
    if order != [] {
      PutRecords(order[1..], posts, id, q);
    }
  }

  lemma ReopenSync(w: World, id: Id, tail: nat)
    requires InSync(w) && id in w.flow.posts
    ensures InSync(Reopen(w, id, tail))
  {
    var p := w.flow.posts[id];
    var t := if p.conversation.channel in w.channels then tail else p.tail;
    ReopenRecord(p, w.now, t, id);
    PutRecords(w.order, w.flow.posts, id, Reopened(p, w.now, t));
    if w.saveScheduled {
      var due: nat :| SaveAgain(due) in w.flow.events;
      assert SaveAgain(due) in Reopen(w, id, tail).flow.events;
    }
  }

  lemma ResumeSync(w: World, waiting: bool, id: Id, r: World)
    requires InSync(w) && id in w.flow.posts && r == Resume(w, waiting, id)
    ensures InSync(r)
  {
    FileKeeps(w, r);
  }

  lemma ReopenedSync(v: World, id: Id, uuids: seq<Id>, all: (World, bool), r: World)
    requires InSync(v) && id in v.flow.posts && |uuids| == |v.flow.posts[id].attachments|
    requires all == RestartAll(v, id, 0, uuids) && r == Resume(all.0, all.1, id)
    ensures InSync(r)
  {
    RestartAllSync(v, id, 0, uuids);
    ResumeSync(all.0, all.1, id, r);
  }

  lemma RetrySync(w: World, id: Id, tail: nat, uuids: seq<Id>)
    requires InSync(w) && id in w.flow.posts && |uuids| == |w.flow.posts[id].attachments|
    ensures InSync(Retry(w, id, tail, uuids))
  {
    if w.flow.posts[id].state == Failed {
      ReopenSync(w, id, tail);
      var v := Reopen(w, id, tail);
      ReopenedSync(v, id, uuids, RestartAll(v, id, 0, uuids), Retry(w, id, tail, uuids));
    }
  }

  // ---------------------------------------------------------------- every step

  lemma {:induction false} OvertakenRecords(order: seq<Id>, posts: map<Id, Post>, a: Arrival, head: Option<Id>)
    ensures Records(order, OvertakenAll(posts, a, head)) == Records(order, posts)
  {
    if order != [] {
      OvertakenRecords(order[1..], posts, a, head);
    }
  }

  lemma ArriveSync(w: World, a: Arrival)
    requires InSync(w)
    ensures InSync(Authoritative(w, a))
  {
    if a.id != "" && a.id in w.confirmed {
    } else if a.pendingId != "" && a.pendingId in w.flow.posts {
      ConfirmSync(w, a.pendingId, a.id);
    } else {
      OvertakenRecords(w.order, w.flow.posts, a, Head(w.order, w.flow.posts, a.conversation));
      if w.saveScheduled {
        var due: nat :| SaveAgain(due) in w.flow.events;
        assert SaveAgain(due) in Authoritative(w, a).flow.events;
      }
    }
  }

  lemma FireSync(w: World, id: Id, g: nat, r: World)
    requires InSync(w) && r == OnFire(w, id, g)
    ensures InSync(r)
  {
    if r != w {
      var q := Attempted(w.flow.posts[id], w.now, w.channels);
      SentRecord(id, w.flow.posts[id], w.now, w.channels);
      PutRecords(w.order, w.flow.posts, id, q);
      if w.saveScheduled {
        var due: nat :| SaveAgain(due) in w.flow.events;
        assert SaveAgain(due) in r.flow.events;
      }
    }
  }

  lemma SentRecord(id: Id, p: Post, now: nat, channels: set<Id>)
    ensures RecordOf(id, Attempted(p, now, channels)) == RecordOf(id, p)
  {
  }

  lemma ReplySync(w: World, id: Id, g: nat, outcome: Outcome, r: World)
    requires InSync(w) && r == OnReply(w, id, g, outcome)
    ensures InSync(r)
  {
    if id in w.flow.posts && outcome.Accepted? {
      ConfirmSync(w, id, outcome.serverId);
    } else if id in w.flow.posts && r.flow == ScheduleRetry(w.flow, id, w.now) {
      WaitRow(w.flow, id, w.now);
      FileKeeps(w, r);
    } else {
      FailOrNot(w, id, r);
      FileKeeps(w, r);
    }
  }

  lemma HandleSync(w: World, e: Event, outcome: Outcome, fileId: Id, r: World)
    requires InSync(w) && !e.SaveAgain? && r == Handle(w, e, outcome, fileId)
    ensures InSync(r)
  {
    match e
    case Start(c) => FileKeeps(w, r);
    case Fire(id, g) => FireSync(w, id, g, r);
    case RetryDue(id, g, _) =>
      if id in w.flow.posts {
        RequeueCalm(w, id, r);
      }
      FileKeeps(w, r);
    case Deadline(id, x, _) => FailOrNot(w, id, r); FileKeeps(w, r);
    case Reply(id, g) => ReplySync(w, id, g, outcome, r);
    case Forget(_, _) => FileKeeps(w, r);
    case UploadReply(u, g) => FinishSync(w, u, g, fileId);
  }

  lemma TakenSync(w: World, e: Event)
    requires InSync(w) && e in w.flow.events && !e.SaveAgain?
    ensures InSync(Taken(w, e))
  {
    if w.saveScheduled {
      var due: nat :| SaveAgain(due) in w.flow.events;
      assert SaveAgain(due) in Taken(w, e).flow.events;
    }
  }

  lemma StepSync(w: World, a: Action, r: World)
    requires InSync(w) && Enabled(w, a) && r == Next(w, a)
    ensures InSync(r)
  {
    match a
    case Submit(d) => SubmitSync(w, d);
    case UserRetry(id, tail, uuids) =>
      if id in w.flow.posts {
        RetrySync(w, id, tail, uuids);
      }
    case Cancel(id) => RemoveSync(w, id);
    case ComposerStage(channel, path, u) => StageSync(w, channel, path, u);
    case Arrive(arrival) => ArriveSync(w, arrival);
    case Deliver(e, outcome, fileId) =>
      if e.SaveAgain? {
        SaveSyncs(Taken(w, e).(saveScheduled := false));
      } else {
        TakenSync(w, e);
        HandleSync(Taken(w, e), e, outcome, fileId, r);
      }
    case _ => FileKeeps(w, r);
  }

  /** Over every run the outbox file ends with the backlog and the outbox in order, or a save is pending. */
  lemma {:induction false} FileKeepsUp(ws: seq<World>, acts: seq<Action>, i: nat)
    requires IsRun(ws, acts) && Initial(ws[0]) && i < |ws|
    ensures InSync(ws[i])
  {
    if i == 0 {
      assert Durable(ws[0]) == ws[0].backlog;
    } else {
      FileKeepsUp(ws, acts, i - 1);
      StepSync(ws[i - 1], acts[i - 1], ws[i]);
    }
  }

  // ---------------------------------------------------------------- the backlog of an earlier session

  lemma SubmitBacklog(w: World, d: Draft)
    requires |d.uuids| == |d.attachments|
    ensures BacklogKept(w, Enqueue(w, d).0)
  {
    if Enqueueable(d) && d.id !in w.flow.posts {
      var s := StageAll(w, d.conversation.channel, [], d.attachments, d.uuids, false, false);
      assert BacklogKept(w, StagedWorld(s));
    }
  }

  lemma RetryBacklog(w: World, id: Id, tail: nat, uuids: seq<Id>)
    requires id in w.flow.posts && |uuids| == |w.flow.posts[id].attachments|
    ensures BacklogKept(w, Retry(w, id, tail, uuids))
  {
    if w.flow.posts[id].state == Failed {
      var v := Reopen(w, id, tail);
      assert BacklogKept(v, RestartAll(v, id, 0, uuids).0);
    }
  }

  lemma RemoveBacklog(w: World, id: Id)
    ensures BacklogKept(w, Remove(w, id))
  {
    if id in w.flow.posts {
      assert BacklogKept(Drop(w, id), SaveBestEffort(Drop(w, id)));
    }
  }

  lemma ConfirmBacklog(w: World, id: Id, serverId: Id)
    ensures BacklogKept(w, Confirm(w, id, serverId))
  {
    RemoveBacklog(Remember(w, serverId), id);
  }

  lemma HandleBacklog(w: World, e: Event, outcome: Outcome, fileId: Id, r: World)
    requires r == Handle(w, e, outcome, fileId)
    ensures BacklogKept(w, r)
  {
    match e
    case Reply(id, g) =>
      if outcome.Accepted? {
        ConfirmBacklog(w, id, outcome.serverId);
      }
    case UploadReply(u, g) => assert Calm(w, r);
    case SaveAgain(_) => assert Calm(w.(saveScheduled := false), r);
    case _ =>
  }

  lemma StepBacklog(w: World, a: Action, r: World)
    requires Enabled(w, a) && r == Next(w, a)
    ensures BacklogKept(w, r)
  {
    match a
    case Submit(d) => SubmitBacklog(w, d);
    case UserRetry(id, tail, uuids) =>
      if id in w.flow.posts {
        RetryBacklog(w, id, tail, uuids);
      }
    case Cancel(id) => RemoveBacklog(w, id);
    case ComposerStage(channel, path, u) => assert Calm(w, r);
    case Arrive(arrival) => ConfirmBacklog(w, arrival.pendingId, arrival.id);
    case Deliver(e, outcome, fileId) => HandleBacklog(Taken(w, e), e, outcome, fileId, r);
    case _ =>
  }

  lemma BacklogTwice(u: World, v: World, w: World)
    requires BacklogKept(u, v) && BacklogKept(v, w)
    ensures BacklogKept(u, w)
  {
  }

  /** Over every run the file is as it was found, or begins with the backlog it was found with. */
  lemma {:induction false} BacklogSurvives(ws: seq<World>, acts: seq<Action>, i: nat)
    requires IsRun(ws, acts) && i < |ws|
    ensures BacklogKept(ws[0], ws[i])
  {
    if i > 0 {
      BacklogSurvives(ws, acts, i - 1);
      StepBacklog(ws[i - 1], acts[i - 1], ws[i]);
      BacklogTwice(ws[0], ws[i - 1], ws[i]);
    }
  }

  // ---------------------------------------------------------------- all or nothing

  /** Only uploads and their completions may be other than before. */
  ghost predicate Untouched(w: World, r: World) {
    r == w.(uploads := r.uploads, flow := w.flow.(events := r.flow.events))
  }

  /** Nobody waits for this upload. */
  ghost predicate Unawaited(posts: map<Id, Post>, u: Id) {
    forall id :: id in posts ==> !Waits(posts[id], u)
  }

  lemma {:induction false} NoneAffected(owned: seq<Id>, posts: map<Id, Post>, u: Id, seen: set<Conversation>)
    requires Unawaited(posts, u)
    ensures Affected(owned, posts, u, seen) == []
  {
    if owned != [] {
      NoneAffected(owned[1..], posts, u, seen);
    }
  }

  lemma UnnoticedChange(w: World, u: Id)
    requires Unawaited(w.flow.posts, u)
    ensures UploadChanged(w, u) == w
  {
    if u != "" && u in w.uploads {
      NoneAffected(w.owned, w.flow.posts, u, {});
      assert NoticeAll(w.flow.posts, u, w.uploads[u]) == w.flow.posts;
    }
  }

  lemma UnnoticedFinish(w: World, u: Id, g: nat, fileId: Id)
    requires Unawaited(w.flow.posts, u)
    ensures Untouched(w, FinishUpload(w, u, g, fileId))
  {
    if u in w.uploads {
      UnnoticedChange(SetUpload(w, u, if fileId == "" then Broken else Ready, fileId, g), u);
    }
  }

  lemma UnnoticedStart(w: World, u: Id)
    requires Unawaited(w.flow.posts, u)
    ensures Untouched(w, StartUpload(w, u))
  {
    if u in w.uploads {
      var g := w.uploads[u].generation + 1;
      UnnoticedSet(w, u, Broken, g);
      UnnoticedSet(w, u, InProgress, g);
      UnnoticedFinish(SetUpload(w, u, InProgress, "", g), u, g, "");
      if w.uploads[u].channel in w.channels {
        UnnoticedRun(w, u, SetUpload(w, u, InProgress, "", g), g, StartUpload(w, u));
      }
    }
  }

  lemma UnnoticedSet(w: World, u: Id, state: UploadState, g: nat)
    requires u in w.uploads && Unawaited(w.flow.posts, u)
    ensures var v := SetUpload(w, u, state, "", g);
      v.flow == w.flow && UploadChanged(v, u) == v && Untouched(w, v)
  {
    UnnoticedChange(SetUpload(w, u, state, "", g), u);
  }

  lemma UnnoticedRun(w: World, u: Id, v: World, g: nat, r: World)
    requires Untouched(w, v) && Untouched(v, FinishUpload(v, u, g, ""))
    requires r == v.(flow := Later(v.flow, UploadReply(u, g))) || r == FinishUpload(v, u, g, "")
    ensures Untouched(w, r)
  {
  }

  lemma UnnoticedStage(w: World, channel: Id, path: string, u: Id)
    requires Unawaited(w.flow.posts, u)
    ensures Untouched(w, Stage(w, channel, path, u))
  {
    UnnoticedStart(w.(uploads := w.uploads[u := Upload(channel, path, InProgress, "", 0)]), u);
  }

  /** The uploads that staging these attachments may start. */
  function StagedIds(todo: seq<Attachment>, uuids: seq<Id>): set<Id>
    requires |uuids| == |todo|
  {
    set i | 0 <= i < |todo| :: if todo[i].uploadId == "" then uuids[i] else todo[i].uploadId
  }

  lemma StagingParts(todo: seq<Attachment>, uuids: seq<Id>)
    requires |uuids| == |todo| && todo != []
    ensures (if todo[0].uploadId == "" then uuids[0] else todo[0].uploadId) in StagedIds(todo, uuids)
    ensures StagedIds(todo[1..], uuids[1..]) <= StagedIds(todo, uuids)
  {
    forall i | 0 <= i < |todo| - 1 ensures todo[1..][i] == todo[i + 1] && uuids[1..][i] == uuids[i + 1] {
    }
    forall u | u in StagedIds(todo[1..], uuids[1..]) ensures u in StagedIds(todo, uuids) {
      var i :| 0 <= i < |todo| - 1 && u == (if todo[1..][i].uploadId == "" then uuids[1..][i] else todo[1..][i].uploadId);
      assert u == if todo[i + 1].uploadId == "" then uuids[i + 1] else todo[i + 1].uploadId;
    }
  }

  lemma {:induction false} UnnoticedStaging(w: World, channel: Id, done: seq<Attachment>, todo: seq<Attachment>,
                                            uuids: seq<Id>, failed: bool, waiting: bool)
    requires |uuids| == |todo| && forall u :: u in StagedIds(todo, uuids) ==> Unawaited(w.flow.posts, u)
    ensures Untouched(w, StagedWorld(StageAll(w, channel, done, todo, uuids, failed, waiting)))
    decreases |todo|
  {
    if todo != [] {
      StagingParts(todo, uuids);
      var a := todo[0];
      if a.fileId != "" {
        UnnoticedStaging(w, channel, done + [a], todo[1..], uuids[1..], failed, waiting);
      } else if a.path != "" {
        var u := if a.uploadId == "" then uuids[0] else a.uploadId;
        var w1 := Stage(w, channel, a.path, u);
        UnnoticedStage(w, channel, a.path, u);
        var b := a.(uploadId := u);
        if u in w1.uploads {
          match w1.uploads[u].state
          case Ready =>
            UnnoticedStaging(w1, channel, done + [b.(fileId := w1.uploads[u].fileId)], todo[1..], uuids[1..], failed, waiting);
          case Broken => UnnoticedStaging(w1, channel, done + [b], todo[1..], uuids[1..], true, waiting);
          case InProgress => UnnoticedStaging(w1, channel, done + [b], todo[1..], uuids[1..], failed, true);
        }
      }
    }
  }

  /** A refused submission leaves everything but the uploads as it was, if no other post waits for one of these. */
  lemma RefusedLeavesNothing(w: World, d: Draft)
    requires |d.uuids| == |d.attachments| && Enqueue(w, d).1 == ""
    requires forall u :: u in StagedIds(d.attachments, d.uuids) ==> Unawaited(w.flow.posts, u)
    ensures Untouched(w, Enqueue(w, d).0)
  {
    if Enqueueable(d) && d.id !in w.flow.posts {
      UnnoticedStaging(w, d.conversation.channel, [], d.attachments, d.uuids, false, false);
    }
  }

  /**
   * Submitting either admits the post at the end of the outbox with its record already in the file, or admits
   * nothing: then the outbox lists who it listed before, and no post is other than it was apart from its uploads.
   */
  lemma SubmitAllOrNothing(w: World, d: Draft)
    requires |d.uuids| == |d.attachments| && d.id !in w.flow.posts
    ensures
      var (r, id) := Enqueue(w, d);
      if id == ""
      then r.order == w.order && r.owned == w.owned && SameRows(w.flow.posts, r.flow.posts)
      else id == d.id && r.order == w.order + [id] && r.owned == w.owned + [id]
           && r.flow.posts.Keys == w.flow.posts.Keys + {id} && r.disk == Durable(r)
  {
  }
}
