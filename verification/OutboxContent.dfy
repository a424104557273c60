/** What the outbox files, keeps, saves and sends is what was submitted. */
module OutboxContent {
  import opened Prelude
  import opened OutboxModel
  import opened OutboxSafety
  import opened OutboxRuns
  import opened OutboxTheorems
  import opened OutboxFifo
  import opened OutboxDisk

  // ---------------------------------------------------------------- what a submission files

  /** Staging keeps the attachments in their places, with their files. */
  lemma {:induction false} StagedInPlace(w: World, channel: Id, done: seq<Attachment>, todo: seq<Attachment>,
                                         uuids: seq<Id>, failed: bool, waiting: bool)
    requires |uuids| == |todo|
    ensures var s := StageAll(w, channel, done, todo, uuids, failed, waiting);
      s.Staged? ==> Bare(s.attachments) == Bare(done + todo)
    decreases |todo|
  {
    if todo == [] {
      assert done + todo == done;
    } else {
      var a := todo[0];
      if a.fileId != "" {
        OneStaged(done, todo, a);
        StagedInPlace(w, channel, done + [a], todo[1..], uuids[1..], failed, waiting);
      } else if a.path != "" {
        var u := if a.uploadId == "" then uuids[0] else a.uploadId;
        var (w1, b) := (Stage(w, channel, a.path, u), a.(uploadId := u));
        OneStaged(done, todo, b);
        if u in w1.uploads {
          match w1.uploads[u].state
          case Ready =>
            OneStaged(done, todo, b.(fileId := w1.uploads[u].fileId));
            StagedInPlace(w1, channel, done + [b.(fileId := w1.uploads[u].fileId)], todo[1..], uuids[1..], failed, waiting);
          case Broken => StagedInPlace(w1, channel, done + [b], todo[1..], uuids[1..], true, waiting);
          case InProgress => StagedInPlace(w1, channel, done + [b], todo[1..], uuids[1..], failed, true);
        }
      }
    }
  }

  lemma OneStaged(done: seq<Attachment>, todo: seq<Attachment>, c: Attachment)
    requires todo != [] && c.path == todo[0].path
    ensures Bare(done + [c] + todo[1..]) == Bare(done + todo)
  {
  }

  /** The post is what the user submitted: the same conversation, text, files and tail, with a fresh budget. */
  predicate FiledAs(p: Post, d: Draft, now: nat) {
    && p.conversation == d.conversation && p.message == d.message && p.tail == d.tail
    && Bare(p.attachments) == Bare(d.attachments)
    && p.window == now && p.attempts == 0 && p.intervening == {} && p.interveningCount == 0
  }

  /**
   * A submission that is admitted files exactly the draft, last in order, schedules its conversation and its deadline,
   * and sends nothing yet.
   */
  lemma AdmittedIsTheDraft(w: World, d: Draft, r: World)
    requires |d.uuids| == |d.attachments| && d.id != "" && d.id !in w.flow.posts && Enqueue(w, d) == (r, d.id)
    ensures d.id in r.flow.posts && FiledAs(r.flow.posts[d.id], d, w.now)
    ensures Start(d.conversation) in r.flow.events && Deadline(d.id, w.now, w.now + RETRY_WINDOW) in r.flow.events
    ensures r.wire == w.wire && r.order == w.order + [d.id] && d.id in r.used
  {
    var s := StageAll(w, d.conversation.channel, [], d.attachments, d.uuids, false, false);
    StagedInPlace(w, d.conversation.channel, [], d.attachments, d.uuids, false, false);
    assert [] + d.attachments == d.attachments;
    assert SameBooks(w, StagedWorld(s));
  }

  lemma {:induction false} PathsAre(atts: seq<Attachment>)
    ensures |Paths(atts)| == |atts| && forall i :: 0 <= i < |atts| ==> Paths(atts)[i] == atts[i].path
  {
    if atts != [] {
      PathsAre(atts[1..]);
    }
  }

  lemma {:induction false} LastRecord(order: seq<Id>, posts: map<Id, Post>, id: Id)
    requires id in posts
    ensures var rs := Records(order + [id], posts); rs != [] && rs[|rs| - 1] == RecordOf(id, posts[id])
  {
    if order != [] {
      assert (order + [id])[1..] == order[1..] + [id];
      LastRecord(order[1..], posts, id);
    }
  }

  /** And the file ends with what was submitted. */
  lemma AdmittedIsSaved(w: World, d: Draft, r: World)
    requires |d.uuids| == |d.attachments| && d.id != "" && d.id !in w.flow.posts && Enqueue(w, d) == (r, d.id)
    ensures r.disk != []
    ensures var x := r.disk[|r.disk| - 1];
      && x.id == d.id && x.conversation == d.conversation && x.message == d.message && |x.paths| == |d.attachments|
      && forall i :: 0 <= i < |x.paths| ==> x.paths[i] == d.attachments[i].path
  {
    AdmittedIsTheDraft(w, d, r);
    SubmitAllOrNothing(w, d);
    LastRecord(w.order, r.flow.posts, d.id);
    SameFiles(r.flow.posts[d.id].attachments, d.attachments);
  }

  lemma SameFiles(a: seq<Attachment>, b: seq<Attachment>)
    requires Bare(a) == Bare(b)
    ensures |Paths(a)| == |b| && forall i :: 0 <= i < |b| ==> Paths(a)[i] == b[i].path
  {
    PathsAre(a);
    forall i | 0 <= i < |b| ensures a[i].path == b[i].path {
      assert Bare(a)[i] == Bare(b)[i];
    }
  }

  // ---------------------------------------------------------------- only submissions bring posts in

  predicate NoNew(w: World, r: World) {
    r.flow.posts.Keys <= w.flow.posts.Keys
  }

  lemma RemoveKeys(w: World, id: Id)
    ensures NoNew(w, Remove(w, id))
  {
    if id in w.flow.posts {
      assert SameRows(Drop(w, id).flow.posts, SaveBestEffort(Drop(w, id)).flow.posts);
    }
  }

  lemma ReplyKeys(w: World, id: Id, g: nat, outcome: Outcome)
    ensures NoNew(w, OnReply(w, id, g, outcome))
  {
    if outcome.Accepted? {
      RemoveKeys(Remember(w, outcome.serverId), id);
    }
  }

  lemma HandleKeys(w: World, e: Event, outcome: Outcome, fileId: Id)
    ensures NoNew(w, Handle(w, e, outcome, fileId))
  {
    match e
    case Reply(id, g) => ReplyKeys(w, id, g, outcome);
    case UploadReply(u, g) => assert Calm(w, FinishUpload(w, u, g, fileId));
    case SaveAgain(_) => assert Calm(w.(saveScheduled := false), SaveBestEffort(w.(saveScheduled := false)));
    case Start(c) => assert SameRows(w.flow.posts, TryStart(w.flow, w.order, w.now, c).posts);
    case Fire(id, g) => FireKeys(w, id, g);
    case RetryDue(id, g, _) => DueKeys(w, id, g);
    case _ =>
  }

  lemma FireKeys(w: World, id: Id, g: nat)
    ensures NoNew(w, OnFire(w, id, g))
  {
  }

  lemma DueKeys(w: World, id: Id, g: nat)
    ensures NoNew(w, OnRetryDue(w, id, g))
  {
    if id in w.flow.posts {
      var f := Requeue(w.flow, id);
      assert SameRows(f.posts, TryStart(f, w.order, w.now, w.flow.posts[id].conversation).posts);
    }
  }

  lemma RetryKeys(w: World, id: Id, tail: nat, uuids: seq<Id>)
    requires id in w.flow.posts && |uuids| == |w.flow.posts[id].attachments|
    ensures NoNew(w, Retry(w, id, tail, uuids))
  {
    if w.flow.posts[id].state == Failed {
      var v := Reopen(w, id, tail);
      assert SameRows(v.flow.posts, RestartAll(v, id, 0, uuids).0.flow.posts);
    }
  }

  lemma SubmitKeys(w: World, d: Draft)
    requires |d.uuids| == |d.attachments|
    ensures var (r, id) := Enqueue(w, d);
      NoNew(w, r) || (id == d.id && id != "" && r.flow.posts.Keys == w.flow.posts.Keys + {id})
  {
    if Enqueueable(d) && d.id !in w.flow.posts {
      var s := StageAll(w, d.conversation.channel, [], d.attachments, d.uuids, false, false);
      assert SameRows(w.flow.posts, StagedWorld(s).flow.posts);
    }
  }

  lemma DeliverKeys(w: World, e: Event, outcome: Outcome, fileId: Id)
    requires Enabled(w, Deliver(e, outcome, fileId))
    ensures NoNew(w, Next(w, Deliver(e, outcome, fileId)))
  {
    HandleKeys(Taken(w, e), e, outcome, fileId);
  }

  lemma ArriveKeys(w: World, arrival: Arrival)
    ensures NoNew(w, Next(w, Arrive(arrival)))
  {
    RemoveKeys(Remember(w, arrival.id), arrival.pendingId);
  }

  /** A post that is new in the outbox was submitted by this step. */
  lemma StepKeys(w: World, a: Action, id: Id)
    requires Enabled(w, a) && id in Next(w, a).flow.posts && id !in w.flow.posts
    ensures a.Submit? && a.draft.id == id && Enqueue(w, a.draft).1 == id && id != ""
  {
    match a
    case Submit(d) => SubmitKeys(w, d);
    case UserRetry(x, tail, uuids) => RetriedKeys(w, x, tail, uuids);
    case Cancel(x) => RemoveKeys(w, x);
    case Arrive(arrival) => ArriveKeys(w, arrival);
    case Deliver(e, outcome, fileId) => DeliverKeys(w, e, outcome, fileId);
    case _ =>
  }

  lemma RetriedKeys(w: World, id: Id, tail: nat, uuids: seq<Id>)
    requires id in w.flow.posts ==> |uuids| == |w.flow.posts[id].attachments|
    ensures NoNew(w, Retry(w, id, tail, uuids))
  {
    if id in w.flow.posts {
      RetryKeys(w, id, tail, uuids);
    }
  }

  // ---------------------------------------------------------------- what the file gains

  /** The file gained no record but of posts that are in the outbox before or after. */
  ghost predicate FileGains(w: World, r: World) {
    forall x :: x in r.disk ==>
      x in w.disk || x in w.backlog || Describes(x, w.flow.posts) || Describes(x, r.flow.posts)
  }

  lemma SubmitGains(w: World, d: Draft, r: World)
    requires |d.uuids| == |d.attachments| && r == Enqueue(w, d).0
    ensures FileGains(w, r)
  {
    if Enqueueable(d) && d.id !in w.flow.posts {
      var s := StageAll(w, d.conversation.channel, [], d.attachments, d.uuids, false, false);
      var v := StagedWorld(s);
      assert Calm(w, v);
      RecordsDescribe(r.order, r.flow.posts);
    }
  }

  lemma RetryGains(w: World, id: Id, tail: nat, uuids: seq<Id>, r: World)
    requires id in w.flow.posts && |uuids| == |w.flow.posts[id].attachments| && r == Retry(w, id, tail, uuids)
    ensures FileGains(w, r)
  {
    if w.flow.posts[id].state == Failed {
      var v := Reopen(w, id, tail);
      assert FileFrom(v, RestartAll(v, id, 0, uuids).0);
    }
  }

  lemma RemoveGains(w: World, id: Id)
    ensures FileGains(w, Remove(w, id))
  {
    if id in w.flow.posts {
      assert FileFrom(Drop(w, id), SaveBestEffort(Drop(w, id)));
    }
  }

  lemma ConfirmGains(w: World, id: Id, serverId: Id)
    ensures FileGains(w, Confirm(w, id, serverId))
  {
    RemoveGains(Remember(w, serverId), id);
  }

  lemma HandleGains(w: World, e: Event, outcome: Outcome, fileId: Id, r: World)
    requires r == Handle(w, e, outcome, fileId)
    ensures FileGains(w, r)
  {
    match e
    case Reply(id, g) =>
      if outcome.Accepted? {
        ConfirmGains(w, id, outcome.serverId);
      }
    case UploadReply(u, g) => assert FileFrom(w, r);
    case SaveAgain(_) => assert FileFrom(w.(saveScheduled := false), r);
    case _ =>
  }

  lemma StepGains(w: World, a: Action, r: World)
    requires Enabled(w, a) && r == Next(w, a)
    ensures FileGains(w, r)
  {
    match a
    case Submit(d) => SubmitGains(w, d, r);
    case UserRetry(id, tail, uuids) =>
      if id in w.flow.posts {
        RetryGains(w, id, tail, uuids, r);
      }
    case Cancel(id) => RemoveGains(w, id);
    case ComposerStage(channel, path, u) => assert FileFrom(w, r);
    case Arrive(arrival) => ConfirmGains(w, arrival.pendingId, arrival.id);
    case Deliver(e, outcome, fileId) => HandleGains(Taken(w, e), e, outcome, fileId, r);
    case _ =>
  }

  // ---------------------------------------------------------------- over runs

  /** The submission that brought this identifier in, with this conversation, text and files. */
  ghost predicate Brought(ws: seq<World>, acts: seq<Action>, j: nat, id: Id, c: Conversation, message: string,
                          files: seq<Attachment>)
    requires |ws| == |acts| + 1
  {
    && j < |acts| && acts[j].Submit? && id !in ws[j].used && id in ws[j + 1].used
    && acts[j].draft.id == id && acts[j].draft.conversation == c && acts[j].draft.message == message
    && Bare(acts[j].draft.attachments) == files
  }

  ghost predicate AsTyped(ws: seq<World>, acts: seq<Action>, i: nat, id: Id, c: Conversation, message: string,
                          files: seq<Attachment>)
    requires |ws| == |acts| + 1
  {
    exists j: nat :: j < i && Brought(ws, acts, j, id, c, message, files)
  }

  ghost predicate PostTyped(ws: seq<World>, acts: seq<Action>, i: nat, id: Id, p: Post)
    requires |ws| == |acts| + 1
  {
    AsTyped(ws, acts, i, id, p.conversation, p.message, Bare(p.attachments))
  }

  ghost predicate SentTyped(ws: seq<World>, acts: seq<Action>, i: nat, t: Transmission)
    requires |ws| == |acts| + 1
  {
    exists files :: AsTyped(ws, acts, i, t.id, t.conversation, t.message, files) && |files| == |t.files|
  }

  ghost predicate RecordTyped(ws: seq<World>, acts: seq<Action>, i: nat, x: Record)
    requires |ws| == |acts| + 1
  {
    exists files :: AsTyped(ws, acts, i, x.id, x.conversation, x.message, files) && x.paths == Paths(files)
  }

  lemma PostStaysTyped(ws: seq<World>, acts: seq<Action>, i: nat, id: Id)
    requires IsRun(ws, acts) && i < |acts| && id in ws[i].flow.posts && id in ws[i + 1].flow.posts
    requires PostTyped(ws, acts, i, id, ws[i].flow.posts[id])
    ensures PostTyped(ws, acts, i + 1, id, ws[i + 1].flow.posts[id])
  {
    StepStays(ws[i], acts[i], id, ws[i + 1]);
    var p := ws[i].flow.posts[id];
    var j: nat :| j < i && Brought(ws, acts, j, id, p.conversation, p.message, Bare(p.attachments));
  }

  lemma NewPostTyped(ws: seq<World>, acts: seq<Action>, i: nat, id: Id)
    requires IsRun(ws, acts) && i < |acts| && id !in ws[i].flow.posts && id in ws[i + 1].flow.posts
    ensures PostTyped(ws, acts, i + 1, id, ws[i + 1].flow.posts[id])
  {
    StepKeys(ws[i], acts[i], id);
    AdmittedIsTheDraft(ws[i], acts[i].draft, ws[i + 1]);
    var p := ws[i + 1].flow.posts[id];
    assert Brought(ws, acts, i, id, p.conversation, p.message, Bare(p.attachments));
  }

  // What holds at index i: of the post of an identifier, of the request at a position, of a record.

  ghost predicate PostAt(ws: seq<World>, acts: seq<Action>, i: nat, id: Id)
    requires |ws| == |acts| + 1 && i < |ws|
  {
    id in ws[i].flow.posts ==> PostTyped(ws, acts, i, id, ws[i].flow.posts[id])
  }

  ghost predicate SentAt(ws: seq<World>, acts: seq<Action>, i: nat, k: nat)
    requires |ws| == |acts| + 1 && i < |ws|
  {
    k < |ws[i].wire| ==> SentTyped(ws, acts, i, ws[i].wire[k])
  }

  ghost predicate SavedAt(ws: seq<World>, acts: seq<Action>, i: nat, x: Record)
    requires |ws| == |acts| + 1 && i < |ws|
  {
    x in ws[i].disk ==> x in ws[0].disk || RecordTyped(ws, acts, i, x)
  }

  ghost predicate AllTyped(ws: seq<World>, acts: seq<Action>, i: nat)
    requires |ws| == |acts| + 1 && i < |ws|
  {
    && (forall id :: PostAt(ws, acts, i, id)) && (forall k :: SentAt(ws, acts, i, k))
    && (forall x :: SavedAt(ws, acts, i, x))
  }

  lemma PostStep(ws: seq<World>, acts: seq<Action>, i: nat, id: Id)
    requires IsRun(ws, acts) && i < |acts| && PostAt(ws, acts, i, id)
    ensures PostAt(ws, acts, i + 1, id)
  {
    if id in ws[i + 1].flow.posts {
      if id in ws[i].flow.posts {
        PostStaysTyped(ws, acts, i, id);
      } else {
        NewPostTyped(ws, acts, i, id);
      }
    }
  }

  lemma TypedLater(ws: seq<World>, acts: seq<Action>, i: nat, t: Transmission)
    requires |ws| == |acts| + 1 && SentTyped(ws, acts, i, t)
    ensures SentTyped(ws, acts, i + 1, t)
  {
    var files :| AsTyped(ws, acts, i, t.id, t.conversation, t.message, files) && |files| == |t.files|;
    assert AsTyped(ws, acts, i + 1, t.id, t.conversation, t.message, files);
  }

  /** The request says what the post says, and no file of it is missing. */
  predicate SaysSame(t: Transmission, posts: map<Id, Post>) {
    t.id in posts && t.conversation == posts[t.id].conversation && AttachmentsReady(posts[t.id])
    && t.message == posts[t.id].message && t.files == FileIds(posts[t.id].attachments)
  }

  /** What a step adds to the wire is what the post says that is sent. */
  lemma WireGrows(w: World, a: Action, r: World, k: nat)
    requires Safe(w) && Enabled(w, a) && r == Next(w, a) && k < |r.wire|
    ensures if k < |w.wire| then r.wire[k] == w.wire[k] else SaysSame(r.wire[k], w.flow.posts)
  {
    if r.wire != w.wire {
      TransmissionNeedsHead(w, a, r);
      Extended(w.wire, r.wire, k);
    }
  }

  lemma Extended(a: seq<Transmission>, b: seq<Transmission>, k: nat)
    requires |b| == |a| + 1 && b[..|a|] == a && k < |b|
    ensures if k < |a| then b[k] == a[k] else b[k] == b[|a|]
  {
    assert k < |a| ==> b[..|a|][k] == a[k];
  }

  lemma NewlySent(ws: seq<World>, acts: seq<Action>, i: nat, t: Transmission)
    requires IsRun(ws, acts) && i < |acts| && SaysSame(t, ws[i].flow.posts) && PostAt(ws, acts, i, t.id)
    ensures SentTyped(ws, acts, i + 1, t)
  {
    assert AsTyped(ws, acts, i + 1, t.id, t.conversation, t.message, Bare(ws[i].flow.posts[t.id].attachments));
  }

  lemma SentStep(ws: seq<World>, acts: seq<Action>, i: nat, k: nat)
    requires IsRun(ws, acts) && Initial(ws[0]) && i < |acts| && SentAt(ws, acts, i, k)
    requires forall id :: PostAt(ws, acts, i, id)
    ensures SentAt(ws, acts, i + 1, k)
  {
    InitialSafe(ws[0]);
    RunSafe(ws, acts, i);
    if k < |ws[i + 1].wire| {
      WireGrows(ws[i], acts[i], ws[i + 1], k);
      if k < |ws[i].wire| {
        TypedLater(ws, acts, i, ws[i].wire[k]);
      } else {
        NewlySent(ws, acts, i, ws[i + 1].wire[k]);
      }
    }
  }

  lemma RecordLater(ws: seq<World>, acts: seq<Action>, i: nat, x: Record)
    requires |ws| == |acts| + 1 && RecordTyped(ws, acts, i, x)
    ensures RecordTyped(ws, acts, i + 1, x)
  {
    var files :| AsTyped(ws, acts, i, x.id, x.conversation, x.message, files) && x.paths == Paths(files);
    assert AsTyped(ws, acts, i + 1, x.id, x.conversation, x.message, files);
  }

  lemma DescribedTyped(ws: seq<World>, acts: seq<Action>, i: nat, x: Record)
    requires IsRun(ws, acts) && i < |ws| && Describes(x, ws[i].flow.posts) && PostAt(ws, acts, i, x.id)
    ensures RecordTyped(ws, acts, i, x)
  {
    assert AsTyped(ws, acts, i, x.id, x.conversation, x.message, Bare(ws[i].flow.posts[x.id].attachments));
  }

  lemma InTail(d: seq<Record>, tail: seq<Record>, x: Record)
    requires EndsWith(d, tail) && x in tail
    ensures x in d
  {
    assert x in d[|d| - |tail|..];
  }

  lemma SavedStep(ws: seq<World>, acts: seq<Action>, i: nat, x: Record)
    requires IsRun(ws, acts) && Initial(ws[0]) && i < |acts| && x in ws[i + 1].disk && SavedAt(ws, acts, i, x)
    requires PostAt(ws, acts, i, x.id) && PostAt(ws, acts, i + 1, x.id)
    ensures SavedAt(ws, acts, i + 1, x)
  {
    StepGains(ws[i], acts[i], ws[i + 1]);
    BacklogSurvives(ws, acts, i);
    if x in ws[i].disk {
      if x !in ws[0].disk {
        RecordLater(ws, acts, i, x);
      }
    } else if x in ws[i].backlog {
      InTail(ws[0].disk, ws[0].backlog, x);
    } else if Describes(x, ws[i + 1].flow.posts) {
      DescribedTyped(ws, acts, i + 1, x);
    } else {
      DescribedTyped(ws, acts, i, x);
      RecordLater(ws, acts, i, x);
    }
  }

  lemma TypedStep(ws: seq<World>, acts: seq<Action>, i: nat, m: nat)
    requires IsRun(ws, acts) && Initial(ws[0]) && i < |acts| && m == i + 1 && AllTyped(ws, acts, i)
    ensures AllTyped(ws, acts, m)
  {
    forall id ensures PostAt(ws, acts, m, id) {
      PostStep(ws, acts, i, id);
    }
    forall k ensures SentAt(ws, acts, m, k) {
      SentStep(ws, acts, i, k);
    }
    forall x ensures SavedAt(ws, acts, m, x) {
      if x in ws[m].disk {
        SavedStep(ws, acts, i, x);
      }
    }
  }

  /** Pure induction: what each step keeps holds at every index. */
  lemma {:induction false} TypedOnwards(ws: seq<World>, acts: seq<Action>, i: nat)
    requires |ws| == |acts| + 1 && i < |ws| && AllTyped(ws, acts, 0)
    requires forall n :: 0 <= n < |acts| && AllTyped(ws, acts, n) ==> AllTyped(ws, acts, n + 1)
    ensures AllTyped(ws, acts, i)
  {
    if i > 0 {
      TypedOnwards(ws, acts, i - 1);
    }
  }

  lemma RunTyped(ws: seq<World>, acts: seq<Action>, i: nat)
    requires IsRun(ws, acts) && Initial(ws[0]) && i < |ws|
    ensures AllTyped(ws, acts, i)
  {
    forall n | 0 <= n < |acts| && AllTyped(ws, acts, n) ensures AllTyped(ws, acts, n + 1) {
      TypedStep(ws, acts, n, n + 1);
    }
    TypedOnwards(ws, acts, i);
  }

  /** Over every run a post in the outbox says what the submission said that brought it in. */
  lemma PostsAsTyped(ws: seq<World>, acts: seq<Action>, i: nat, id: Id)
    requires IsRun(ws, acts) && Initial(ws[0]) && i < |ws| && id in ws[i].flow.posts
    ensures PostTyped(ws, acts, i, id, ws[i].flow.posts[id])
  {
    RunTyped(ws, acts, i);
    assert PostAt(ws, acts, i, id);
  }

  /**
   * Over every run whatever goes on the wire goes to the conversation, and carries the text and as many files, of the
   * submission that brought the post in.
   */
  lemma SentAsTyped(ws: seq<World>, acts: seq<Action>, i: nat, k: nat)
    requires IsRun(ws, acts) && Initial(ws[0]) && i < |ws| && k < |ws[i].wire|
    ensures SentTyped(ws, acts, i, ws[i].wire[k])
  {
    RunTyped(ws, acts, i);
    assert SentAt(ws, acts, i, k);
  }

  /**
   * Over every run each record of the outbox file was there at the start, or has the conversation, text and files of
   * the submission that brought its post in.
   */
  lemma SavedAsTyped(ws: seq<World>, acts: seq<Action>, i: nat, x: Record)
    requires IsRun(ws, acts) && Initial(ws[0]) && i < |ws| && x in ws[i].disk
    ensures x in ws[0].disk || RecordTyped(ws, acts, i, x)
  {
    RunTyped(ws, acts, i);
    assert SavedAt(ws, acts, i, x);
  }
}
