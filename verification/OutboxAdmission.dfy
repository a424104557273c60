/** The state a submission is admitted in: what its uploads say. */
module OutboxAdmission {
  import opened Prelude
  import opened OutboxModel
  import opened OutboxSafety
  import opened OutboxContent

  // ---------------------------------------------------------------- staging one file

  /** Staging a file that is not staged already starts its upload - which fails at once without channel or file. */
  lemma StageUploads(w: World, channel: Id, path: string, u: Id, r: World)
    requires channel != "" && path != "" && u != "" && r == Stage(w, channel, path, u)
    ensures u in r.uploads && r.uploads[u].channel == channel && r.uploads[u].path == path
    ensures forall x :: x != u ==> (x in r.uploads <==> x in w.uploads) && (x in w.uploads ==> r.uploads[x] == w.uploads[x])
    ensures if u in w.uploads && w.uploads[u].channel == channel && w.uploads[u].path == path then r == w
      else r.uploads[u].state == (if channel in w.channels && path in w.readable then InProgress else Broken)
           && r.uploads[u].fileId == ""
  {
    if !(u in w.uploads && w.uploads[u].channel == channel && w.uploads[u].path == path) {
      var v := w.(uploads := w.uploads[u := Upload(channel, path, InProgress, "", 0)]);
      StartedUpload(v, u, r);
    }
  }

  lemma StartedUpload(w: World, u: Id, r: World)
    requires u in w.uploads && r == StartUpload(w, u)
    ensures r.uploads == w.uploads[u := Upload(w.uploads[u].channel, w.uploads[u].path,
      if w.uploads[u].channel in w.channels && w.uploads[u].path in w.readable then InProgress else Broken, "",
      w.uploads[u].generation + 1)]
  {
    if w.uploads[u].channel in w.channels {
      ReachableUpload(w, u, r);
    } else {
      UnreachableUpload(w, u, r);
    }
  }

  lemma ReachableUpload(w: World, u: Id, r: World)
    requires u in w.uploads && w.uploads[u].channel in w.channels && r == StartUpload(w, u)
    ensures r.uploads == w.uploads[u := Upload(w.uploads[u].channel, w.uploads[u].path,
      if w.uploads[u].path in w.readable then InProgress else Broken, "", w.uploads[u].generation + 1)]
  {
    var w0 := SetUpload(w, u, InProgress, "", w.uploads[u].generation + 1);
    RunningUpload(w.uploads[u].path in w.readable, UploadChanged(w0, u), u, w.uploads[u].generation + 1, r);
  }

  lemma UnreachableUpload(w: World, u: Id, r: World)
    requires u in w.uploads && w.uploads[u].channel !in w.channels && r == StartUpload(w, u)
    ensures r.uploads == SetUpload(w, u, Broken, "", w.uploads[u].generation + 1).uploads
  {
  }

  lemma RunningUpload(readable: bool, w1: World, u: Id, g: nat, r: World)
    requires u in w1.uploads && w1.uploads[u].generation == g && w1.uploads[u].state == InProgress && w1.uploads[u].fileId == ""
    requires r == if readable then w1.(flow := Later(w1.flow, UploadReply(u, g))) else FinishUpload(w1, u, g, "")
    ensures r.uploads == w1.uploads[u := w1.uploads[u].(state := if readable then InProgress else Broken)]
  {
    if readable {
      assert w1.uploads[u := w1.uploads[u]] == w1.uploads;
    }
  }

  // ---------------------------------------------------------------- staging all of them

  function UploadOf(a: Attachment, uuid: Id): Id {
    if a.uploadId == "" then uuid else a.uploadId
  }

  /** No upload is asked to carry two files. */
  predicate Consistent(atts: seq<Attachment>, uuids: seq<Id>)
    requires |uuids| == |atts|
  {
    forall i, j :: 0 <= i < j < |atts| && atts[i].fileId == "" && atts[j].fileId == "" ==>
      UploadOf(atts[i], uuids[i]) == UploadOf(atts[j], uuids[j]) ==> atts[i].path == atts[j].path
  }

  /** The attachment waits for an upload that is in this state. */
  predicate In(a: Attachment, uploads: map<Id, Upload>, state: UploadState) {
    a.fileId == "" && a.uploadId in uploads && uploads[a.uploadId].state == state
  }

  predicate Some(atts: seq<Attachment>, uploads: map<Id, Upload>, state: UploadState) {
    exists i :: 0 <= i < |atts| && In(atts[i], uploads, state)
  }

  /** The attachments dealt with: each has its file, or its upload is staged and under way or broken. */
  predicate Dealt(done: seq<Attachment>, uploads: map<Id, Upload>, channel: Id) {
    forall i :: 0 <= i < |done| && done[i].fileId == "" ==>
      && done[i].uploadId in uploads && uploads[done[i].uploadId].channel == channel
      && uploads[done[i].uploadId].path == done[i].path && uploads[done[i].uploadId].state != Ready
  }

  /** What is still to be staged does not ask an upload of these to carry another file. */
  predicate Agrees(done: seq<Attachment>, todo: seq<Attachment>, uuids: seq<Id>)
    requires |uuids| == |todo|
  {
    forall i, j :: 0 <= i < |done| && 0 <= j < |todo| && done[i].fileId == "" && todo[j].fileId == "" ==>
      done[i].uploadId == UploadOf(todo[j], uuids[j]) ==> done[i].path == todo[j].path
  }

  /** Every upload that is ready has a file. */
  predicate Filed(uploads: map<Id, Upload>) {
    forall u :: u in uploads && uploads[u].state == Ready ==> uploads[u].fileId != ""
  }

  /** The flags say what the uploads say. */
  predicate Flagged(done: seq<Attachment>, uploads: map<Id, Upload>, failed: bool, waiting: bool) {
    (failed <==> Some(done, uploads, Broken)) && (waiting <==> Some(done, uploads, InProgress))
  }

  lemma AddReady(done: seq<Attachment>, c: Attachment, uploads: map<Id, Upload>, failed: bool, waiting: bool)
    requires Flagged(done, uploads, failed, waiting) && c.fileId != ""
    ensures Flagged(done + [c], uploads, failed, waiting)
  {
    forall s | Some(done, uploads, s) ensures Some(done + [c], uploads, s) {
      var i :| 0 <= i < |done| && In(done[i], uploads, s);
      assert In((done + [c])[i], uploads, s);
    }
  }

  lemma AddPending(done: seq<Attachment>, b: Attachment, uploads: map<Id, Upload>, failed: bool, waiting: bool)
    requires Flagged(done, uploads, failed, waiting) && b.fileId == "" && b.uploadId in uploads
    requires uploads[b.uploadId].state != Ready
    ensures Flagged(done + [b], uploads, failed || uploads[b.uploadId].state == Broken,
                    waiting || uploads[b.uploadId].state == InProgress)
  {
    forall s | Some(done, uploads, s) ensures Some(done + [b], uploads, s) {
      var i :| 0 <= i < |done| && In(done[i], uploads, s);
      assert In((done + [b])[i], uploads, s);
    }
    assert In((done + [b])[|done|], uploads, uploads[b.uploadId].state);
  }

  /** Staging one more file leaves what is known of the others. */
  lemma StageKeepsDealt(w: World, channel: Id, path: string, u: Id, r: World, done: seq<Attachment>, failed: bool, waiting: bool)
    requires channel != "" && path != "" && u != "" && r == Stage(w, channel, path, u) && Filed(w.uploads)
    requires Dealt(done, w.uploads, channel) && Flagged(done, w.uploads, failed, waiting)
    requires forall i :: 0 <= i < |done| && done[i].fileId == "" && done[i].uploadId == u ==> done[i].path == path
    ensures Dealt(done, r.uploads, channel) && Flagged(done, r.uploads, failed, waiting) && Filed(r.uploads)
    ensures u in r.uploads && r.uploads[u].channel == channel && r.uploads[u].path == path
  {
    StageUploads(w, channel, path, u, r);
    forall i | 0 <= i < |done| && done[i].fileId == "" ensures r.uploads[done[i].uploadId] == w.uploads[done[i].uploadId] {
    }
    SameSome(done, w.uploads, r.uploads, Broken);
    SameSome(done, w.uploads, r.uploads, InProgress);
  }

  lemma SameSome(done: seq<Attachment>, a: map<Id, Upload>, b: map<Id, Upload>, s: UploadState)
    requires forall i :: 0 <= i < |done| && done[i].fileId == "" ==>
      done[i].uploadId in a && done[i].uploadId in b && b[done[i].uploadId] == a[done[i].uploadId]
    ensures Some(done, b, s) <==> Some(done, a, s)
  {
    if Some(done, a, s) {
      var i :| 0 <= i < |done| && In(done[i], a, s);
      assert In(done[i], b, s);
    }
    if Some(done, b, s) {
      var i :| 0 <= i < |done| && In(done[i], b, s);
      assert In(done[i], a, s);
    }
  }

  /** An attachment whose upload could not even be named. */
  predicate Lost(atts: seq<Attachment>, uploads: map<Id, Upload>) {
    exists i :: 0 <= i < |atts| && atts[i].fileId == "" && atts[i].uploadId !in uploads
  }

  /** How staging can end: some upload could not even be named, or all are dealt with and the flags are right. */
  predicate Outcome(s: Staging, channel: Id)
    requires s.Staged?
  {
    if Lost(s.attachments, s.world.uploads) then s.failed
    else Dealt(s.attachments, s.world.uploads, channel) && Flagged(s.attachments, s.world.uploads, s.failed, s.waiting)
  }

  lemma NextAgrees(done: seq<Attachment>, c: Attachment, todo: seq<Attachment>, uuids: seq<Id>)
    requires |uuids| == |todo| && todo != [] && Agrees(done, todo, uuids) && Consistent(todo, uuids)
    requires c.path == todo[0].path && (c.fileId == "" ==> todo[0].fileId == "" && c.uploadId == UploadOf(todo[0], uuids[0]))
    ensures Agrees(done + [c], todo[1..], uuids[1..]) && Consistent(todo[1..], uuids[1..])
  {
    forall j | 0 <= j < |todo| - 1 ensures todo[1..][j] == todo[j + 1] && uuids[1..][j] == uuids[j + 1] {
    }
  }

  lemma {:induction false} StagedFlags(w: World, channel: Id, done: seq<Attachment>, todo: seq<Attachment>,
                                       uuids: seq<Id>, failed: bool, waiting: bool)
    requires |uuids| == |todo| && channel != "" && Filed(w.uploads) && "" !in w.uploads
    requires Dealt(done, w.uploads, channel) && Flagged(done, w.uploads, failed, waiting)
    requires Agrees(done, todo, uuids) && Consistent(todo, uuids)
    ensures var s := StageAll(w, channel, done, todo, uuids, failed, waiting); s.Staged? ==> Outcome(s, channel)
    decreases |todo|
  {
    if todo == [] {
      return;
    }
    var a := todo[0];
    if a.fileId != "" {
      NextAgrees(done, a, todo, uuids);
      AddReady(done, a, w.uploads, failed, waiting);
      StagedFlags(w, channel, done + [a], todo[1..], uuids[1..], failed, waiting);
    } else if a.path != "" {
      var u := UploadOf(a, uuids[0]);
      var (w1, b) := (Stage(w, channel, a.path, u), a.(uploadId := u));
      if u == "" {
        LostOne(done, b, todo[1..], w1.uploads);
      } else {
        StagedOne(w, channel, done, todo, uuids, failed, waiting, w1, b);
        match w1.uploads[u].state
        case Ready =>
          StagedFlags(w1, channel, done + [b.(fileId := w1.uploads[u].fileId)], todo[1..], uuids[1..], failed, waiting);
        case Broken => StagedFlags(w1, channel, done + [b], todo[1..], uuids[1..], true, waiting);
        case InProgress => StagedFlags(w1, channel, done + [b], todo[1..], uuids[1..], failed, true);
      }
    }
  }

  lemma LostOne(done: seq<Attachment>, b: Attachment, rest: seq<Attachment>, uploads: map<Id, Upload>)
    requires b.fileId == "" && b.uploadId !in uploads
    ensures Lost(done + [b] + rest, uploads)
  {
    assert (done + [b] + rest)[|done|] == b;
  }

  /** After one more file is staged, everything the rest of the staging needs holds again. */
  lemma StagedOne(w: World, channel: Id, done: seq<Attachment>, todo: seq<Attachment>, uuids: seq<Id>,
                  failed: bool, waiting: bool, w1: World, b: Attachment)
    requires |uuids| == |todo| && todo != [] && channel != "" && Filed(w.uploads) && "" !in w.uploads
    requires Dealt(done, w.uploads, channel) && Flagged(done, w.uploads, failed, waiting)
    requires Agrees(done, todo, uuids) && Consistent(todo, uuids) && todo[0].fileId == "" && todo[0].path != ""
    requires b == todo[0].(uploadId := UploadOf(todo[0], uuids[0])) && b.uploadId != ""
    requires w1 == Stage(w, channel, b.path, b.uploadId)
    ensures Filed(w1.uploads) && "" !in w1.uploads && b.uploadId in w1.uploads
    ensures var upload := w1.uploads[b.uploadId];
      var c := if upload.state == Ready then b.(fileId := upload.fileId) else b;
      && Agrees(done + [c], todo[1..], uuids[1..]) && Consistent(todo[1..], uuids[1..])
      && Dealt(done + [c], w1.uploads, channel)
      && Flagged(done + [c], w1.uploads, failed || upload.state == Broken, waiting || upload.state == InProgress)
  {
    StageUploads(w, channel, b.path, b.uploadId, w1);
    StageKeepsDealt(w, channel, b.path, b.uploadId, w1, done, failed, waiting);
    StagedNext(w1.uploads, channel, done, todo, uuids, failed, waiting, b, w1.uploads[b.uploadId]);
  }

  lemma StagedNext(uploads: map<Id, Upload>, channel: Id, done: seq<Attachment>, todo: seq<Attachment>, uuids: seq<Id>,
                   failed: bool, waiting: bool, b: Attachment, upload: Upload)
    requires |uuids| == |todo| && todo != [] && Filed(uploads)
    requires Dealt(done, uploads, channel) && Flagged(done, uploads, failed, waiting)
    requires Agrees(done, todo, uuids) && Consistent(todo, uuids)
    requires todo[0].fileId == "" && b == todo[0].(uploadId := UploadOf(todo[0], uuids[0]))
    requires b.uploadId in uploads && upload == uploads[b.uploadId] && upload.channel == channel && upload.path == b.path
    ensures var c := if upload.state == Ready then b.(fileId := upload.fileId) else b;
      && Agrees(done + [c], todo[1..], uuids[1..]) && Consistent(todo[1..], uuids[1..])
      && Dealt(done + [c], uploads, channel)
      && Flagged(done + [c], uploads, failed || upload.state == Broken, waiting || upload.state == InProgress)
  {
    if upload.state == Ready {
      NextAgrees(done, b.(fileId := upload.fileId), todo, uuids);
      AddReady(done, b.(fileId := upload.fileId), uploads, failed, waiting);
    } else {
      NextAgrees(done, b, todo, uuids);
      AddPending(done, b, uploads, failed, waiting);
    }
  }

  /**
   * The state a submission is admitted in: ready to be sent exactly when every file is there, failed exactly when an
   * upload of a missing file is broken or could not be named, and otherwise waiting for uploads.
   */
  lemma AdmittedState(w: World, d: Draft, r: World)
    requires Safe(w) && "" !in w.uploads && |d.uuids| == |d.attachments| && Consistent(d.attachments, d.uuids)
    requires d.id != "" && d.id !in w.flow.posts && Enqueue(w, d) == (r, d.id)
    ensures d.id in r.flow.posts
    ensures var p := r.flow.posts[d.id];
      && p.state == (if AttachmentsReady(p) then Queued
                     else if Lost(p.attachments, r.uploads) || Some(p.attachments, r.uploads, Broken) then Failed
                     else Uploading)
  {
    SafeFiled(w);
    StagedFlags(w, d.conversation.channel, [], d.attachments, d.uuids, false, false);
    var s := StageAll(w, d.conversation.channel, [], d.attachments, d.uuids, false, false);
    ReadyOrNot(s, d.conversation.channel);
  }

  lemma SafeFiled(w: World)
    requires Safe(w)
    ensures Filed(w.uploads)
  {
    forall u | u in w.uploads ensures UploadOk(u, w.uploads[u], w.flow.events) {
    }
  }

  lemma ReadyOrNot(s: Staging, channel: Id)
    requires s.Staged? && Outcome(s, channel)
    ensures var ready := forall i :: 0 <= i < |s.attachments| ==> s.attachments[i].fileId != "";
      && (s.failed <==> !ready && (Lost(s.attachments, s.world.uploads) || Some(s.attachments, s.world.uploads, Broken)))
      && (!s.failed ==> (s.waiting <==> !ready))
  {
    if !Lost(s.attachments, s.world.uploads) && !s.failed {
      forall i | 0 <= i < |s.attachments| && s.attachments[i].fileId == "" ensures s.waiting {
        assert In(s.attachments[i], s.world.uploads, s.world.uploads[s.attachments[i].uploadId].state);
      }
    }
  }
}
