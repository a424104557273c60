/** The session outbox and the attachment uploads it waits for, as one state and its transitions. */
module OutboxModel {
  import opened Prelude

  const MAX_ATTEMPTS: nat := 6
  const MAX_INTERVENING: nat := 3
  const RETRY_WINDOW: nat := 600_000
  const RETRY_DELAYS: seq<nat> := [5_000, 20_000, 60_000, 180_000, 300_000]
  const SAVE_RETRY: nat := 5_000

  /** FIFO order holds per conversation: a channel together with a thread root (or none). */
  datatype Conversation = Conversation(channel: Id, root: Id)

  datatype PostState = Uploading | Queued | Sending | RetryWait | Failed | Blocked

  /** An attachment is ready for delivery once it has a server file identifier. */
  datatype Attachment = Attachment(uploadId: Id, path: string, fileId: Id)

  /** `ticket` is history: the position of the post among everything ever enqueued. */
  datatype Post = Post(conversation: Conversation, message: string, attachments: seq<Attachment>,
                       window: nat, attempts: nat, tail: nat,
                       intervening: set<Id>, interveningCount: nat,
                       state: PostState, generation: nat, ticket: nat)

  datatype UploadState = InProgress | Ready | Broken

  datatype Upload = Upload(channel: Id, path: string, state: UploadState, fileId: Id, generation: nat)

  /** Work that has been handed to a timer or to the network and will come back with what it captured. */
  datatype Event =
    | Start(conversation: Conversation)
    | Fire(id: Id, generation: nat)
    | RetryDue(id: Id, generation: nat, due: nat)
    | Deadline(id: Id, window: nat, due: nat)
    | Reply(id: Id, generation: nat)
    | Forget(serverId: Id, due: nat)
    | UploadReply(uploadId: Id, generation: nat)
    | SaveAgain(due: nat)

  /** What a create-post request came back with. */
  datatype Outcome = Accepted(serverId: Id) | Rejected(retryable: bool)

  /** What the durable outbox file remembers of one post. */
  datatype Record = Record(id: Id, conversation: Conversation, message: string, paths: seq<string>)

  /** One request put on the wire - where to, with which text and files - and history about it. */
  datatype Transmission = Transmission(id: Id, conversation: Conversation, message: string, files: seq<Id>, ticket: nat, generation: nat,
                                       window: nat, at: nat, attempt: nat, intervening: nat)

  /** The posts in the outbox together with everything pending on their behalf. */
  datatype Flow = Flow(posts: map<Id, Post>, events: multiset<Event>)

  /** Service state, the environment it runs in, and history (`tickets`, `used`, `wire`). */
  datatype World = World(
    order: seq<Id>, owned: seq<Id>, flow: Flow,
    confirmed: set<Id>, backlog: seq<Record>, saveScheduled: bool,
    disk: seq<Record>, uploads: map<Id, Upload>,
    now: nat, channels: set<Id>, readable: set<string>, writable: bool,
    tickets: nat, used: set<Id>, wire: seq<Transmission>)

  // ---------------------------------------------------------------- queries

  /** The identifiers of one conversation, in order. */
  function PendingIds(order: seq<Id>, posts: map<Id, Post>, c: Conversation): (r: seq<Id>)
    ensures forall id :: id in r <==> id in order && id in posts && posts[id].conversation == c
  {
    if order == [] then []
    else if order[0] in posts && posts[order[0]].conversation == c
    then [order[0]] + PendingIds(order[1..], posts, c)
    else PendingIds(order[1..], posts, c)
  }

  function Head(order: seq<Id>, posts: map<Id, Post>, c: Conversation): Option<Id> {
    var ids := PendingIds(order, posts, c);
    if ids == [] then None else Some(ids[0])
  }

  predicate AttachmentsReady(p: Post) {
    forall i :: 0 <= i < |p.attachments| ==> p.attachments[i].fileId != ""
  }

  function Paths(atts: seq<Attachment>): seq<string> {
    if atts == [] then [] else [atts[0].path] + Paths(atts[1..])
  }

  function FileIds(atts: seq<Attachment>): seq<Id> {
    seq(|atts|, i requires 0 <= i < |atts| => atts[i].fileId)
  }

  function RecordOf(id: Id, p: Post): Record {
    Record(id, p.conversation, p.message, Paths(p.attachments))
  }

  function Records(order: seq<Id>, posts: map<Id, Post>): seq<Record> {
    if order == [] then []
    else if order[0] in posts then [RecordOf(order[0], posts[order[0]])] + Records(order[1..], posts)
    else Records(order[1..], posts)
  }

  /** What a post is, apart from how far its delivery and its uploads have come. */
  function Intent(p: Post): Post {
    p.(state := Queued, generation := 0, attachments := Bare(p.attachments))
  }

  function Bare(atts: seq<Attachment>): (r: seq<Attachment>)
    ensures |r| == |atts|
  {
    seq(|atts|, i requires 0 <= i < |atts| => Attachment("", atts[i].path, ""))
  }

  ghost predicate SameRow(p: Post, q: Post) {
    Intent(q) == Intent(p) && q.generation >= p.generation && |q.attachments| == |p.attachments|
  }

  ghost predicate SameRows(a: map<Id, Post>, b: map<Id, Post>) {
    b.Keys == a.Keys && forall id :: id in a ==> SameRow(a[id], b[id])
  }

  /** Nothing pending is lost, and nothing new is a completion, a retry or a deadline of a post. */
  ghost predicate Mild(a: multiset<Event>, b: multiset<Event>) {
    a <= b && forall e :: b[e] > a[e] ==> e.Fire? || e.SaveAgain? || e.UploadReply?
  }

  predicate StartsWith<T(==)>(s: seq<T>, t: seq<T>) {
    |t| <= |s| && s[..|t|] == t
  }

  /** Whatever is written to the file repeats the backlog in front. */
  predicate BacklogKept(w: World, v: World) {
    v.backlog == w.backlog && (v.disk == w.disk || StartsWith(v.disk, w.backlog))
  }

  /** The record says what the post of that identifier says. */
  predicate Describes(x: Record, posts: map<Id, Post>) {
    x.id in posts && x.conversation == posts[x.id].conversation && x.message == posts[x.id].message
    && x.paths == Paths(Bare(posts[x.id].attachments))
  }

  /** The file gained no record but of posts in the outbox. */
  ghost predicate FileFrom(w: World, v: World) {
    forall x :: x in v.disk ==> x in w.disk || x in w.backlog || Describes(x, w.flow.posts)
  }

  lemma {:induction false} PathsAreBare(atts: seq<Attachment>)
    ensures Paths(Bare(atts)) == Paths(atts)
  {
    if atts != [] {
      assert Bare(atts)[0].path == atts[0].path && Bare(atts)[1..] == Bare(atts[1..]);
      PathsAreBare(atts[1..]);
    }
  }

  lemma {:induction false} RecordsDescribe(order: seq<Id>, posts: map<Id, Post>)
    ensures forall x :: x in Records(order, posts) ==> Describes(x, posts)
  {
    if order != [] {
      RecordsDescribe(order[1..], posts);
      if order[0] in posts {
        PathsAreBare(posts[order[0]].attachments);
      }
    }
  }

  /** Same entries in the books: who is in the outbox in which order, what was sent, and the time. */
  ghost predicate SameBooks(w: World, v: World) {
    && v.order == w.order && v.owned == w.owned && v.now == w.now
    && v.tickets == w.tickets && v.used == w.used && v.wire == w.wire
  }

  /** Deliveries and uploads may have moved along; nothing was added, lost or rewritten. */
  ghost predicate Calm(w: World, v: World) {
    SameRows(w.flow.posts, v.flow.posts) && Mild(w.flow.events, v.flow.events) && SameBooks(w, v)
    && BacklogKept(w, v) && FileFrom(w, v)
  }

  // ---------------------------------------------------------------- persistence

  function SaveBestEffort(w: World): (r: World)
    ensures Calm(w, r) && r.flow.posts == w.flow.posts && r.uploads == w.uploads
  {
    RecordsDescribe(w.order, w.flow.posts);
    if w.writable then w.(disk := w.backlog + Records(w.order, w.flow.posts), saveScheduled := false)
    else if w.saveScheduled then w
    else w.(saveScheduled := true, flow := Later(w.flow, SaveAgain(w.now + SAVE_RETRY)))
  }

  // ---------------------------------------------------------------- the delivery state machine

  function Later(f: Flow, e: Event): Flow {
    f.(events := f.events + multiset{e})
  }

  function Put(f: Flow, id: Id, p: Post): Flow {
    f.(posts := f.posts[id := p])
  }

  function FailPost(p: Post): Post {
    p.(state := Failed, generation := p.generation + 1)
  }

  function Fail(f: Flow, id: Id): Flow
    requires id in f.posts
  {
    Put(f, id, FailPost(f.posts[id]))
  }

  function BlockPost(p: Post): (q: Post)
    ensures SameRow(p, q)
  {
    if p.state == Failed || p.state == Blocked then p
    else p.(state := Blocked, generation := p.generation + 1)
  }

  /** Everything behind the head waits for it, except what has already failed. */
  function BlockLater(posts: map<Id, Post>, c: Conversation, head: Id): (r: map<Id, Post>)
    ensures SameRows(posts, r)
  {
    map id | id in posts ::
      if posts[id].conversation == c && id != head then BlockPost(posts[id]) else posts[id]
  }

  /** What becomes of a head once everything behind it is blocked. */
  function Advanced(p: Post, now: nat): (q: Post)
    ensures SameRow(p, q)
  {
    if p.state == Failed || p.state == Uploading || p.state == Sending || p.state == RetryWait then p
    else if p.interveningCount >= MAX_INTERVENING then FailPost(p)
    else if now - p.window >= RETRY_WINDOW then FailPost(p)
    else p.(state := Queued, generation := p.generation + 1)
  }

  /** A head that is queued again fires under its new generation; an older timer of it no longer matches. */
  function HeadTimer(head: Id, q: Post): multiset<Event> {
    if q.state == Queued then multiset{Fire(head, q.generation)} else multiset{}
  }

  function Advance(f: Flow, head: Id, now: nat): (r: Flow)
    requires head in f.posts
    ensures SameRows(f.posts, r.posts) && Mild(f.events, r.events)
  {
    var q := Advanced(f.posts[head], now);
    Flow(f.posts[head := q], f.events + HeadTimer(head, q))
  }

  function TryStart(f: Flow, order: seq<Id>, now: nat, c: Conversation): (r: Flow)
    ensures SameRows(f.posts, r.posts) && Mild(f.events, r.events)
  {
    match Head(order, f.posts, c)
    case None => f
    case Some(head) =>
      if head !in f.posts then f
      else Advance(f.(posts := BlockLater(f.posts, c, head)), head, now)
  }

  function TryStartAll(f: Flow, order: seq<Id>, now: nat, cs: seq<Conversation>): (r: Flow)
    ensures SameRows(f.posts, r.posts) && Mild(f.events, r.events)
    decreases |cs|
  {
    if cs == [] then f else TryStartAll(TryStart(f, order, now, cs[0]), order, now, cs[1..])
  }

  function Sent(p: Post): Post {
    p.(attempts := p.attempts + 1, state := Sending, generation := p.generation + 1)
  }

  function Line(id: Id, q: Post, now: nat): Transmission {
    Transmission(id, q.conversation, q.message, FileIds(q.attachments), q.ticket, q.generation, q.window, now, q.attempts, q.interveningCount)
  }

  /** What an attempt makes of the head: it is sent only within every budget and with all its attachments. */
  function Attempted(p: Post, now: nat, channels: set<Id>): Post {
    if p.attempts >= MAX_ATTEMPTS then FailPost(p)
    else if now - p.window >= RETRY_WINDOW then FailPost(p)
    else if p.interveningCount >= MAX_INTERVENING then FailPost(p)
    else if p.conversation.channel !in channels then FailPost(p)
    else if !AttachmentsReady(p) then p.(state := Uploading, generation := p.generation + 1)
    else Sent(p)
  }

  /** A request that goes on the wire leaves its completion outstanding, under the generation it was sent with. */
  function Attempt(w: World, id: Id): World {
    if id !in w.flow.posts || Head(w.order, w.flow.posts, w.flow.posts[id].conversation) != Some(id) then w
    else
      var q := Attempted(w.flow.posts[id], w.now, w.channels);
      if q.state == Sending
      then w.(flow := Later(Put(w.flow, id, q), Reply(id, q.generation)), wire := w.wire + [Line(id, q, w.now)])
      else w.(flow := Put(w.flow, id, q))
  }

  /** How long the next retry waits: the table entry of this attempt, cut off at the end of the window. */
  function RetryDelay(p: Post, now: nat): int
    requires 0 < p.attempts
  {
    Min(RETRY_DELAYS[Min(p.attempts - 1, |RETRY_DELAYS| - 1)], RETRY_WINDOW - (now - p.window))
  }

  function WaitUntil(f: Flow, id: Id, due: nat): Flow
    requires id in f.posts
  {
    var q := f.posts[id].(state := RetryWait, generation := f.posts[id].generation + 1);
    Later(Put(f, id, q), RetryDue(id, q.generation, due))
  }

  function ScheduleRetry(f: Flow, id: Id, now: nat): Flow
    requires id in f.posts
  {
    var p := f.posts[id];
    if p.attempts == 0 || p.attempts >= MAX_ATTEMPTS then Fail(f, id)
    else if RETRY_WINDOW - (now - p.window) <= 0 then Fail(f, id)
    else WaitUntil(f, id, now + RetryDelay(p, now))
  }

  function ReleaseAll(uploads: map<Id, Upload>, atts: seq<Attachment>): map<Id, Upload> {
    if atts == [] then uploads
    else ReleaseAll(if atts[0].uploadId == "" then uploads else uploads - {atts[0].uploadId}, atts[1..])
  }

  function Drop(w: World, id: Id): World
    requires id in w.flow.posts
  {
    w.(uploads := ReleaseAll(w.uploads, w.flow.posts[id].attachments),
       order := Without(w.order, id), owned := Without(w.owned, id),
       flow := w.flow.(posts := w.flow.posts - {id}))
  }

  function Remove(w: World, id: Id): World {
    if id !in w.flow.posts then w
    else
      var w1 := SaveBestEffort(Drop(w, id));
      w1.(flow := Later(w1.flow, Start(w.flow.posts[id].conversation)))
  }

  /** Remember a confirmed server identifier for as long as anything could still be retried. */
  function Remember(w: World, serverId: Id): World {
    if serverId == "" then w
    else w.(confirmed := w.confirmed + {serverId}, flow := Later(w.flow, Forget(serverId, w.now + RETRY_WINDOW)))
  }

  function Confirm(w: World, id: Id, serverId: Id): World {
    if id !in w.flow.posts then w else Remove(Remember(w, serverId), id)
  }

  // ---------------------------------------------------------------- completions and timers

  function OnFire(w: World, id: Id, generation: nat): World {
    if id in w.flow.posts && w.flow.posts[id].generation == generation && w.flow.posts[id].state == Queued
    then Attempt(w, id) else w
  }

  predicate RetryAllowed(p: Post, now: nat) {
    p.attempts < MAX_ATTEMPTS && now - p.window < RETRY_WINDOW && p.interveningCount < MAX_INTERVENING
  }

  function OnReply(w: World, id: Id, generation: nat, outcome: Outcome): World {
    if id !in w.flow.posts then w
    else if outcome.Accepted? then Confirm(w, id, outcome.serverId)
    else if w.flow.posts[id].generation != generation || w.flow.posts[id].state == Failed then w
    else if outcome.retryable && RetryAllowed(w.flow.posts[id], w.now)
    then w.(flow := ScheduleRetry(w.flow, id, w.now))
    else w.(flow := Fail(w.flow, id))
  }

  function Requeue(f: Flow, id: Id): Flow
    requires id in f.posts
  {
    Put(f, id, f.posts[id].(state := Queued, generation := f.posts[id].generation + 1))
  }

  function OnRetryDue(w: World, id: Id, generation: nat): World {
    if id !in w.flow.posts || w.flow.posts[id].generation != generation || w.flow.posts[id].state != RetryWait then w
    else w.(flow := TryStart(Requeue(w.flow, id), w.order, w.now, w.flow.posts[id].conversation))
  }

  function OnDeadline(w: World, id: Id, window: nat): World {
    if id !in w.flow.posts || w.flow.posts[id].state == Failed || w.flow.posts[id].window != window
       || w.flow.posts[id].state == Sending
    then w
    else w.(flow := Fail(w.flow, id))
  }

  // ---------------------------------------------------------------- uploads

  predicate Waits(p: Post, u: Id) {
    exists i :: 0 <= i < |p.attachments| && p.attachments[i].uploadId == u && p.attachments[i].fileId == ""
  }

  function Filled(atts: seq<Attachment>, u: Id, upload: Upload): (r: seq<Attachment>)
    ensures |r| == |atts|
    ensures forall i :: 0 <= i < |atts| ==>
      r[i] == if atts[i].uploadId == u && atts[i].fileId == "" && upload.state == Ready
              then atts[i].(fileId := upload.fileId) else atts[i]
  {
    seq(|atts|, i requires 0 <= i < |atts| =>
      if atts[i].uploadId == u && atts[i].fileId == "" && upload.state == Ready
      then atts[i].(fileId := upload.fileId) else atts[i])
  }

  /** What one upload notification does to one post. */
  function Notice(p: Post, u: Id, upload: Upload): (r: Post)
    ensures SameRow(p, r)
  {
    if !Waits(p, u) then p
    else
      assert Bare(Filled(p.attachments, u, upload)) == Bare(p.attachments);
      var q := p.(attachments := Filled(p.attachments, u, upload));
      if upload.state == Broken then (if q.state == Failed then q else FailPost(q))
      else if q.state == Uploading && AttachmentsReady(q) then q.(state := Queued, generation := q.generation + 1)
      else q
  }

  /** Conversations with a post that waits for upload u, each once, in the order of their first such post. */
  function Affected(owned: seq<Id>, posts: map<Id, Post>, u: Id, seen: set<Conversation>): seq<Conversation> {
    if owned == [] then []
    else if owned[0] in posts && Waits(posts[owned[0]], u) && posts[owned[0]].conversation !in seen
    then [posts[owned[0]].conversation] + Affected(owned[1..], posts, u, seen + {posts[owned[0]].conversation})
    else Affected(owned[1..], posts, u, seen)
  }

  function NoticeAll(posts: map<Id, Post>, u: Id, upload: Upload): (r: map<Id, Post>)
    ensures SameRows(posts, r)
  {
    map id | id in posts :: Notice(posts[id], u, upload)
  }

  function UploadChanged(w: World, u: Id): (r: World)
    ensures Calm(w, r) && r.uploads == w.uploads
  {
    if u == "" || u !in w.uploads then w
    else
      var cs := Affected(w.owned, w.flow.posts, u, {});
      var w1 := w.(flow := w.flow.(posts := NoticeAll(w.flow.posts, u, w.uploads[u])));
      var w2 := if cs == [] then w1 else SaveBestEffort(w1);
      w2.(flow := TryStartAll(w2.flow, w2.order, w2.now, cs))
  }

  function SetUpload(w: World, u: Id, state: UploadState, fileId: Id, generation: nat): World
    requires u in w.uploads
  {
    w.(uploads := w.uploads[u := w.uploads[u].(state := state, fileId := fileId, generation := generation)])
  }

  function FinishUpload(w: World, u: Id, generation: nat, fileId: Id): (r: World)
    ensures Calm(w, r)
  {
    if u !in w.uploads || w.uploads[u].generation != generation then w
    else UploadChanged(SetUpload(w, u, if fileId == "" then Broken else Ready, fileId, generation), u)
  }

  function StartUpload(w: World, u: Id): (r: World)
    ensures Calm(w, r)
  {
    if u !in w.uploads then w
    else
      var generation := w.uploads[u].generation + 1;
      if w.uploads[u].channel !in w.channels then UploadChanged(SetUpload(w, u, Broken, "", generation), u)
      else
        var w1 := UploadChanged(SetUpload(w, u, InProgress, "", generation), u);
        if w.uploads[u].path in w.readable then w1.(flow := Later(w1.flow, UploadReply(u, generation)))
        else FinishUpload(w1, u, generation, "")
  }

  function Stage(w: World, channel: Id, path: string, u: Id): (r: World)
    ensures Calm(w, r)
  {
    if channel == "" || path == "" || u == "" then w
    else if u in w.uploads && w.uploads[u].channel == channel && w.uploads[u].path == path then w
    else StartUpload(w.(uploads := w.uploads[u := Upload(channel, path, InProgress, "", 0)]), u)
  }

  function RetryUpload(w: World, u: Id): (r: World)
    ensures Calm(w, r)
  {
    if u !in w.uploads || w.uploads[u].state != Broken then w else StartUpload(w, u)
  }

  // ---------------------------------------------------------------- enqueue, retry, cancel

  datatype Staging = Refused(world: World) | Staged(world: World, attachments: seq<Attachment>, failed: bool, waiting: bool)

  function StagedWorld(s: Staging): World {
    match s
    case Refused(w) => w
    case Staged(w, _, _, _) => w
  }

  /** Stage the attachments of a new post one by one; `uuids` supplies the identifiers the upload service invents. */
  function StageAll(w: World, channel: Id, done: seq<Attachment>, todo: seq<Attachment>, uuids: seq<Id>,
                    failed: bool, waiting: bool): (r: Staging)
    requires |uuids| == |todo|
    ensures Calm(w, StagedWorld(r))
    decreases |todo|
  {
    if todo == [] then Staged(w, done, failed, waiting)
    else
      var a := todo[0];
      if a.fileId != "" then StageAll(w, channel, done + [a], todo[1..], uuids[1..], failed, waiting)
      else if a.path == "" then Refused(w)
      else
        var u := if a.uploadId == "" then uuids[0] else a.uploadId;
        var w1 := Stage(w, channel, a.path, u);
        var b := a.(uploadId := u);
        if u !in w1.uploads then Staged(w1, done + [b] + todo[1..], true, waiting)
        else match w1.uploads[u].state
          case Ready =>
            StageAll(w1, channel, done + [b.(fileId := w1.uploads[u].fileId)], todo[1..], uuids[1..], failed, waiting)
          case Broken => StageAll(w1, channel, done + [b], todo[1..], uuids[1..], true, waiting)
          case InProgress => StageAll(w1, channel, done + [b], todo[1..], uuids[1..], failed, true)
  }

  datatype Draft = Draft(id: Id, conversation: Conversation, message: string, attachments: seq<Attachment>,
                         uuids: seq<Id>, tail: nat)

  predicate Enqueueable(d: Draft) {
    d.conversation.channel != "" && d.id != "" && (d.message != "" || d.attachments != [])
  }

  function NewPost(d: Draft, atts: seq<Attachment>, now: nat, ticket: nat, failed: bool, waiting: bool): Post {
    Post(d.conversation, d.message, atts, now, 0, d.tail, {}, 0,
         if failed then Failed else if waiting then Uploading else Queued, 0, ticket)
  }

  /** Append an accepted post, or take everything back if the outbox file cannot be written. */
  function Admit(w: World, id: Id, p: Post): (World, Id) {
    if !w.writable then (w.(uploads := ReleaseAll(w.uploads, p.attachments)), "")
    else
      var posts := w.flow.posts[id := p];
      (w.(used := w.used + {id}, tickets := w.tickets + 1, order := w.order + [id], owned := w.owned + [id],
           disk := w.backlog + Records(w.order + [id], posts),
           flow := Flow(posts, w.flow.events + multiset{Start(p.conversation)}
                               + multiset{Deadline(id, w.now, w.now + RETRY_WINDOW)})), id)
  }

  function Enqueue(w: World, d: Draft): (World, Id)
    requires |d.uuids| == |d.attachments|
  {
    if !Enqueueable(d) then (w, "")
    else if d.id in w.flow.posts then (w, d.id)
    else
      match StageAll(w, d.conversation.channel, [], d.attachments, d.uuids, false, false)
      case Refused(w1) => (w1, "")
      case Staged(w1, atts, failed, waiting) =>
        Admit(w1, d.id, NewPost(d, atts, w1.now, w1.tickets, failed, waiting))
  }

  function SetAttachment(w: World, id: Id, i: nat, a: Attachment): (r: World)
    requires id in w.flow.posts && i < |w.flow.posts[id].attachments| && a.path == w.flow.posts[id].attachments[i].path
    ensures Calm(w, r)
  {
    var p := w.flow.posts[id];
    var q := p.(attachments := p.attachments[i := a]);
    assert Bare(q.attachments) == Bare(p.attachments);
    w.(flow := Put(w.flow, id, q))
  }

  /** One attachment of a user retry: make sure it has an upload, and restart that upload if it had failed. */
  function RestartOne(w: World, id: Id, i: nat, uuid: Id): (r: (World, bool))
    requires id in w.flow.posts && i < |w.flow.posts[id].attachments|
    ensures Calm(w, r.0)
  {
    var a := w.flow.posts[id].attachments[i];
    if a.fileId != "" then (w, false)
    else
      var channel := w.flow.posts[id].conversation.channel;
      var restage := a.uploadId !in w.uploads && channel in w.channels && a.path != "";
      var u := if restage && a.uploadId == "" then uuid else a.uploadId;
      var w1 := if restage then Stage(w, channel, a.path, u) else w;
      var b := w1.flow.posts[id].attachments[i];
      var w2 := SetAttachment(w1, id, i, b.(uploadId := u));
      if u in w2.uploads && w2.uploads[u].state == Ready
      then (SetAttachment(w2, id, i, b.(uploadId := u, fileId := w2.uploads[u].fileId)), false)
      else (RetryUpload(w2, u), true)
  }

  function RestartAll(w: World, id: Id, i: nat, uuids: seq<Id>): (r: (World, bool))
    requires id in w.flow.posts && i <= |w.flow.posts[id].attachments| == |uuids|
    ensures Calm(w, r.0)
    decreases |uuids| - i
  {
    if i == |uuids| then (w, false)
    else
      var (w1, waiting) := RestartOne(w, id, i, uuids[i]);
      var (w2, waiting') := RestartAll(w1, id, i + 1, uuids);
      (w2, waiting || waiting')
  }

  /** The post as a user retry reopens it: nothing of the old budget carries over. */
  function Reopened(p: Post, now: nat, tail: nat): Post {
    p.(attempts := 0, interveningCount := 0, intervening := {}, window := now, tail := tail,
       state := Uploading, generation := p.generation + 1)
  }

  function Reopen(w: World, id: Id, tail: nat): World
    requires id in w.flow.posts
  {
    var p := w.flow.posts[id];
    w.(flow := Put(w.flow, id, Reopened(p, w.now, if p.conversation.channel in w.channels then tail else p.tail)))
  }

  /** Queue the reopened post unless it waits for an upload; either way, schedule its deadline and its conversation. */
  function Resume(w: World, waiting: bool, id: Id): World
    requires id in w.flow.posts
  {
    var f := if waiting then w.flow else Requeue(w.flow, id);
    w.(flow := Later(Later(f, Deadline(id, w.now, w.now + RETRY_WINDOW)), Start(w.flow.posts[id].conversation)))
  }

  function Retry(w: World, id: Id, tail: nat, uuids: seq<Id>): World
    requires id in w.flow.posts ==> |uuids| == |w.flow.posts[id].attachments|
  {
    if id !in w.flow.posts || w.flow.posts[id].state != Failed then w
    else
      var (w1, waiting) := RestartAll(Reopen(w, id, tail), id, 0, uuids);
      Resume(w1, waiting, id)
  }

  // ---------------------------------------------------------------- authoritative posts

  /** A post the server made authoritative, as the outbox sees it arrive. */
  datatype Arrival = Arrival(id: Id, pendingId: Id, conversation: Conversation, createAt: nat, visible: bool)

  predicate Counts(p: Post, a: Arrival) {
    a.id !in p.intervening && !(p.tail > 0 && a.createAt <= p.tail)
  }

  /** The arrival as one pending post of the same conversation counts it. */
  function Overtaken(p: Post, a: Arrival, head: bool): Post {
    if !Counts(p, a) then p
    else
      var q := p.(intervening := p.intervening + {a.id}, interveningCount := |p.intervening + {a.id}|);
      if head && q.state != Failed && q.state != Sending && q.interveningCount >= MAX_INTERVENING
      then FailPost(q) else q
  }

  function OvertakenAll(posts: map<Id, Post>, a: Arrival, head: Option<Id>): map<Id, Post> {
    map id | id in posts ::
      if posts[id].conversation == a.conversation then Overtaken(posts[id], a, head == Some(id)) else posts[id]
  }

  function Authoritative(w: World, a: Arrival): World {
    if a.id != "" && a.id in w.confirmed then w
    else if a.pendingId != "" && a.pendingId in w.flow.posts then Confirm(w, a.pendingId, a.id)
    else
      var head := Head(w.order, w.flow.posts, a.conversation);
      if head == None || a.id == "" || !a.visible then w
      else w.(flow := w.flow.(posts := OvertakenAll(w.flow.posts, a, head)))
  }

  // ---------------------------------------------------------------- runs

  datatype Action =
    | Submit(draft: Draft)
    | UserRetry(id: Id, tail: nat, uuids: seq<Id>)
    | Cancel(id: Id)
    | ComposerStage(channel: Id, path: string, uploadId: Id)
    | ComposerRelease(uploadId: Id)
    | Arrive(arrival: Arrival)
    | Tick(ms: nat)
    | Disk(writable: bool)
    | Reachable(channels: set<Id>, readable: set<string>)
    | Deliver(event: Event, outcome: Outcome, fileId: Id)

  predicate Due(e: Event, now: nat) {
    match e
    case RetryDue(_, _, due) => due <= now
    case Deadline(_, _, due) => due <= now
    case Forget(_, due) => due <= now
    case SaveAgain(due) => due <= now
    case _ => true
  }

  /** Timers do not fire early; the identifier of a post that has left the outbox is not used again. */
  predicate Enabled(w: World, a: Action) {
    match a
    case Submit(d) => |d.uuids| == |d.attachments| && (d.id in w.used ==> d.id in w.flow.posts)
    case UserRetry(id, _, uuids) => id in w.flow.posts ==> |uuids| == |w.flow.posts[id].attachments|
    case Deliver(e, _, _) => e in w.flow.events && Due(e, w.now)
    case _ => true
  }

  function Handle(w: World, e: Event, outcome: Outcome, fileId: Id): World {
    match e
    case Start(c) => w.(flow := TryStart(w.flow, w.order, w.now, c))
    case Fire(id, g) => OnFire(w, id, g)
    case RetryDue(id, g, _) => OnRetryDue(w, id, g)
    case Deadline(id, window, _) => OnDeadline(w, id, window)
    case Reply(id, g) => OnReply(w, id, g, outcome)
    case Forget(serverId, _) => w.(confirmed := w.confirmed - {serverId})
    case UploadReply(u, g) => FinishUpload(w, u, g, fileId)
    case SaveAgain(_) => SaveBestEffort(w.(saveScheduled := false))
  }

  function Taken(w: World, e: Event): World {
    w.(flow := w.flow.(events := w.flow.events - multiset{e}))
  }

  function Next(w: World, a: Action): World
    requires Enabled(w, a)
  {
    match a
    case Submit(d) => Enqueue(w, d).0
    case UserRetry(id, tail, uuids) => Retry(w, id, tail, uuids)
    case Cancel(id) => Remove(w, id)
    case ComposerStage(channel, path, u) => Stage(w, channel, path, u)
    case ComposerRelease(u) => w.(uploads := w.uploads - {u})
    case Arrive(arrival) => Authoritative(w, arrival)
    case Tick(ms) => w.(now := w.now + ms)
    case Disk(writable) => w.(writable := writable)
    case Reachable(channels, readable) => w.(channels := channels, readable := readable)
    case Deliver(e, outcome, fileId) => Handle(Taken(w, e), e, outcome, fileId)
  }

  /** A finite run: consecutive worlds, each obtained by an enabled action. */
  ghost predicate IsRun(ws: seq<World>, acts: seq<Action>) {
    && |ws| == |acts| + 1
    && forall i :: 0 <= i < |acts| ==> Enabled(ws[i], acts[i]) && ws[i + 1] == Next(ws[i], acts[i])
  }

  predicate EndsWith<T(==)>(s: seq<T>, t: seq<T>) {
    |t| <= |s| && s[|s| - |t|..] == t
  }

  /** Start of a session: nothing in the outbox; what recovery could not hand over is still at the end of the file. */
  predicate Initial(w: World) {
    && w.order == [] && w.owned == [] && w.flow == Flow(map[], multiset{}) && w.confirmed == {}
    && EndsWith(w.disk, w.backlog) && !w.saveScheduled && w.uploads == map[]
    && w.wire == [] && w.used == {}
  }
}
