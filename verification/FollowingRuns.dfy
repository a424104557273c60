/** Everything that happens to the following model over a run: observations, local marks, conversations, refreshes. */
module FollowingRuns {
  import opened Prelude
  import opened PostOrder
  import opened Following

  // ---------------------------------------------------------------- the next unread post

  datatype Cached = Cached(id: Id, root: Id, createAt: nat, deleted: bool)

  function StampOf(p: Cached): Stamp {
    Stamp(p.createAt, p.id)
  }

  /** Does this cached post belong to the timeline that is being read? */
  predicate InTimeline(p: Cached, thread: Id, rootOnly: bool) {
    !p.deleted && p.id != "" && (thread != "" || !rootOnly || p.root == "")
    && (thread == "" || p.id == thread || p.root == thread)
  }

  /** The earliest post of the timeline after a stamp. */
  function NextCached(posts: seq<Cached>, thread: Id, rootOnly: bool, after: Stamp): Option<Stamp> {
    if posts == [] then None
    else
      var rest := NextCached(posts[..|posts| - 1], thread, rootOnly, after);
      var p := posts[|posts| - 1];
      if InTimeline(p, thread, rootOnly) && Before(after, StampOf(p)) && (rest.None? || Before(StampOf(p), rest.value))
      then Some(StampOf(p)) else rest
  }

  ghost predicate Unread(posts: seq<Cached>, thread: Id, rootOnly: bool, after: Stamp, s: Stamp) {
    exists p :: p in posts && InTimeline(p, thread, rootOnly) && StampOf(p) == s && Before(after, s)
  }

  /** It is an unread post, no unread post comes before it, and there is none only if nothing is unread. */
  lemma {:induction false} NextIsLeast(posts: seq<Cached>, thread: Id, rootOnly: bool, after: Stamp)
    ensures var r := NextCached(posts, thread, rootOnly, after);
      && (r.Some? ==> Unread(posts, thread, rootOnly, after, r.value) && r.value.id != "")
      && (forall s :: Unread(posts, thread, rootOnly, after, s) ==> r.Some? && !Before(s, r.value))
  {
    if posts != [] {
      var (front, p) := (posts[..|posts| - 1], posts[|posts| - 1]);
      NextIsLeast(front, thread, rootOnly, after);
      var (rest, r) := (NextCached(front, thread, rootOnly, after), NextCached(posts, thread, rootOnly, after));
      assert posts == front + [p];
      forall s | Unread(posts, thread, rootOnly, after, s) ensures r.Some? && !Before(s, r.value) {
        var q :| q in posts && InTimeline(q, thread, rootOnly) && StampOf(q) == s && Before(after, s);
        StrictTotalOrder(StampOf(p), s, StampOf(p));
        if q in front {
          assert Unread(front, thread, rootOnly, after, s);
          StrictTotalOrder(s, StampOf(p), rest.value);
        }
        if rest.Some? {
          StrictTotalOrder(StampOf(p), rest.value, StampOf(p));
        }
      }
      if r.Some? && r == rest {
        var q :| q in front && InTimeline(q, thread, rootOnly) && StampOf(q) == r.value && Before(after, r.value);
        assert q in posts;
      }
    }
  }

  // ---------------------------------------------------------------- one entry

  /** Is the observation refused because the entry was read further already? */
  predicate Refused(e: Entry, post: Stamp) {
    e.boundary.id != "" && e.boundary.id != post.id && !Before(e.boundary, post)
  }

  function ResumeAfter(posts: seq<Cached>, thread: Id, rootOnly: bool, post: Stamp, sourceAtEnd: bool): Resume {
    match NextCached(posts, thread, rootOnly, post)
    case Some(s) => FirstUnread(s.id)
    case None => if sourceAtEnd then AtEnd else Unknown
  }

  function Observed(e: Entry, post: Stamp, posts: seq<Cached>, rootOnly: bool, sourceAtEnd: bool): Entry {
    if Refused(e, post) then e
    else e.(boundary := post, resume := ResumeAfter(posts, e.thread, rootOnly, post, sourceAtEnd))
  }

  /** An entry that was read to the end resumes at a post that arrives after it. */
  function Arrived(e: Entry, post: Stamp): Entry {
    if e.resume != AtEnd || (e.boundary.id != "" && !Before(e.boundary, post)) then e
    else e.(resume := FirstUnread(post.id))
  }

  function MarkedRead(e: Entry): Entry {
    e.(replies := 0, mentions := 0, mentioned := false, ackPending := true,
       ackAt := if e.boundary.createAt != 0 then e.boundary.createAt else e.lastReplyAt)
  }

  function MarkedUnread(e: Entry, post: Stamp): Entry {
    e.(replies := if e.replies < 1 then 1 else e.replies, resume := FirstUnread(post.id), boundary := NOWHERE,
       ackPending := false, ackAt := 0, lastReplyAt := if e.lastReplyAt >= post.createAt then e.lastReplyAt else post.createAt,
       muted := false)
  }

  /** The boundary has not moved back. */
  predicate NotBack(e: Entry, f: Entry) {
    !Before(f.boundary, e.boundary)
  }

  /**
   * An observation moves the boundary back exactly when it reports the boundary's own post with an earlier creation
   * time; with creation times that never change, it never does.
   */
  lemma ObservedMovesBackExactly(e: Entry, post: Stamp, posts: seq<Cached>, rootOnly: bool, atEnd: bool)
    requires post.id != ""
    ensures !NotBack(e, Observed(e, post, posts, rootOnly, atEnd))
      <==> (e.boundary.id == post.id || e.boundary.id == "") && post.createAt < e.boundary.createAt
  {
    StrictTotalOrder(e.boundary, post, e.boundary);
    TextIrreflexive(post.id);
  }

  /** The same post, earlier: an input for which the boundary does move back. */
  lemma SamePostCanMoveBack()
    ensures exists e: Entry, post: Stamp :: !NotBack(e, Observed(e, post, [], false, true))
  {
    var e := Blank(Thread, "c", "t").(boundary := Stamp(9, "p"));
    assert Observed(e, Stamp(5, "p"), [], false, true).boundary == Stamp(5, "p");
    assert !NotBack(e, Observed(e, Stamp(5, "p"), [], false, true));
  }

  /** After an accepted observation the cursor is on the least unread cached post; at the end only if there is none. */
  lemma AcceptedObservation(e: Entry, post: Stamp, posts: seq<Cached>, rootOnly: bool, atEnd: bool)
    requires !Refused(e, post)
    ensures var f := Observed(e, post, posts, rootOnly, atEnd);
      && f.boundary == post
      && (f.resume == AtEnd <==> atEnd && forall s :: !Unread(posts, e.thread, rootOnly, post, s))
      && (f.resume == Unknown <==> !atEnd && forall s :: !Unread(posts, e.thread, rootOnly, post, s))
      && (f.resume.FirstUnread? ==>
            exists s :: Unread(posts, e.thread, rootOnly, post, s) && s.id == f.resume.post
              && forall t :: Unread(posts, e.thread, rootOnly, post, t) ==> !Before(t, s))
  {
    NextIsLeast(posts, e.thread, rootOnly, post);
    var r := NextCached(posts, e.thread, rootOnly, post);
    if r.Some? {
      assert Unread(posts, e.thread, rootOnly, post, r.value);
    }
  }

  // ---------------------------------------------------------------- conversations

  /** What the sidebar says of a channel. */
  datatype Channel = Channel(id: Id, direct: bool, unread: bool, mentioned: bool, muted: bool, activityAt: nat)

  function FindConversation(es: seq<Entry>, channel: Id): Option<Entry> {
    if es == [] then None
    else if es[0].kind == Conversation && es[0].channel == channel then Some(es[0])
    else FindConversation(es[1..], channel)
  }

  function Threads(es: seq<Entry>): seq<Entry> {
    if es == [] then []
    else if es[0].kind == Thread then [es[0]] + Threads(es[1..])
    else Threads(es[1..])
  }

  /** A mark is used up once it was read and nothing is unread any more. */
  function Settled(m: Marks, c: Channel): Marks {
    if (c.id, "") !in m.markers && !c.unread && !c.mentioned then m.(attention := m.attention - {(c.id, "")}) else m
  }

  predicate Shown(m: Marks, c: Channel) {
    (c.id, "") in m.attention || (c.direct && !c.muted && (c.unread || c.mentioned))
  }

  function ConversationEntry(prior: Option<Entry>, c: Channel, m: Marks): (e: Entry)
    ensures e.kind == Conversation && e.channel == c.id && e.thread == ""
  {
    var manual := (c.id, "") in m.attention;
    var e := if prior.Some? then prior.value else Blank(Conversation, c.id, "");
    var f := e.(kind := Conversation, channel := c.id, thread := "", unread := c.unread || manual,
                mentioned := c.mentioned, muted := if manual then false else c.muted, replies := 0, mentions := 0,
                synthetic := false, lastReplyAt := c.activityAt);
    if (c.id, "") in m.markers then f.(resume := FirstUnread(m.markers[(c.id, "")].id), boundary := NOWHERE) else f
  }

  /** Conversations are rebuilt from the sidebar; threads stay as they are. */
  function SyncAll(es: seq<Entry>, m: Marks, cs: seq<Channel>): (seq<Entry>, Marks) {
    if cs == [] then (Threads(es), m)
    else
      var (next, before) := SyncAll(es, m, cs[..|cs| - 1]);
      var c := cs[|cs| - 1];
      var after := Settled(before, c);
      (if Shown(after, c) then next + [ConversationEntry(FindConversation(es, c.id), c, after)] else next, after)
  }

  lemma {:induction false} ThreadsFind(es: seq<Entry>, id: Id)
    requires OneEach(es)
    ensures OneEach(Threads(es)) && FindThread(Threads(es), id) == FindThread(es, id)
    ensures FindConversation(Threads(es), id).None?
  {
    if es != [] {
      OneEachTail(es);
      ThreadsFind(es[1..], id);
      if es[0].kind == Thread {
        ThreadsFind(es[1..], es[0].thread);
        OneEachTail(Threads(es));
      }
    }
  }

  lemma {:induction false} SyncKeepsThreads(es: seq<Entry>, m: Marks, cs: seq<Channel>, id: Id)
    requires OneEach(es)
    ensures OneEach(SyncAll(es, m, cs).0) && FindThread(SyncAll(es, m, cs).0, id) == FindThread(es, id)
    ensures SyncAll(es, m, cs).1.markers == m.markers
  {
    if cs == [] {
      ThreadsFind(es, id);
    } else {
      SyncKeepsThreads(es, m, cs[..|cs| - 1], id);
      var (next, before) := SyncAll(es, m, cs[..|cs| - 1]);
      var c := cs[|cs| - 1];
      var e := ConversationEntry(FindConversation(es, c.id), c, Settled(before, c));
      AppendOneEach(next, e);
      FindAppend(next, e, id);
    }
  }

  lemma {:induction false} FindConversationAppend(es: seq<Entry>, e: Entry, id: Id)
    ensures FindConversation(es + [e], id) == if FindConversation(es, id).Some? then FindConversation(es, id)
      else if e.kind == Conversation && e.channel == id then Some(e) else None
  {
    if es != [] {
      assert (es + [e])[1..] == es[1..] + [e];
      FindConversationAppend(es[1..], e, id);
    }
  }

  /** A conversation that is still shown keeps its cursor, unless it is marked as unread. */
  lemma {:induction false} SyncKeepsCursor(es: seq<Entry>, m: Marks, cs: seq<Channel>, id: Id)
    requires OneEach(es) && (id, "") !in m.markers && FindConversation(SyncAll(es, m, cs).0, id).Some?
    ensures FindConversation(es, id).Some? ==>
      FindConversation(SyncAll(es, m, cs).0, id).value.boundary == FindConversation(es, id).value.boundary
      && FindConversation(SyncAll(es, m, cs).0, id).value.resume == FindConversation(es, id).value.resume
  {
    if cs == [] {
      ThreadsFind(es, id);
    } else {
      SyncKeepsThreads(es, m, cs[..|cs| - 1], id);
      var (next, before) := SyncAll(es, m, cs[..|cs| - 1]);
      var c := cs[|cs| - 1];
      FindConversationAppend(next, ConversationEntry(FindConversation(es, c.id), c, Settled(before, c)), id);
      if FindConversation(next, id).Some? {
        SyncKeepsCursor(es, m, cs[..|cs| - 1], id);
      }
    }
  }

  // ---------------------------------------------------------------- changes of single entries, and removals

  /** The first conversation entry of a channel replaced. */
  function PutConversation(es: seq<Entry>, e: Entry): seq<Entry> {
    if es == [] then []
    else if es[0].kind == Conversation && es[0].channel == e.channel then [e] + es[1..]
    else [es[0]] + PutConversation(es[1..], e)
  }

  lemma {:induction false} PutConversationFinds(es: seq<Entry>, e: Entry, id: Id)
    requires OneEach(es) && e.kind == Conversation
    ensures OneEach(PutConversation(es, e)) && FindThread(PutConversation(es, e), id) == FindThread(es, id)
    ensures FindConversation(PutConversation(es, e), id)
      == if id == e.channel && FindConversation(es, id).Some? then Some(e) else FindConversation(es, id)
  {
    if es != [] {
      OneEachTail(es);
      PutConversationFinds(es[1..], e, id);
      PutConversationFinds(es[1..], e, es[0].thread);
      OneEachTail(PutConversation(es, e));
    }
  }

  lemma {:induction false} PutThreadKeepsConversations(es: seq<Entry>, e: Entry, id: Id)
    requires e.kind == Thread
    ensures FindConversation(PutThread(es, e), id) == FindConversation(es, id)
  {
    if es != [] {
      PutThreadKeepsConversations(es[1..], e, id);
    }
  }

  datatype Removal = Unfollowed(thread: Id) | MentionSeen(channel: Id, post: Id) | MentionsOf(channel: Id)

  predicate Drops(r: Removal, e: Entry) {
    e.kind == Thread
    && match r
       case Unfollowed(thread) => e.thread == thread
       case MentionSeen(channel, post) => e.synthetic && e.channel == channel && e.thread == post
       case MentionsOf(channel) => e.synthetic && e.channel == channel
  }

  function Removed(es: seq<Entry>, r: Removal): seq<Entry> {
    if es == [] then []
    else if Drops(r, es[0]) then Removed(es[1..], r)
    else [es[0]] + Removed(es[1..], r)
  }

  lemma {:induction false} RemovedFinds(es: seq<Entry>, r: Removal, id: Id)
    requires OneEach(es)
    ensures OneEach(Removed(es, r))
    ensures FindThread(Removed(es, r), id)
      == if FindThread(es, id).Some? && !Drops(r, FindThread(es, id).value) then FindThread(es, id) else None
    ensures FindConversation(Removed(es, r), id) == FindConversation(es, id)
  {
    if es != [] {
      OneEachTail(es);
      RemovedFinds(es[1..], r, id);
      RemovedFinds(es[1..], r, es[0].thread);
      if !Drops(r, es[0]) {
        OneEachTail(Removed(es, r));
      }
    }
  }

  // ---------------------------------------------------------------- steps

  datatype Model = Model(entries: seq<Entry>, marks: Marks)

  datatype Action =
    | Sync(channels: seq<Channel>)
    | Snapshot(threads: seq<Summary>)
    | Observe(channel: Id, thread: Id, post: Stamp, posts: seq<Cached>, known: bool, rootOnly: bool, atEnd: bool)
    | ArriveIn(channel: Id, post: Stamp)
    | ArriveThread(thread: Id, post: Stamp)
    | MentionIn(channel: Id, post: Stamp, muted: bool)
    | MarkUnread(channel: Id, thread: Id, post: Stamp)
    | MarkRead(thread: Id)
    | ReadDone(channel: Id, thread: Id, success: bool)
    | ChannelViewed(channel: Id)
    | Remove(removal: Removal)

  function Entered(es: seq<Entry>, channel: Id, thread: Id): Entry {
    var found := FindThread(es, thread);
    if found.Some? then found.value else Blank(Thread, channel, thread)
  }

  predicate Consumed(m: Marks, key: Key, post: Stamp) {
    key in m.markers && (post.id == m.markers[key].id || Before(m.markers[key], post))
  }

  function Consume(m: Marks, key: Key, post: Stamp): Marks {
    if Consumed(m, key, post) then m.(markers := m.markers - {key}) else m
  }

  function ObserveIn(w: Model, a: Action): Model
    requires a.Observe?
  {
    var found := if a.thread == "" then FindConversation(w.entries, a.channel) else FindThread(w.entries, a.thread);
    if found.None? || a.post.id == "" || found.value.channel != a.channel then w
    else
      var marks := Consume(w.marks, (a.channel, a.thread), a.post);
      if !a.known || Refused(found.value, a.post) then w.(marks := marks)
      else
        var e := Observed(found.value, a.post, a.posts, a.rootOnly, a.atEnd);
        Model(if a.thread == "" then PutConversation(w.entries, e) else PutThread(w.entries, e), marks)
  }

  function MentionedEntry(e: Entry, post: Stamp, muted: bool): Entry {
    e.(synthetic := true, lastReplyAt := post.createAt, mentions := 1, mentioned := true, muted := muted)
  }

  function Next(w: Model, a: Action): Model {
    match a
    case Sync(cs) => var (es, m) := SyncAll(w.entries, w.marks, cs); Model(es, m)
    case Snapshot(ts) => w.(entries := Applied(w.entries, ts, w.marks))
    case Observe(_, _, _, _, _, _, _) => ObserveIn(w, a)
    case ArriveIn(channel, post) =>
      var found := FindConversation(w.entries, channel);
      if found.None? then w else w.(entries := PutConversation(w.entries, Arrived(found.value, post)))
    case ArriveThread(thread, post) =>
      var found := FindThread(w.entries, thread);
      if found.None? then w else w.(entries := PutThread(w.entries, Arrived(found.value, post)))
    case MentionIn(channel, post, muted) =>
      var found := FindThread(w.entries, post.id);
      if post.id == "" || (found.Some? && !found.value.synthetic) then w
      else w.(entries := PutThread(w.entries, MentionedEntry(Entered(w.entries, channel, post.id), post, muted)))
    case MarkUnread(channel, thread, post) =>
      if channel == "" || post.id == "" then w
      else
        var m := Marks(w.marks.markers[(channel, thread) := post], w.marks.attention + {(channel, thread)});
        if thread == "" then w.(marks := m)
        else Model(PutThread(w.entries, MarkedUnread(Entered(w.entries, channel, thread), post)), m)
    case MarkRead(thread) =>
      var found := FindThread(w.entries, thread);
      if thread == "" || found.None? then w else w.(entries := PutThread(w.entries, MarkedRead(found.value)))
    case ReadDone(channel, thread, success) =>
      if success then
        w.(marks := Marks(w.marks.markers - {(channel, thread)}, w.marks.attention - {(channel, thread)}))
      else
        var found := FindThread(w.entries, thread);
        if found.None? then w
        else w.(entries := PutThread(w.entries, found.value.(ackPending := false, ackAt := 0)))
    case ChannelViewed(channel) =>
      Model(Removed(w.entries, MentionsOf(channel)),
            Marks(w.marks.markers - {(channel, "")}, w.marks.attention - {(channel, "")}))
    case Remove(r) => w.(entries := Removed(w.entries, r))
  }

  // ---------------------------------------------------------------- invariants over runs

  lemma FoundKinds(es: seq<Entry>, id: Id)
    ensures FindThread(es, id).Some? ==> FindThread(es, id).value.kind == Thread && FindThread(es, id).value.thread == id
    ensures FindConversation(es, id).Some? ==>
      FindConversation(es, id).value.kind == Conversation && FindConversation(es, id).value.channel == id
  {
    FindIn(es, id);
    FoundConversation(es, id);
  }

  lemma {:induction false} FoundConversation(es: seq<Entry>, id: Id)
    ensures FindConversation(es, id).Some? ==>
      FindConversation(es, id).value.kind == Conversation && FindConversation(es, id).value.channel == id
  {
    if es != [] {
      FoundConversation(es[1..], id);
    }
  }

  lemma ObserveUnique(w: Model, a: Action, v: Model)
    requires OneEach(w.entries) && a.Observe? && v == ObserveIn(w, a)
    ensures OneEach(v.entries)
  {
    FoundKinds(w.entries, a.channel);
    FoundKinds(w.entries, a.thread);
    if a.thread == "" && FindConversation(w.entries, a.channel).Some? {
      var e := FindConversation(w.entries, a.channel).value;
      PutConversationFinds(w.entries, Observed(e, a.post, a.posts, a.rootOnly, a.atEnd), "");
    }
    if a.thread != "" && FindThread(w.entries, a.thread).Some? {
      var e := FindThread(w.entries, a.thread).value;
      PutOneEach(w.entries, Observed(e, a.post, a.posts, a.rootOnly, a.atEnd));
    }
  }

  lemma ThreadStepUnique(w: Model, a: Action, v: Model)
    requires OneEach(w.entries) && (a.ArriveThread? || a.MentionIn? || a.MarkUnread? || a.MarkRead? || a.ReadDone?)
    requires v == Next(w, a)
    ensures OneEach(v.entries)
  {
    var id := if a.MentionIn? then a.post.id else a.thread;
    FoundKinds(w.entries, id);
    var found := FindThread(w.entries, id);
    if a.MentionIn? {
      PutOneEach(w.entries, MentionedEntry(Entered(w.entries, a.channel, a.post.id), a.post, a.muted));
    } else if a.MarkUnread? {
      PutOneEach(w.entries, MarkedUnread(Entered(w.entries, a.channel, a.thread), a.post));
    } else if found.Some? {
      PutOneEach(w.entries, if a.ArriveThread? then Arrived(found.value, a.post)
                            else if a.MarkRead? then MarkedRead(found.value)
                            else found.value.(ackPending := false, ackAt := 0));
    }
  }

  /** No thread ever has two entries. */
  lemma NextUnique(w: Model, a: Action, v: Model)
    requires OneEach(w.entries) && v == Next(w, a)
    ensures OneEach(v.entries)
  {
    match a
    case Sync(cs) => SyncKeepsThreads(w.entries, w.marks, cs, "");
    case Snapshot(ts) => SnapshotResult(w.entries, ts, w.marks, "");
    case Observe(_, _, _, _, _, _, _) => ObserveUnique(w, a, v);
    case ArriveIn(channel, post) =>
      FoundKinds(w.entries, channel);
      if FindConversation(w.entries, channel).Some? {
        PutConversationFinds(w.entries, Arrived(FindConversation(w.entries, channel).value, post), "");
      }
    case ChannelViewed(channel) => RemovedFinds(w.entries, MentionsOf(channel), "");
    case Remove(r) => RemovedFinds(w.entries, r, "");
    case _ => ThreadStepUnique(w, a, v);
  }

  function Run(w: Model, acts: seq<Action>): Model {
    if acts == [] then w else Next(Run(w, acts[..|acts| - 1]), acts[|acts| - 1])
  }

  lemma {:induction false} RunUnique(w: Model, acts: seq<Action>)
    requires OneEach(w.entries)
    ensures OneEach(Run(w, acts).entries)
  {
    if acts != [] {
      RunUnique(w, acts[..|acts| - 1]);
      NextUnique(Run(w, acts[..|acts| - 1]), acts[|acts| - 1], Run(w, acts));
    }
  }

  /** The boundary is where it was, or on the post of an observation of this entry that was not refused. */
  predicate OnlyObserved(a: Action, e: Entry, f: Entry) {
    f.boundary == e.boundary
    || (a.Observe? && a.thread == (if e.kind == Thread then e.thread else "") && a.post.id != ""
        && !Refused(e, a.post) && f.boundary == a.post)
  }

  /** Observing a conversation leaves every thread as it is. */
  lemma ObserveNoThread(w: Model, a: Action, v: Model, id: Id)
    requires OneEach(w.entries) && a.Observe? && a.thread == "" && v == ObserveIn(w, a)
    ensures FindThread(v.entries, id) == FindThread(w.entries, id)
  {
    FoundKinds(w.entries, a.channel);
    var found := FindConversation(w.entries, a.channel);
    if found.Some? {
      PutConversationFinds(w.entries, Observed(found.value, a.post, a.posts, a.rootOnly, a.atEnd), id);
    }
  }

  lemma ObserveThread(w: Model, a: Action, v: Model, e: Entry)
    requires OneEach(w.entries) && a.Observe? && a.thread != "" && v == ObserveIn(w, a)
    requires FindThread(w.entries, e.thread) == Some(e)
    ensures FindThread(v.entries, e.thread).Some? && OnlyObserved(a, e, FindThread(v.entries, e.thread).value)
  {
    FoundKinds(w.entries, e.thread);
    FoundKinds(w.entries, a.thread);
    var found := FindThread(w.entries, a.thread);
    if found.Some? {
      FindPut(w.entries, Observed(found.value, a.post, a.posts, a.rootOnly, a.atEnd), e.thread);
    }
  }

  lemma PutBoundary(es: seq<Entry>, f: Entry, e: Entry)
    requires f.kind == Thread && FindThread(es, e.thread) == Some(e) && (f.thread == e.thread ==> f.boundary == e.boundary)
    ensures FindThread(PutThread(es, f), e.thread).Some?
    ensures FindThread(PutThread(es, f), e.thread).value.boundary == e.boundary
  {
    FindPut(es, f, e.thread);
  }

  lemma ThreadStepBoundary(w: Model, a: Action, v: Model, e: Entry)
    requires OneEach(w.entries) && (a.ArriveThread? || a.MentionIn? || a.MarkUnread? || a.MarkRead? || a.ReadDone?)
    requires v == Next(w, a) && FindThread(w.entries, e.thread) == Some(e) && !(a.MarkUnread? && a.thread == e.thread)
    ensures FindThread(v.entries, e.thread).Some? && FindThread(v.entries, e.thread).value.boundary == e.boundary
  {
    var id := if a.MentionIn? then a.post.id else a.thread;
    FoundKinds(w.entries, id);
    var found := FindThread(w.entries, id);
    if a.MentionIn? {
      PutBoundary(w.entries, MentionedEntry(Entered(w.entries, a.channel, a.post.id), a.post, a.muted), e);
    } else if a.MarkUnread? {
      PutBoundary(w.entries, MarkedUnread(Entered(w.entries, a.channel, a.thread), a.post), e);
    } else if found.Some? {
      PutBoundary(w.entries, if a.ArriveThread? then Arrived(found.value, a.post)
                             else if a.MarkRead? then MarkedRead(found.value)
                             else found.value.(ackPending := false, ackAt := 0), e);
    }
  }

  /**
   * While a thread's entry lives, only observations change its read boundary - or marking it as unread: at once, or
   * when a snapshot applies a mark that is still there.
   */
  lemma ThreadOnlyObserved(w: Model, a: Action, v: Model, e: Entry)
    requires OneEach(w.entries) && v == Next(w, a) && e.thread != "" && FindThread(w.entries, e.thread) == Some(e)
    requires !(a.MarkUnread? && a.thread == e.thread) && forall c :: (c, e.thread) !in w.marks.markers
    requires FindThread(v.entries, e.thread).Some?
    ensures OnlyObserved(a, e, FindThread(v.entries, e.thread).value)
  {
    match a
    case Sync(cs) => SyncKeepsThreads(w.entries, w.marks, cs, e.thread);
    case Snapshot(ts) => CursorSurvives(w.entries, ts, w.marks, e);
    case Observe(_, thread, _, _, _, _, _) =>
      if thread == "" {
        ObserveNoThread(w, a, v, e.thread);
      } else {
        ObserveThread(w, a, v, e);
      }
    case ArriveIn(channel, post) =>
      FoundKinds(w.entries, channel);
      if FindConversation(w.entries, channel).Some? {
        PutConversationFinds(w.entries, Arrived(FindConversation(w.entries, channel).value, post), e.thread);
      }
    case ChannelViewed(channel) => RemovedFinds(w.entries, MentionsOf(channel), e.thread);
    case Remove(r) => RemovedFinds(w.entries, r, e.thread);
    case _ => ThreadStepBoundary(w, a, v, e);
  }

  // ---------------------------------------------------------------- conversations, and whole runs

  lemma {:induction false} ConversationsKeep(es: seq<Entry>, id: Id)
    ensures FindConversation(Conversations(es), id) == FindConversation(es, id)
  {
    if es != [] {
      ConversationsKeep(es[1..], id);
    }
  }

  lemma {:induction false} MergeKeepsConversation(next: seq<Entry>, ts: seq<Summary>, es: seq<Entry>, m: Marks, id: Id)
    ensures FindConversation(MergeAll(next, ts, es, m), id) == FindConversation(next, id)
  {
    if ts != [] {
      MergeKeepsConversation(next, ts[..|ts| - 1], es, m, id);
      var t := ts[|ts| - 1];
      PutThreadKeepsConversations(MergeAll(next, ts[..|ts| - 1], es, m), FromSummary(FindThread(es, t.id), t, m), id);
    }
  }

  lemma {:induction false} RetainKeepsConversation(next: seq<Entry>, es: seq<Entry>, m: Marks, manual: bool, id: Id)
    ensures FindConversation(Retain(next, es, m, manual), id) == FindConversation(next, id)
  {
    if es != [] {
      RetainKeepsConversation(next, es[..|es| - 1], m, manual, id);
      FindConversationAppend(Retain(next, es[..|es| - 1], m, manual), es[|es| - 1], id);
    }
  }

  lemma ThreadStepConversation(w: Model, a: Action, v: Model, id: Id)
    requires (a.ArriveThread? || a.MentionIn? || a.MarkUnread? || a.MarkRead? || a.ReadDone?) && v == Next(w, a)
    ensures FindConversation(v.entries, id) == FindConversation(w.entries, id)
  {
    FoundKinds(w.entries, if a.MentionIn? then a.post.id else a.thread);
    forall f: Entry | f.kind == Thread
      ensures FindConversation(PutThread(w.entries, f), id) == FindConversation(w.entries, id)
    {
      PutThreadKeepsConversations(w.entries, f, id);
    }
  }

  /** Observing a thread leaves every conversation as it is. */
  lemma ObserveOtherKind(w: Model, a: Action, v: Model, id: Id)
    requires a.Observe? && a.thread != "" && v == ObserveIn(w, a)
    ensures FindConversation(v.entries, id) == FindConversation(w.entries, id)
  {
    FoundKinds(w.entries, a.thread);
    if FindThread(w.entries, a.thread).Some? {
      PutThreadKeepsConversations(
        w.entries, Observed(FindThread(w.entries, a.thread).value, a.post, a.posts, a.rootOnly, a.atEnd), id);
    }
  }

  lemma ObserveConversation(w: Model, a: Action, v: Model, e: Entry)
    requires OneEach(w.entries) && a.Observe? && a.thread == "" && v == ObserveIn(w, a)
    requires FindConversation(w.entries, e.channel) == Some(e)
    ensures FindConversation(v.entries, e.channel).Some?
    ensures OnlyObserved(a, e, FindConversation(v.entries, e.channel).value)
  {
    FoundKinds(w.entries, e.channel);
    FoundKinds(w.entries, a.channel);
    var found := FindConversation(w.entries, a.channel);
    if found.Some? {
      PutConversationFinds(w.entries, Observed(found.value, a.post, a.posts, a.rootOnly, a.atEnd), e.channel);
    }
  }

  /** The same for a conversation's entry, as long as it lives. */
  lemma ConversationOnlyObserved(w: Model, a: Action, v: Model, e: Entry)
    requires OneEach(w.entries) && v == Next(w, a) && FindConversation(w.entries, e.channel) == Some(e)
    requires (e.channel, "") !in w.marks.markers && FindConversation(v.entries, e.channel).Some?
    ensures OnlyObserved(a, e, FindConversation(v.entries, e.channel).value)
  {
    match a
    case Sync(cs) => SyncKeepsCursor(w.entries, w.marks, cs, e.channel);
    case Snapshot(ts) =>
      var merged := MergeAll(Conversations(w.entries), ts, w.entries, w.marks);
      ConversationsKeep(w.entries, e.channel);
      MergeKeepsConversation(Conversations(w.entries), ts, w.entries, w.marks, e.channel);
      RetainKeepsConversation(merged, w.entries, w.marks, true, e.channel);
      RetainKeepsConversation(Retain(merged, w.entries, w.marks, true), w.entries, w.marks, false, e.channel);
    case Observe(_, thread, _, _, _, _, _) =>
      if thread == "" {
        ObserveConversation(w, a, v, e);
      } else {
        ObserveOtherKind(w, a, v, e.channel);
      }
    case ArriveIn(channel, post) =>
      FoundKinds(w.entries, channel);
      if FindConversation(w.entries, channel).Some? {
        PutConversationFinds(w.entries, Arrived(FindConversation(w.entries, channel).value, post), e.channel);
      }
    case ChannelViewed(channel) => RemovedFinds(w.entries, MentionsOf(channel), e.channel);
    case Remove(r) => RemovedFinds(w.entries, r, e.channel);
    case _ => ThreadStepConversation(w, a, v, e.channel);
  }

  // ---------------------------------------------------------------- whole runs

  /** The entry of a thread, or of a channel's conversation. */
  function FindEntry(es: seq<Entry>, channel: Id, thread: Id): Option<Entry> {
    if thread == "" then FindConversation(es, channel) else FindThread(es, thread)
  }

  /** The step does not mark the entry as unread, and no mark on it is left. */
  ghost predicate Undisturbed(w: Model, a: Action, channel: Id, thread: Id) {
    if thread == "" then (channel, "") !in w.marks.markers
    else !(a.MarkUnread? && a.thread == thread) && forall c :: (c, thread) !in w.marks.markers
  }

  /** The observation reports the boundary's own post, earlier than the boundary has it. */
  predicate Redated(a: Action, e: Entry) {
    a.Observe? && (e.boundary.id == a.post.id || e.boundary.id == "") && a.post.createAt < e.boundary.createAt
  }

  lemma EntryKind(es: seq<Entry>, channel: Id, thread: Id)
    requires OneEach(es) && FindEntry(es, channel, thread).Some?
    ensures var e := FindEntry(es, channel, thread).value;
      if thread != "" then e.thread == thread else e.channel == channel
  {
    FoundKinds(es, channel);
    FoundKinds(es, thread);
  }

  /** While an entry lives, only an observation that was not refused changes its read boundary. */
  lemma StepOnlyObserved(w: Model, a: Action, v: Model, channel: Id, thread: Id)
    requires OneEach(w.entries) && v == Next(w, a) && Undisturbed(w, a, channel, thread)
    requires FindEntry(w.entries, channel, thread).Some? && FindEntry(v.entries, channel, thread).Some?
    ensures OnlyObserved(a, FindEntry(w.entries, channel, thread).value, FindEntry(v.entries, channel, thread).value)
  {
    EntryKind(w.entries, channel, thread);
    var e := FindEntry(w.entries, channel, thread).value;
    if thread == "" {
      ConversationOnlyObserved(w, a, v, e);
    } else {
      ThreadOnlyObserved(w, a, v, e);
    }
  }

  /** Such an observation does not move the boundary back, unless it reports the same post earlier. */
  lemma ObservedForward(a: Action, e: Entry, f: Entry)
    requires OnlyObserved(a, e, f) && !Redated(a, e)
    ensures NotBack(e, f)
  {
    StrictTotalOrder(e.boundary, e.boundary, e.boundary);
    if f.boundary != e.boundary {
      ObservedMovesBackExactly(e, a.post, a.posts, a.rootOnly, a.atEnd);
    }
  }

  /** The entry lives through the run, and nothing marks it as unread. */
  ghost predicate Lives(w: Model, acts: seq<Action>, channel: Id, thread: Id) {
    && (forall i :: 0 <= i <= |acts| ==> FindEntry(Run(w, acts[..i]).entries, channel, thread).Some?)
    && (forall i :: 0 <= i < |acts| ==> Undisturbed(Run(w, acts[..i]), acts[i], channel, thread))
  }

  lemma LivesThrough(w: Model, acts: seq<Action>, channel: Id, thread: Id, n: nat)
    requires Lives(w, acts, channel, thread) && n <= |acts|
    ensures Lives(w, acts[..n], channel, thread)
    ensures FindEntry(Run(w, acts[..n]).entries, channel, thread).Some?
  {
    forall i | 0 <= i <= n ensures acts[..n][..i] == acts[..i] {
    }
  }

  /** The last step of a run. */
  lemma LastOnlyObserved(w: Model, acts: seq<Action>, channel: Id, thread: Id)
    requires OneEach(w.entries) && Lives(w, acts, channel, thread) && acts != []
    ensures var (m, v) := (Run(w, acts[..|acts| - 1]).entries, Run(w, acts).entries);
      && FindEntry(m, channel, thread).Some? && FindEntry(v, channel, thread).Some?
      && OnlyObserved(acts[|acts| - 1], FindEntry(m, channel, thread).value, FindEntry(v, channel, thread).value)
  {
    var n := |acts| - 1;
    assert acts[..|acts|] == acts;
    LivesThrough(w, acts, channel, thread, n);
    LivesThrough(w, acts, channel, thread, n + 1);
    RunUnique(w, acts[..n]);
    StepOnlyObserved(Run(w, acts[..n]), acts[n], Run(w, acts), channel, thread);
  }

  /** Step i of the run reports the boundary's own post earlier. */
  predicate RedatedAt(w: Model, acts: seq<Action>, channel: Id, thread: Id, i: nat)
    requires i < |acts|
  {
    var found := FindEntry(Run(w, acts[..i]).entries, channel, thread);
    found.Some? && Redated(acts[i], found.value)
  }

  ghost predicate NeverRedated(w: Model, acts: seq<Action>, channel: Id, thread: Id) {
    forall i :: 0 <= i < |acts| ==> !RedatedAt(w, acts, channel, thread, i)
  }

  lemma RedatedInFront(w: Model, acts: seq<Action>, channel: Id, thread: Id, n: nat, i: nat)
    requires i < n <= |acts|
    ensures RedatedAt(w, acts[..n], channel, thread, i) == RedatedAt(w, acts, channel, thread, i)
  {
    assert acts[..n][..i] == acts[..i];
  }

  lemma NeverRedatedFront(w: Model, acts: seq<Action>, channel: Id, thread: Id, n: nat)
    requires NeverRedated(w, acts, channel, thread) && n <= |acts|
    ensures NeverRedated(w, acts[..n], channel, thread)
  {
    forall i | 0 <= i < n ensures !RedatedAt(w, acts[..n], channel, thread, i) {
      RedatedInFront(w, acts, channel, thread, n, i);
    }
  }

  lemma NotBackTwice(e: Entry, f: Entry, g: Entry)
    requires NotBack(e, f) && NotBack(f, g)
    ensures NotBack(e, g)
  {
    StrictTotalOrder(e.boundary, f.boundary, g.boundary);
    StrictTotalOrder(g.boundary, e.boundary, f.boundary);
  }

  lemma LivesAtEnds(w: Model, acts: seq<Action>, channel: Id, thread: Id)
    requires Lives(w, acts, channel, thread)
    ensures FindEntry(w.entries, channel, thread).Some? && FindEntry(Run(w, acts).entries, channel, thread).Some?
  {
    assert acts[..0] == [] && acts[..|acts|] == acts;
  }

  lemma LastForward(w: Model, acts: seq<Action>, channel: Id, thread: Id)
    requires OneEach(w.entries) && Lives(w, acts, channel, thread) && acts != []
    requires !RedatedAt(w, acts, channel, thread, |acts| - 1)
    ensures var (m, v) := (Run(w, acts[..|acts| - 1]).entries, Run(w, acts).entries);
      && FindEntry(m, channel, thread).Some? && FindEntry(v, channel, thread).Some?
      && NotBack(FindEntry(m, channel, thread).value, FindEntry(v, channel, thread).value)
  {
    LastOnlyObserved(w, acts, channel, thread);
    ObservedForward(acts[|acts| - 1], FindEntry(Run(w, acts[..|acts| - 1]).entries, channel, thread).value,
                    FindEntry(Run(w, acts).entries, channel, thread).value);
  }

  /**
   * Over any run in which the entry of a thread or of a conversation lives, is not marked as unread, and its boundary
   * post is never reported with an earlier creation time, its read boundary does not move back.
   */
  lemma {:induction false} BoundaryAdvancesOverRuns(w: Model, acts: seq<Action>, channel: Id, thread: Id)
    requires OneEach(w.entries) && Lives(w, acts, channel, thread) && NeverRedated(w, acts, channel, thread)
    ensures FindEntry(w.entries, channel, thread).Some? && FindEntry(Run(w, acts).entries, channel, thread).Some?
    ensures NotBack(FindEntry(w.entries, channel, thread).value, FindEntry(Run(w, acts).entries, channel, thread).value)
  {
    LivesAtEnds(w, acts, channel, thread);
    var e := FindEntry(w.entries, channel, thread).value;
    if acts == [] {
      StrictTotalOrder(e.boundary, e.boundary, e.boundary);
    } else {
      var n := |acts| - 1;
      LivesThrough(w, acts, channel, thread, n);
      NeverRedatedFront(w, acts, channel, thread, n);
      BoundaryAdvancesOverRuns(w, acts[..n], channel, thread);
      LastForward(w, acts, channel, thread);
      NotBackTwice(e, FindEntry(Run(w, acts[..n]).entries, channel, thread).value,
                   FindEntry(Run(w, acts).entries, channel, thread).value);
    }
  }

  // ---------------------------------------------------------------- creation times that never change

  /** Every post has one creation time. */
  predicate Dated(s: Stamp, created: map<Id, nat>) {
    s == NOWHERE || (s.id in created && s.createAt == created[s.id])
  }

  predicate AllDated(acts: seq<Action>, created: map<Id, nat>) {
    forall i :: 0 <= i < |acts| && acts[i].Observe? ==> Dated(acts[i].post, created)
  }

  lemma {:induction false} BoundaryStaysDated(w: Model, acts: seq<Action>, channel: Id, thread: Id, created: map<Id, nat>)
    requires OneEach(w.entries) && Lives(w, acts, channel, thread) && AllDated(acts, created)
    requires FindEntry(w.entries, channel, thread).Some?
    requires Dated(FindEntry(w.entries, channel, thread).value.boundary, created)
    ensures FindEntry(Run(w, acts).entries, channel, thread).Some?
    ensures Dated(FindEntry(Run(w, acts).entries, channel, thread).value.boundary, created)
  {
    if acts != [] {
      var front := acts[..|acts| - 1];
      LivesThrough(w, acts, channel, thread, |front|);
      BoundaryStaysDated(w, front, channel, thread, created);
      LastOnlyObserved(w, acts, channel, thread);
    }
  }

  /** If creation times never change, then nothing but marking it as unread moves a boundary back. */
  lemma FixedTimesNeverMoveBack(w: Model, acts: seq<Action>, channel: Id, thread: Id, created: map<Id, nat>)
    requires OneEach(w.entries) && Lives(w, acts, channel, thread) && AllDated(acts, created) && "" !in created
    requires FindEntry(w.entries, channel, thread).Some?
    requires Dated(FindEntry(w.entries, channel, thread).value.boundary, created)
    ensures FindEntry(Run(w, acts).entries, channel, thread).Some?
    ensures NotBack(FindEntry(w.entries, channel, thread).value, FindEntry(Run(w, acts).entries, channel, thread).value)
  {
    forall i | 0 <= i < |acts| ensures !RedatedAt(w, acts, channel, thread, i) {
      LivesThrough(w, acts, channel, thread, i);
      BoundaryStaysDated(w, acts[..i], channel, thread, created);
    }
    BoundaryAdvancesOverRuns(w, acts, channel, thread);
  }
}
