/** What followed threads and unread conversations show is what the server counts and the user marked. */
module FollowingContent {
  import opened Prelude
  import opened PostOrder
  import opened Following
  import opened FollowingRuns

  // ---------------------------------------------------------------- a listed thread

  /** Listing n is the last usable one of its thread. */
  predicate LastListing(ts: seq<Summary>, n: nat) {
    n < |ts| && ts[n].id != "" && ts[n].channel != ""
    && forall m :: n < m < |ts| && ts[m].channel != "" ==> ts[m].id != ts[n].id
  }

  lemma {:induction false} LastIsListing(ts: seq<Summary>, n: nat)
    requires LastListing(ts, n)
    ensures Following.Listing(ts, ts[n].id) == Some(ts[n])
  {
    if n < |ts| - 1 {
      var front := ts[..|ts| - 1];
      assert forall m :: 0 <= m < |front| ==> front[m] == ts[m];
      LastIsListing(front, n);
    }
  }

  /** What a listed thread shows, said of the listing and of what was there before. */
  predicate ShowsListed(prior: Option<Entry>, t: Summary, m: Marks, e: Entry) {
    var key := (t.channel, t.id);
    var replies := if key in m.attention && t.replies < 1 then 1 else t.replies;
    var pending := prior.Some? && prior.value.ackPending;
    var hidden := pending && (replies > 0 || t.mentions > 0) && t.lastReplyAt <= prior.value.ackAt;
    && e.kind == Thread && e.thread == t.id && e.channel == t.channel
    && e.lastReplyAt == t.lastReplyAt && e.muted == t.muted && !e.synthetic
    && e.replies == (if hidden then 0 else replies) && e.mentions == (if hidden then 0 else t.mentions)
    && (e.mentioned <==> !hidden && t.mentions > 0)
    && e.ackPending == hidden && (hidden ==> e.ackAt == prior.value.ackAt) && (pending && !hidden ==> e.ackAt == 0)
    && (if key in m.attention && key in m.markers
        then e.resume == FirstUnread(m.markers[key].id) && e.boundary == Stamp(0, "")
        else if prior.Some? then e.resume == prior.value.resume && e.boundary == prior.value.boundary
        else e.resume == Unknown && e.boundary == Stamp(0, ""))
  }

  /**
   * A listed thread shows the server's counts, raised to at least one reply where the user marked it as unread - unless
   * they are hidden: a read is unacknowledged, and the listing is no newer than it.
   */
  lemma ListedShows(es: seq<Entry>, ts: seq<Summary>, m: Marks, n: nat)
    requires OneEach(es) && LastListing(ts, n)
    ensures var found := FindThread(Next(Model(es, m), Snapshot(ts)).entries, ts[n].id);
      found.Some? && ShowsListed(FindThread(es, ts[n].id), ts[n], m, found.value)
  {
    LastIsListing(ts, n);
    SnapshotResult(es, ts, m, ts[n].id);
    SummaryShows(FindThread(es, ts[n].id), ts[n], m);
  }

  lemma SummaryShows(prior: Option<Entry>, t: Summary, m: Marks)
    ensures ShowsListed(prior, t, m, FromSummary(prior, t, m))
  {
  }

  // ---------------------------------------------------------------- reading and marking

  /** Nothing else is touched: no other thread, and no conversation. */
  ghost predicate OnlyThread(es: seq<Entry>, fs: seq<Entry>, id: Id) {
    && (forall x :: x != id ==> FindThread(fs, x) == FindThread(es, x))
    && forall c :: FindConversation(fs, c) == FindConversation(es, c)
  }

  lemma PutOnly(es: seq<Entry>, e: Entry)
    requires e.kind == Thread
    ensures FindThread(PutThread(es, e), e.thread) == Some(e) && OnlyThread(es, PutThread(es, e), e.thread)
  {
    FindPut(es, e, e.thread);
    forall x | x != e.thread ensures FindThread(PutThread(es, e), x) == FindThread(es, x) {
      FindPut(es, e, x);
    }
    forall c ensures FindConversation(PutThread(es, e), c) == FindConversation(es, c) {
      PutThreadKeepsConversations(es, e, c);
    }
  }

  /** Reading a thread clears its counts at once, and notes up to when it was read, until the server has heard of it. */
  lemma ReadClears(w: Model, thread: Id, v: Model)
    requires thread != "" && FindThread(w.entries, thread).Some? && v == Next(w, MarkRead(thread))
    ensures OnlyThread(w.entries, v.entries, thread) && v.marks == w.marks && FindThread(v.entries, thread).Some?
    ensures var (e, f) := (FindThread(w.entries, thread).value, FindThread(v.entries, thread).value);
      && f.replies == 0 && f.mentions == 0 && !f.mentioned && f.ackPending
      && f.ackAt == (if e.boundary.createAt != 0 then e.boundary.createAt else e.lastReplyAt)
      && f.channel == e.channel && f.lastReplyAt == e.lastReplyAt && f.resume == e.resume && f.boundary == e.boundary
      && f.synthetic == e.synthetic && f.muted == e.muted
  {
    FoundKinds(w.entries, thread);
    PutOnly(w.entries, MarkedRead(FindThread(w.entries, thread).value));
  }

  /** The server's answer ends the wait: a success takes the marks with it, a failure gives the thread back to snapshots. */
  lemma ReadAnswered(w: Model, channel: Id, thread: Id, success: bool, v: Model)
    requires v == Next(w, ReadDone(channel, thread, success))
    ensures success ==> v.entries == w.entries && v.marks.markers == w.marks.markers - {(channel, thread)}
                        && v.marks.attention == w.marks.attention - {(channel, thread)}
    ensures !success ==> v.marks == w.marks && OnlyThread(w.entries, v.entries, thread)
    ensures !success && FindThread(w.entries, thread).Some? ==>
      FindThread(v.entries, thread) == Some(FindThread(w.entries, thread).value.(ackPending := false, ackAt := 0))
  {
    FoundKinds(w.entries, thread);
    if FindThread(w.entries, thread).Some? {
      PutOnly(w.entries, FindThread(w.entries, thread).value.(ackPending := false, ackAt := 0));
    }
  }

  /** Marking a thread as unread shows it as unread from that post on, whatever the server says until then. */
  lemma MarkShows(w: Model, channel: Id, thread: Id, post: Stamp, v: Model)
    requires channel != "" && thread != "" && post.id != "" && v == Next(w, MarkUnread(channel, thread, post))
    ensures v.marks.markers == w.marks.markers[(channel, thread) := post]
    ensures v.marks.attention == w.marks.attention + {(channel, thread)}
    ensures OnlyThread(w.entries, v.entries, thread) && FindThread(v.entries, thread).Some?
    ensures var (found, f) := (FindThread(w.entries, thread), FindThread(v.entries, thread).value);
      && f.replies >= 1 && (found.Some? && found.value.replies >= 1 ==> f.replies == found.value.replies)
      && f.resume == FirstUnread(post.id) && f.boundary == Stamp(0, "") && !f.ackPending && f.ackAt == 0 && !f.muted
      && f.lastReplyAt >= post.createAt && f.channel == (if found.Some? then found.value.channel else channel)
  {
    FoundKinds(w.entries, thread);
    PutOnly(w.entries, MarkedUnread(Entered(w.entries, channel, thread), post));
  }

  /** Marking a conversation records the mark; its entry follows from it when conversations are next rebuilt. */
  lemma ConversationMark(w: Model, channel: Id, post: Stamp, v: Model)
    requires channel != "" && post.id != "" && v == Next(w, MarkUnread(channel, "", post))
    ensures v.marks.markers == w.marks.markers[(channel, "") := post]
    ensures v.marks.attention == w.marks.attention + {(channel, "")} && v.entries == w.entries
  {
  }

  /** A mention in a root post shows as a mention of its own, unless the server lists that thread already. */
  lemma MentionShows(w: Model, channel: Id, post: Stamp, muted: bool, v: Model)
    requires post.id != "" && v == Next(w, MentionIn(channel, post, muted))
    ensures OnlyThread(w.entries, v.entries, post.id) && v.marks == w.marks && FindThread(v.entries, post.id).Some?
    ensures var (found, f) := (FindThread(w.entries, post.id), FindThread(v.entries, post.id).value);
      if found.Some? && !found.value.synthetic then f == found.value
      else f.synthetic && f.mentions == 1 && f.mentioned && f.lastReplyAt == post.createAt && f.muted == muted
           && f.channel == (if found.Some? then found.value.channel else channel)
  {
    FoundKinds(w.entries, post.id);
    PutOnly(w.entries, MentionedEntry(Entered(w.entries, channel, post.id), post, muted));
  }

  /** An observation that is not refused moves the boundary of its thread to the post, and consumes a mark it reaches. */
  lemma ObservationMoves(w: Model, a: Action, v: Model)
    requires a.Observe? && a.thread != "" && a.post.id != "" && a.known && v == Next(w, a)
    requires FindThread(w.entries, a.thread).Some? && FindThread(w.entries, a.thread).value.channel == a.channel
    ensures FindThread(v.entries, a.thread).Some? && OnlyThread(w.entries, v.entries, a.thread)
    ensures var (e, f) := (FindThread(w.entries, a.thread).value, FindThread(v.entries, a.thread).value);
      var refused := e.boundary.id != "" && e.boundary.id != a.post.id && !Before(e.boundary, a.post);
      if refused then f == e else f == e.(boundary := a.post, resume := f.resume)
    ensures var key := (a.channel, a.thread);
      var reached := key in w.marks.markers
        && (a.post.id == w.marks.markers[key].id || Before(w.marks.markers[key], a.post));
      v.marks == if reached then w.marks.(markers := w.marks.markers - {key}) else w.marks
  {
    FoundKinds(w.entries, a.thread);
    PutOnly(w.entries, Observed(FindThread(w.entries, a.thread).value, a.post, a.posts, a.rootOnly, a.atEnd));
  }

  /** A post that arrives behind the boundary of a thread read to its end is where to resume. */
  lemma ArrivalResumes(w: Model, thread: Id, post: Stamp, v: Model)
    requires FindThread(w.entries, thread).Some? && v == Next(w, ArriveThread(thread, post))
    ensures OnlyThread(w.entries, v.entries, thread)
    ensures var e := FindThread(w.entries, thread).value;
      FindThread(v.entries, thread)
        == Some(if e.resume == AtEnd && (e.boundary.id == "" || Before(e.boundary, post))
                then e.(resume := FirstUnread(post.id)) else e)
  {
    FoundKinds(w.entries, thread);
    PutOnly(w.entries, Arrived(FindThread(w.entries, thread).value, post));
  }

  /** What a view of a channel, a mention that was seen, or an unfollowed thread takes away. */
  predicate TakenAway(a: Action, e: Entry) {
    match a
    case ChannelViewed(channel) => e.synthetic && e.channel == channel
    case Remove(MentionsOf(channel)) => e.synthetic && e.channel == channel
    case Remove(MentionSeen(channel, post)) => e.synthetic && e.channel == channel && e.thread == post
    case Remove(Unfollowed(thread)) => e.thread == thread
    case _ => false
  }

  /** Exactly that goes; every other thread and every conversation stays, and a view takes its channel's mark along. */
  lemma TakenAwayExactly(w: Model, a: Action, v: Model, id: Id)
    requires OneEach(w.entries) && (a.ChannelViewed? || a.Remove?) && v == Next(w, a)
    ensures var found := FindThread(w.entries, id);
      FindThread(v.entries, id) == if found.Some? && TakenAway(a, found.value) then None else found
    ensures FindConversation(v.entries, id) == FindConversation(w.entries, id)
    ensures a.Remove? ==> v.marks == w.marks
    ensures a.ChannelViewed? ==> v.marks.markers == w.marks.markers - {(a.channel, "")}
                                 && v.marks.attention == w.marks.attention - {(a.channel, "")}
  {
    RemovedFinds(w.entries, if a.Remove? then a.removal else MentionsOf(a.channel), id);
    FoundKinds(w.entries, id);
  }

  // ---------------------------------------------------------------- conversations

  /** Does the user's mark still hold: not yet read past, or the channel is unread anyhow? */
  predicate StillMarked(m: Marks, c: Channel) {
    (c.id, "") in m.attention && ((c.id, "") in m.markers || c.unread || c.mentioned)
  }

  /** Marked channels are shown; direct ones also when they are unread and not muted. */
  predicate IsShown(m: Marks, c: Channel) {
    StillMarked(m, c) || (c.direct && !c.muted && (c.unread || c.mentioned))
  }

  /** What a shown conversation says. */
  predicate ShowsChannel(prior: Option<Entry>, c: Channel, m: Marks, e: Entry) {
    && e.kind == Conversation && e.channel == c.id && e.lastReplyAt == c.activityAt && e.mentioned == c.mentioned
    && (e.unread <==> c.unread || StillMarked(m, c)) && (e.muted <==> c.muted && !StillMarked(m, c))
    && e.replies == 0 && e.mentions == 0 && !e.synthetic
    && (if (c.id, "") in m.markers
        then e.resume == FirstUnread(m.markers[(c.id, "")].id) && e.boundary == Stamp(0, "")
        else if prior.Some? then e.resume == prior.value.resume && e.boundary == prior.value.boundary
        else e.resume == Unknown && e.boundary == Stamp(0, ""))
  }

  predicate DistinctChannels(cs: seq<Channel>) {
    forall i, j :: 0 <= i < j < |cs| ==> cs[i].id != cs[j].id
  }

  /** The marks of channels not yet looked at are as they were; those of the others still hold or are gone. */
  lemma {:induction false} SyncMarks(es: seq<Entry>, m: Marks, cs: seq<Channel>)
    ensures var after := SyncAll(es, m, cs).1;
      && after.markers == m.markers && after.attention <= m.attention
      && forall k :: k in m.attention && (forall i :: 0 <= i < |cs| ==> (cs[i].id, "") != k) ==> k in after.attention
  {
    if cs != [] {
      var front := cs[..|cs| - 1];
      SyncMarks(es, m, front);
      assert forall i :: 0 <= i < |front| ==> front[i] == cs[i];
    }
  }

  lemma {:induction false} NotAmong(es: seq<Entry>, m: Marks, cs: seq<Channel>, id: Id)
    requires OneEach(es) && forall i :: 0 <= i < |cs| ==> cs[i].id != id
    ensures FindConversation(SyncAll(es, m, cs).0, id).None?
  {
    if cs == [] {
      ThreadsFind(es, id);
    } else {
      var front := cs[..|cs| - 1];
      assert forall i :: 0 <= i < |front| ==> front[i] == cs[i];
      NotAmong(es, m, front, id);
      var c := cs[|cs| - 1];
      var (next, before) := SyncAll(es, m, front);
      FindConversationAppend(next, ConversationEntry(FindConversation(es, c.id), c, Settled(before, c)), id);
    }
  }

  /** The last channel of the list, with the marks as they are when it is looked at. */
  lemma LastShows(es: seq<Entry>, m: Marks, cs: seq<Channel>)
    requires OneEach(es) && cs != [] && DistinctChannels(cs)
    ensures var (c, found) := (cs[|cs| - 1], FindConversation(SyncAll(es, m, cs).0, cs[|cs| - 1].id));
      (found.Some? <==> IsShown(m, c))
      && (found.Some? ==> ShowsChannel(FindConversation(es, c.id), c, m, found.value))
  {
    var (front, c) := (cs[..|cs| - 1], cs[|cs| - 1]);
    SyncMarks(es, m, front);
    NotAmong(es, m, front, c.id);
    var (next, before) := SyncAll(es, m, front);
    assert (c.id, "") in before.attention <==> (c.id, "") in m.attention;
    FindConversationAppend(next, ConversationEntry(FindConversation(es, c.id), c, Settled(before, c)), c.id);
  }

  /** Rebuilding shows exactly the channels that are to be shown, each as the sidebar and the marks say. */
  lemma {:induction false} SyncShows(es: seq<Entry>, m: Marks, cs: seq<Channel>, n: nat)
    requires OneEach(es) && DistinctChannels(cs) && n < |cs|
    ensures var (c, found) := (cs[n], FindConversation(SyncAll(es, m, cs).0, cs[n].id));
      (found.Some? <==> IsShown(m, c))
      && (found.Some? ==> ShowsChannel(FindConversation(es, c.id), c, m, found.value))
    decreases |cs|
  {
    if n == |cs| - 1 {
      LastShows(es, m, cs);
    } else {
      var (front, c) := (cs[..|cs| - 1], cs[|cs| - 1]);
      assert front[n] == cs[n] && c.id != cs[n].id;
      SyncShows(es, m, front, n);
      var (next, before) := SyncAll(es, m, front);
      FindConversationAppend(next, ConversationEntry(FindConversation(es, c.id), c, Settled(before, c)), cs[n].id);
    }
  }
}
