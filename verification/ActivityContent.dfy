/** When a channel is unread: what other people's posts, views, marks and mentions make of it. */
module ActivityContent {
  import opened Prelude
  import opened Activity

  // ---------------------------------------------------------------- single events

  /**
   * Another user's post makes the channel unread: a root post unless it is muted, a reply unless it is muted or only
   * roots count, and a mention even when it is muted.
   */
  lemma OthersPostIsUnread(e: Entry, at: nat, reply: bool, mentioned: bool)
    ensures var f := Next(e, Other(at, reply, mentioned));
      && ((!reply || !e.rootMode) && (!e.muted || mentioned) ==> IsUnread(f))
      && f.all == e.all && f.roots == e.roots && f.activityAt >= at && f.muted == e.muted && f.rootMode == e.rootMode
  {
  }

  /** A reply changes nothing about a channel in which only roots count - until that is no longer so. */
  lemma ReplyIsHeldBack(e: Entry, at: nat, mentioned: bool)
    requires e.tracked && e.rootMode
    ensures var f := Next(e, Other(at, true, mentioned));
      && (IsUnread(f) <==> IsUnread(e))
      && (!e.muted || mentioned ==> IsUnread(f.(rootMode := false)))
  {
  }

  /** The user's own posts leave a channel as read or unread as it was. */
  lemma OwnPostKeepsUnread(e: Entry, at: nat, reply: bool)
    requires e.tracked
    ensures IsUnread(Next(e, Own(at, reply))) <==> IsUnread(e)
  {
  }

  /** A channel that was just viewed is read, and its totals are read up to what was seen, in the domain that was viewed. */
  lemma ViewedIsRead(e: Entry, at: nat, total: nat, rootTotal: nat)
    ensures var f := Next(e, View(at, total, Some(rootTotal)));
      && f.tracked && !IsUnread(f) && f.viewedAt >= at && f.rootMode == e.rootMode
      && UnreadCount(f, total, rootTotal, true) == 0
      && (!e.rootMode ==> UnreadCount(f, total, rootTotal, false) == 0)
      && (e.rootMode ==> f.all == e.all && f.runtime.replies == e.runtime.replies
                         && f.runtime.replyMentioned == e.runtime.replyMentioned)
  {
  }

  /** A channel marked as unread is unread, unless it is muted and has no mention; its counters are the server's. */
  lemma MarkedIsUnread(e: Entry, m: Membership)
    ensures var f := Next(e, SetUnread(m));
      && (IsUnread(f) <==> !e.muted || (if e.rootMode && m.hasRootMentions then m.rootMentions else m.mentions) > 0)
      && f.viewedAt == m.viewedAt && f.all == Domain(m.read, 0, true) && f.roots.credit == 0
      && (m.rootRead.Some? ==> f.roots.read == m.rootRead.value && f.roots.known)
  {
  }

  /** A mention makes a tracked channel unread, muted or not; withdrawing it leaves no mention behind. */
  lemma MentionIsUnread(e: Entry)
    requires e.tracked
    ensures IsUnread(Next(e, SetMention(true)))
    ensures var f := Next(e, SetMention(false));
      IsUnread(f) <==> !e.muted && (e.server.unread || e.runtime.activity || (!e.rootMode && e.runtime.replies))
  {
  }

  /** A snapshot brings the server's mention counts, unless it is older than what is known; muting follows it at once. */
  lemma SnapshotBrings(e: Entry, m: Membership)
    ensures var f := Next(e, Snapshot(m));
      var stale := e.all.known && (m.viewedAt < e.viewedAt || m.read < e.all.read
                    || (m.rootRead.Some? && e.roots.known && m.rootRead.value < e.roots.read));
      && f.muted == m.muted && f.tracked && f.runtime == e.runtime && f.rootMode == e.rootMode
      && (stale ==> f.server == e.server)
      && (!stale ==> f.server.mentions == m.mentions && f.server.rootMentions == m.rootMentions
                     && f.server.hasRootMentions == m.hasRootMentions)
  {
  }

  /** Synchronising counts roots exactly when threads are collapsed and both root counts are known. */
  lemma SynchronisedMode(e: Entry, lastPostAt: nat, total: nat, rootTotal: Option<nat>, collapsed: bool)
    requires e.tracked
    ensures var f := Next(e, Sync(lastPostAt, total, rootTotal, collapsed));
      && (f.rootMode <==> collapsed && e.roots.known && rootTotal.Some?)
      && (f.server.mentioned <==>
            if f.rootMode && e.server.hasRootMentions then e.server.rootMentions > 0 else e.server.mentions > 0)
      && f.all == e.all && f.roots == e.roots && f.runtime == e.runtime && f.muted == e.muted && f.activityAt >= lastPostAt
  {
  }

  // ---------------------------------------------------------------- over runs

  /** Neither a view nor a set-unread: nothing that takes note of what is unread. */
  predicate Unseen(ev: Event) {
    !ev.View? && !ev.SetUnread?
  }

  lemma ActivityStep(e: Entry, ev: Event, f: Entry)
    requires e.tracked && e.runtime.activity && Unseen(ev) && f == Next(e, ev)
    ensures f.tracked && f.runtime.activity
  {
  }

  /** Another user's root post keeps the channel unread, whenever it is not muted, until it is viewed or marked. */
  lemma {:induction false} StaysUnread(e: Entry, evs: seq<Event>)
    requires e.tracked && e.runtime.activity && forall i :: 0 <= i < |evs| ==> Unseen(evs[i])
    ensures Run(e, evs).tracked && Run(e, evs).runtime.activity && (!Run(e, evs).muted ==> IsUnread(Run(e, evs)))
  {
    if evs != [] {
      var front := evs[..|evs| - 1];
      forall i | 0 <= i < |front| ensures Unseen(front[i]) {
        assert front[i] == evs[i];
      }
      StaysUnread(e, front);
      ActivityStep(Run(e, front), evs[|evs| - 1], Run(e, evs));
    }
  }

  /** From any state: after another user's root post, and whatever follows but a view or a mark, the channel is unread. */
  lemma PostStaysUnread(e: Entry, at: nat, mentioned: bool, evs: seq<Event>)
    requires forall i :: 0 <= i < |evs| ==> Unseen(evs[i])
    ensures var f := Run(Next(e, Other(at, false, mentioned)), evs); !f.muted ==> IsUnread(f)
  {
    StaysUnread(Next(e, Other(at, false, mentioned)), evs);
  }
}
