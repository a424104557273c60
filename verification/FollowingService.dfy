/** The following model as it runs: the loops over entries, channels and listed threads, and coalesced refreshes. */
module FollowingService {
  import opened Prelude
  import opened PostOrder
  import opened Following
  import opened FollowingRuns

  // ---------------------------------------------------------------- refreshing, coalesced

  /** History: `asked` counts the requests for a refresh, `covered` those a dispatched query answers. */
  datatype Refresh = Refresh(timer: bool, inFlight: bool, requested: bool, dirty: bool, asked: nat, covered: nat, open: nat)

  function Scheduled(r: Refresh): Refresh {
    r.(dirty := true, timer := true)
  }

  /** Start a query, or note that another one is wanted once the running one is answered. */
  function Refreshed(r: Refresh): Refresh {
    if r.inFlight then r.(requested := true, dirty := true)
    else r.(inFlight := true, requested := false, dirty := false, covered := r.asked, open := r.open + 1)
  }

  datatype RefreshEvent = Asked | Forced | TimerFired | Answered

  predicate Possible(r: Refresh, e: RefreshEvent) {
    match e
    case TimerFired => r.timer
    case Answered => r.inFlight
    case _ => true
  }

  function RefreshNext(r: Refresh, e: RefreshEvent): Refresh {
    match e
    case Asked => Scheduled(r.(asked := r.asked + 1))
    case Forced => Refreshed(r.(asked := r.asked + 1))
    case TimerFired => Refreshed(r.(timer := false))
    case Answered =>
      var s := r.(inFlight := false, open := if r.open > 0 then r.open - 1 else 0);
      if s.requested then Scheduled(s.(requested := false))
      else if s.dirty then Scheduled(s) else s
  }

  /** At most one query is open; whatever was asked for and is not covered by a query will still cause one. */
  predicate RefreshOk(r: Refresh) {
    && r.open == (if r.inFlight then 1 else 0)
    && r.covered <= r.asked
    && (r.requested ==> r.dirty && r.inFlight)
    && (r.covered < r.asked ==> r.dirty && (r.timer || r.inFlight))
  }

  lemma RefreshStep(r: Refresh, e: RefreshEvent)
    requires RefreshOk(r) && Possible(r, e)
    ensures RefreshOk(RefreshNext(r, e))
  {
  }

  function RefreshRun(r: Refresh, es: seq<RefreshEvent>): Refresh {
    if es == [] then r else RefreshNext(RefreshRun(r, es[..|es| - 1]), es[|es| - 1])
  }

  ghost predicate AllPossible(r: Refresh, es: seq<RefreshEvent>) {
    forall i :: 0 <= i < |es| ==> Possible(RefreshRun(r, es[..i]), es[i])
  }

  /** Over every run one query at most is open, and when nothing is pending no request for a refresh was lost. */
  lemma {:induction false} NoRefreshIsLost(r: Refresh, es: seq<RefreshEvent>)
    requires RefreshOk(r) && AllPossible(r, es)
    ensures RefreshOk(RefreshRun(r, es))
    ensures var s := RefreshRun(r, es); s.open <= 1 && (!s.timer && !s.inFlight ==> s.covered == s.asked)
  {
    if es != [] {
      var front := es[..|es| - 1];
      forall i | 0 <= i < |front| ensures Possible(RefreshRun(r, front[..i]), front[i]) {
        assert front[..i] == es[..i] && front[i] == es[i];
      }
      NoRefreshIsLost(r, front);
      assert es[..|es| - 1] == front;
      RefreshStep(RefreshRun(r, front), es[|es| - 1]);
    }
  }

  /** How many events are left once nobody asks any more: a burst of requests costs at most two more queries. */
  function Rank(r: Refresh): nat {
    if r.timer then (if r.inFlight then 4 else 2)
    else if r.inFlight then (if r.dirty then 3 else 1) else 0
  }

  lemma RefreshSettles(r: Refresh, e: RefreshEvent)
    requires RefreshOk(r) && Possible(r, e) && (e == TimerFired || e == Answered)
    ensures Rank(RefreshNext(r, e)) < Rank(r) <= 4
    ensures Rank(r) == 0 <==> !r.timer && !r.inFlight
  {
  }

  // ---------------------------------------------------------------- the model as a class

  lemma PlaceStep(es: seq<Entry>, e: Entry, i: nat)
    requires i < |es|
    ensures es[..i] + PutThread(es[i..], e)
      == if es[i].kind == Thread && es[i].thread == e.thread then es[i := e] else es[..i + 1] + PutThread(es[i + 1..], e)
  {
    assert es[i..][0] == es[i] && es[i..][1..] == es[i + 1..];
    assert es[..i] + ([e] + es[i + 1..]) == es[i := e];
    assert es[..i] + ([es[i]] + PutThread(es[i + 1..], e)) == es[..i + 1] + PutThread(es[i + 1..], e);
  }

  class FollowingModel {
    var entries: seq<Entry>
    var marks: Marks
    var refresh: Refresh

    ghost function View(): Model
      reads this
    {
      Model(entries, marks)
    }

    method FindThreadEntry(es: seq<Entry>, id: Id) returns (found: Option<Entry>)
      ensures found == FindThread(es, id)
    {
      var i := 0;
      while i < |es|
        invariant i <= |es| && FindThread(es[i..], id) == FindThread(es, id)
      {
        if es[i].kind == Thread && es[i].thread == id {
          return Some(es[i]);
        }
        i := i + 1;
      }
      return None;
    }

    /** The loop that puts an entry in its thread's place, or at the end. */
    method PlaceThread(es: seq<Entry>, e: Entry) returns (r: seq<Entry>)
      ensures r == PutThread(es, e)
    {
      var i := 0;
      while i < |es|
        invariant i <= |es| && PutThread(es, e) == es[..i] + PutThread(es[i..], e)
      {
        PlaceStep(es, e, i);
        if es[i].kind == Thread && es[i].thread == e.thread {
          return es[i := e];
        }
        i := i + 1;
      }
      r := es + [e];
    }

    method KeepConversations() returns (kept: seq<Entry>)
      ensures kept == Conversations(entries)
    {
      kept := [];
      var i := 0;
      while i < |entries|
        invariant i <= |entries| && kept + Conversations(entries[i..]) == Conversations(entries)
      {
        if entries[i].kind == Conversation {
          kept := kept + [entries[i]];
        }
        i := i + 1;
      }
    }

    method EntryFromSummary(t: Summary) returns (e: Entry)
      ensures e == FromSummary(FindThread(entries, t.id), t, marks)
    {
      var prior := FindThreadEntry(entries, t.id);
      e := if prior.Some? then prior.value else Blank(Thread, t.channel, t.id);
      e := e.(kind := Thread, channel := t.channel, thread := t.id, lastReplyAt := t.lastReplyAt, replies := t.replies,
              mentions := t.mentions, mentioned := t.mentions > 0, synthetic := false, muted := t.muted);
      var key := (e.channel, e.thread);
      if key in marks.attention {
        if e.replies < 1 {
          e := e.(replies := 1);
        }
        if key in marks.markers {
          e := e.(resume := FirstUnread(marks.markers[key].id), boundary := NOWHERE);
        }
      }
      if e.ackPending {
        if e.replies <= 0 && e.mentions <= 0 {
          e := e.(ackPending := false, ackAt := 0);
        } else if e.lastReplyAt <= e.ackAt {
          e := e.(replies := 0, mentions := 0, mentioned := false);
        } else {
          e := e.(ackPending := false, ackAt := 0);
        }
      }
    }

    method MergeListed(start: seq<Entry>, ts: seq<Summary>) returns (next: seq<Entry>)
      ensures next == MergeAll(start, ts, entries, marks)
    {
      next := start;
      var i := 0;
      while i < |ts|
        invariant i <= |ts| && next == MergeAll(start, ts[..i], entries, marks)
      {
        assert ts[..i + 1][..i] == ts[..i];
        if ts[i].id != "" && ts[i].channel != "" {
          var e := EntryFromSummary(ts[i]);
          next := PlaceThread(next, e);
        }
        i := i + 1;
      }
      assert ts[..i] == ts;
    }

    method RetainOld(start: seq<Entry>, manual: bool) returns (next: seq<Entry>)
      ensures next == Retain(start, entries, marks, manual)
    {
      next := start;
      var i := 0;
      while i < |entries|
        invariant i <= |entries| && next == Retain(start, entries[..i], marks, manual)
      {
        assert entries[..i + 1][..i] == entries[..i];
        var e := entries[i];
        if e.kind == Thread && (if manual then (e.channel, e.thread) in marks.attention else e.synthetic) {
          var present := FindThreadEntry(next, e.thread);
          if present.None? {
            next := next + [e];
          }
        }
        i := i + 1;
      }
      assert entries[..i] == entries;
    }

    method ApplyThreadSnapshot(ts: seq<Summary>)
      modifies this`entries
      ensures View() == Next(old(View()), Snapshot(ts))
    {
      var next := KeepConversations();
      next := MergeListed(next, ts);
      next := RetainOld(next, true);
      next := RetainOld(next, false);
      entries := next;
    }

    // -------------------------------------------------------------- reading

    /** The loop over the cached posts that keeps the earliest one after the boundary. */
    method NextCachedPost(posts: seq<Cached>, thread: Id, rootOnly: bool, after: Stamp) returns (next: Option<Stamp>)
      ensures next == NextCached(posts, thread, rootOnly, after)
    {
      next := None;
      var i := 0;
      while i < |posts|
        invariant i <= |posts| && next == NextCached(posts[..i], thread, rootOnly, after)
      {
        assert posts[..i + 1][..i] == posts[..i];
        var p := posts[i];
        if InTimeline(p, thread, rootOnly) && Before(after, StampOf(p))
           && (next.None? || Before(StampOf(p), next.value))
        {
          next := Some(StampOf(p));
        }
        i := i + 1;
      }
      assert posts[..i] == posts;
    }

    method FindConversationEntry(channel: Id) returns (found: Option<Entry>)
      ensures found == FindConversation(entries, channel)
    {
      var i := 0;
      while i < |entries|
        invariant i <= |entries| && FindConversation(entries[i..], channel) == FindConversation(entries, channel)
      {
        if entries[i].kind == Conversation && entries[i].channel == channel {
          return Some(entries[i]);
        }
        i := i + 1;
      }
      return None;
    }

    method ObserveReadThrough(channel: Id, thread: Id, post: Stamp, posts: seq<Cached>, known: bool, rootOnly: bool, atEnd: bool)
      modifies this`entries, this`marks
      ensures View() == Next(old(View()), Observe(channel, thread, post, posts, known, rootOnly, atEnd))
    {
      var found;
      if thread == "" {
        found := FindConversationEntry(channel);
      } else {
        found := FindThreadEntry(entries, thread);
      }
      if found.None? || post.id == "" || found.value.channel != channel {
        return;
      }
      var e, key := found.value, (channel, thread);
      if key in marks.markers && (post.id == marks.markers[key].id || Before(marks.markers[key], post)) {
        marks := marks.(markers := marks.markers - {key});
      }
      var refused;
      refused, e := MoveCursor(e, post, posts, rootOnly, atEnd);
      if refused || !known {
        return;
      }
      if thread == "" {
        entries := PutConversation(entries, e);
      } else {
        entries := PlaceThread(entries, e);
      }
    }

    method MoveCursor(e: Entry, post: Stamp, posts: seq<Cached>, rootOnly: bool, atEnd: bool)
      returns (refused: bool, moved: Entry)
      ensures refused == Refused(e, post) && moved == Observed(e, post, posts, rootOnly, atEnd)
    {
      if e.boundary.id != "" && e.boundary.id != post.id && !Before(e.boundary, post) {
        return true, e;
      }
      var next := NextCachedPost(posts, e.thread, rootOnly, post);
      return false,
        e.(boundary := post, resume := if next.Some? then FirstUnread(next.value.id) else if atEnd then AtEnd else Unknown);
    }

    method MarkPostUnread(channel: Id, thread: Id, post: Stamp)
      modifies this`entries, this`marks
      ensures View() == Next(old(View()), MarkUnread(channel, thread, post))
    {
      if channel == "" || post.id == "" {
        return;
      }
      marks := Marks(marks.markers[(channel, thread) := post], marks.attention + {(channel, thread)});
      if thread == "" {
        return;
      }
      var found := FindThreadEntry(entries, thread);
      var e := if found.Some? then found.value else Blank(Thread, channel, thread);
      e := e.(replies := if e.replies < 1 then 1 else e.replies, resume := FirstUnread(post.id), boundary := NOWHERE,
              ackPending := false, ackAt := 0,
              lastReplyAt := if e.lastReplyAt >= post.createAt then e.lastReplyAt else post.createAt, muted := false);
      entries := PlaceThread(entries, e);
    }

    method MarkThreadRead(thread: Id)
      modifies this`entries
      ensures View() == Next(old(View()), MarkRead(thread))
    {
      if thread == "" {
        return;
      }
      var found := FindThreadEntry(entries, thread);
      if found.None? {
        return;
      }
      var e := found.value;
      e := e.(replies := 0, mentions := 0, mentioned := false, ackPending := true,
              ackAt := if e.boundary.createAt != 0 then e.boundary.createAt else e.lastReplyAt);
      entries := PlaceThread(entries, e);
    }

    /** The loop over the channels; conversations that are neither unread nor marked go, together with their cursor. */
    method SyncConversations(cs: seq<Channel>)
      modifies this`entries, this`marks
      ensures View() == Next(old(View()), Sync(cs))
    {
      var next := KeepThreads();
      var i := 0;
      ghost var start := marks;
      while i < |cs|
        modifies this`marks
        invariant i <= |cs| && (next, marks) == SyncAll(entries, start, cs[..i])
      {
        assert cs[..i + 1][..i] == cs[..i];
        var c := cs[i];
        var key := (c.id, "");
        if key !in marks.markers && !c.unread && !c.mentioned {
          marks := marks.(attention := marks.attention - {key});
        }
        if key in marks.attention || (c.direct && !c.muted && (c.unread || c.mentioned)) {
          var prior := FindConversationEntry(c.id);
          next := next + [ConversationEntry(prior, c, marks)];
        }
        i := i + 1;
      }
      assert cs[..i] == cs;
      entries := next;
    }

    method KeepThreads() returns (kept: seq<Entry>)
      ensures kept == Threads(entries)
    {
      kept := [];
      var i := 0;
      while i < |entries|
        invariant i <= |entries| && kept + Threads(entries[i..]) == Threads(entries)
      {
        if entries[i].kind == Thread {
          kept := kept + [entries[i]];
        }
        i := i + 1;
      }
    }

    // -------------------------------------------------------------- refreshing

    method ScheduleThreadRefresh()
      modifies this`refresh
      ensures refresh == RefreshNext(old(refresh), Asked)
    {
      refresh := refresh.(asked := refresh.asked + 1, dirty := true);
      if !refresh.timer {
        refresh := refresh.(timer := true);
      }
    }

    method RefreshThreads(fired: bool)
      requires fired ==> refresh.timer
      modifies this`refresh
      ensures refresh == RefreshNext(old(refresh), if fired then TimerFired else Forced)
    {
      refresh := if fired then refresh.(timer := false) else refresh.(asked := refresh.asked + 1);
      if refresh.inFlight {
        refresh := refresh.(requested := true, dirty := true);
        return;
      }
      refresh := refresh.(inFlight := true, requested := false, dirty := false, covered := refresh.asked, open := refresh.open + 1);
    }

    /** The answer: the snapshot is applied, and a refresh that was wanted meanwhile is scheduled. */
    method ThreadsAnswered(ts: seq<Summary>)
      requires refresh.inFlight && refresh.open > 0
      modifies this`entries, this`refresh
      ensures View() == Next(old(View()), Snapshot(ts)) && refresh == RefreshNext(old(refresh), Answered)
    {
      ApplyThreadSnapshot(ts);
      refresh := refresh.(inFlight := false, open := refresh.open - 1);
      if refresh.requested {
        refresh := refresh.(requested := false, dirty := true, timer := true);
      } else if refresh.dirty {
        refresh := refresh.(timer := true);
      }
    }
  }
}
