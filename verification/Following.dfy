/** Followed threads and unread conversations: snapshots merged with local marks, and read boundaries that only advance. */
module Following {
  import opened Prelude
  import opened PostOrder

  datatype Kind = Conversation | Thread

  datatype Resume = Unknown | FirstUnread(post: Id) | AtEnd

  /** A read boundary is the stamp of the last post read through; the empty identifier means there is none. */
  const NOWHERE := Stamp(0, "")

  datatype Entry = Entry(kind: Kind, channel: Id, thread: Id, lastReplyAt: nat, replies: int, mentions: int,
                         unread: bool, mentioned: bool, synthetic: bool, muted: bool,
                         resume: Resume, boundary: Stamp, ackPending: bool, ackAt: nat)

  function Blank(kind: Kind, channel: Id, thread: Id): Entry {
    Entry(kind, channel, thread, 0, 0, 0, false, false, false, false, Unknown, NOWHERE, false, 0)
  }

  /** A thread as the server lists it; `muted` is what the sidebar says of its channel. */
  datatype Summary = Summary(id: Id, channel: Id, lastReplyAt: nat, replies: int, mentions: int, muted: bool)

  type Key = (Id, Id)

  /** Local "mark as unread": where it points to, and for which timelines it still asks for attention. */
  datatype Marks = Marks(markers: map<Key, Stamp>, attention: set<Key>)

  predicate Usable(t: Summary) {
    t.id != "" && t.channel != ""
  }

  // ---------------------------------------------------------------- looking up

  function FindThread(es: seq<Entry>, id: Id): Option<Entry> {
    if es == [] then None
    else if es[0].kind == Thread && es[0].thread == id then Some(es[0])
    else FindThread(es[1..], id)
  }

  /** Replace the thread's entry where it stands, or add it at the end. */
  function PutThread(es: seq<Entry>, e: Entry): seq<Entry> {
    if es == [] then [e]
    else if es[0].kind == Thread && es[0].thread == e.thread then [e] + es[1..]
    else [es[0]] + PutThread(es[1..], e)
  }

  function Conversations(es: seq<Entry>): seq<Entry> {
    if es == [] then []
    else if es[0].kind == Conversation then [es[0]] + Conversations(es[1..])
    else Conversations(es[1..])
  }

  /** At most one entry per thread. */
  ghost predicate OneEach(es: seq<Entry>) {
    forall i, j :: 0 <= i < j < |es| && es[i].kind == Thread && es[j].kind == Thread ==> es[i].thread != es[j].thread
  }

  lemma {:induction false} FindIn(es: seq<Entry>, id: Id)
    ensures FindThread(es, id).Some? ==>
      FindThread(es, id).value in es && FindThread(es, id).value.kind == Thread && FindThread(es, id).value.thread == id
    ensures FindThread(es, id).None? ==> forall e :: e in es && e.kind == Thread ==> e.thread != id
  {
    if es != [] {
      FindIn(es[1..], id);
    }
  }

  lemma {:induction false} FindPut(es: seq<Entry>, e: Entry, id: Id)
    requires e.kind == Thread
    ensures FindThread(PutThread(es, e), id) == if id == e.thread then Some(e) else FindThread(es, id)
  {
    if es != [] {
      FindPut(es[1..], e, id);
    }
  }

  lemma {:induction false} FindAppend(es: seq<Entry>, e: Entry, id: Id)
    ensures FindThread(es + [e], id) == if FindThread(es, id).Some? then FindThread(es, id)
      else if e.kind == Thread && e.thread == id then Some(e) else None
  {
    if es != [] {
      assert (es + [e])[1..] == es[1..] + [e];
      FindAppend(es[1..], e, id);
    }
  }

  /** A table is without repetitions exactly when removing nothing else hides an entry behind another. */
  lemma {:induction false} OneEachTail(es: seq<Entry>)
    requires es != []
    ensures OneEach(es) <==> OneEach(es[1..]) && (es[0].kind == Thread ==> FindThread(es[1..], es[0].thread).None?)
  {
    FindIn(es[1..], es[0].thread);
    assert forall i :: 0 <= i < |es| - 1 ==> es[1..][i] == es[i + 1];
    if OneEach(es) {
      assert OneEach(es[1..]);
    }
    if OneEach(es[1..]) && (es[0].kind == Thread ==> FindThread(es[1..], es[0].thread).None?) {
      forall i, j | 0 <= i < j < |es| && es[i].kind == Thread && es[j].kind == Thread
        ensures es[i].thread != es[j].thread
      {
        assert es[j] == es[1..][j - 1];
        if i > 0 {
          assert es[i] == es[1..][i - 1];
        }
      }
    }
  }

  lemma {:induction false} PutOneEach(es: seq<Entry>, e: Entry)
    requires OneEach(es) && e.kind == Thread
    ensures OneEach(PutThread(es, e))
  {
    if es != [] {
      OneEachTail(es);
      PutOneEach(es[1..], e);
      OneEachTail(PutThread(es, e));
      if !(es[0].kind == Thread && es[0].thread == e.thread) {
        FindPut(es[1..], e, es[0].thread);
      }
    }
  }

  lemma {:induction false} AppendOneEach(es: seq<Entry>, e: Entry)
    requires OneEach(es) && (e.kind == Thread ==> FindThread(es, e.thread).None?)
    ensures OneEach(es + [e])
  {
    FindIn(es, e.thread);
  }

  // ---------------------------------------------------------------- a thread snapshot

  /** A mark as unread applies: the entry asks for attention and its cursor points at the marked post. */
  function Attended(e: Entry, m: Marks): Entry {
    var key := (e.channel, e.thread);
    if key !in m.attention then e
    else
      var f := e.(replies := if e.replies < 1 then 1 else e.replies);
      if key in m.markers then f.(resume := FirstUnread(m.markers[key].id), boundary := NOWHERE) else f
  }

  /** A read that is still unacknowledged hides what a snapshot no newer than it brings back. */
  function Suppressed(e: Entry): Entry {
    if !e.ackPending then e
    else if e.replies <= 0 && e.mentions <= 0 then e.(ackPending := false, ackAt := 0)
    else if e.lastReplyAt <= e.ackAt then e.(replies := 0, mentions := 0, mentioned := false)
    else e.(ackPending := false, ackAt := 0)
  }

  function FromSummary(prior: Option<Entry>, t: Summary, m: Marks): (e: Entry)
    ensures e.kind == Thread && e.thread == t.id && e.channel == t.channel
  {
    var e := if prior.Some? then prior.value else Blank(Thread, t.channel, t.id);
    Suppressed(Attended(
      e.(kind := Thread, channel := t.channel, thread := t.id, lastReplyAt := t.lastReplyAt, replies := t.replies,
         mentions := t.mentions, mentioned := t.mentions > 0, synthetic := false, muted := t.muted), m))
  }

  function MergeAll(next: seq<Entry>, ts: seq<Summary>, es: seq<Entry>, m: Marks): seq<Entry> {
    if ts == [] then next
    else
      var before := MergeAll(next, ts[..|ts| - 1], es, m);
      var t := ts[|ts| - 1];
      if !Usable(t) then before else PutThread(before, FromSummary(FindThread(es, t.id), t, m))
  }

  predicate Manual(e: Entry, m: Marks) {
    e.kind == Thread && (e.channel, e.thread) in m.attention
  }

  predicate Mention(e: Entry) {
    e.kind == Thread && e.synthetic
  }

  /** Old entries that a snapshot must not drop: marked as unread (`manual`) or synthetic mentions. */
  predicate Keeps(e: Entry, m: Marks, manual: bool) {
    if manual then Manual(e, m) else Mention(e)
  }

  function Retain(next: seq<Entry>, es: seq<Entry>, m: Marks, manual: bool): seq<Entry> {
    if es == [] then next
    else
      var before := Retain(next, es[..|es| - 1], m, manual);
      var e := es[|es| - 1];
      if Keeps(e, m, manual) && FindThread(before, e.thread).None? then before + [e] else before
  }

  function Applied(es: seq<Entry>, ts: seq<Summary>, m: Marks): seq<Entry> {
    Retain(Retain(MergeAll(Conversations(es), ts, es, m), es, m, true), es, m, false)
  }

  /** The last listing of a thread in a snapshot. */
  function Listing(ts: seq<Summary>, id: Id): (r: Option<Summary>)
    ensures r.Some? ==> r.value.id == id && Usable(r.value) && r.value in ts
  {
    if ts == [] then None
    else if Usable(ts[|ts| - 1]) && ts[|ts| - 1].id == id then Some(ts[|ts| - 1])
    else Listing(ts[..|ts| - 1], id)
  }

  lemma {:induction false} ConversationsFind(es: seq<Entry>, id: Id)
    ensures FindThread(Conversations(es), id).None? && OneEach(Conversations(es))
    ensures forall e :: e in Conversations(es) <==> e in es && e.kind == Conversation
  {
    if es != [] {
      ConversationsFind(es[1..], id);
      if es[0].kind == Conversation {
        OneEachTail(Conversations(es));
      }
    }
  }

  /** What merging a snapshot makes of one thread. */
  function MergedThread(before: Option<Entry>, listing: Option<Summary>, es: seq<Entry>, m: Marks): Option<Entry> {
    match listing
    case None => before
    case Some(t) => Some(FromSummary(FindThread(es, t.id), t, m))
  }

  lemma {:induction false} MergeFinds(next: seq<Entry>, ts: seq<Summary>, es: seq<Entry>, m: Marks, id: Id)
    requires OneEach(next)
    ensures OneEach(MergeAll(next, ts, es, m))
    ensures FindThread(MergeAll(next, ts, es, m), id) == MergedThread(FindThread(next, id), Listing(ts, id), es, m)
  {
    if ts != [] {
      MergeFinds(next, ts[..|ts| - 1], es, m, id);
      var (t, before) := (ts[|ts| - 1], MergeAll(next, ts[..|ts| - 1], es, m));
      if Usable(t) {
        var e := FromSummary(FindThread(es, t.id), t, m);
        MergeOne(before, e, id);
        assert MergeAll(next, ts, es, m) == PutThread(before, e);
        assert id == t.id ==> Listing(ts, id) == Some(t);
        assert id != t.id ==> Listing(ts, id) == Listing(ts[..|ts| - 1], id);
      } else {
        assert MergeAll(next, ts, es, m) == before;
        assert Listing(ts, id) == Listing(ts[..|ts| - 1], id);
      }
    }
  }

  lemma MergeOne(before: seq<Entry>, e: Entry, id: Id)
    requires OneEach(before) && e.kind == Thread
    ensures OneEach(PutThread(before, e))
    ensures FindThread(PutThread(before, e), id) == if id == e.thread then Some(e) else FindThread(before, id)
  {
    PutOneEach(before, e);
    FindPut(before, e, id);
  }

  lemma {:induction false} RetainFinds(next: seq<Entry>, es: seq<Entry>, m: Marks, manual: bool, id: Id)
    requires OneEach(next) && OneEach(es)
    ensures OneEach(Retain(next, es, m, manual))
    ensures var r := FindThread(Retain(next, es, m, manual), id);
      if FindThread(next, id).Some? then r == FindThread(next, id)
      else if FindThread(es, id).Some? && Keeps(FindThread(es, id).value, m, manual) then r == FindThread(es, id)
      else r == None
    ensures forall x :: x in next ==> x in Retain(next, es, m, manual)
    ensures forall x :: x in Retain(next, es, m, manual) && x.kind == Conversation ==> x in next
  {
    if es != [] {
      var (front, e) := (es[..|es| - 1], es[|es| - 1]);
      assert es == front + [e];
      assert forall i :: 0 <= i < |front| ==> front[i] == es[i];
      RetainFinds(next, front, m, manual, id);
      RetainFinds(next, front, m, manual, e.thread);
      FindAppend(front, e, id);
      FindAppend(front, e, e.thread);
      FindIn(front, e.thread);
      var before := Retain(next, front, m, manual);
      if Keeps(e, m, manual) && FindThread(before, e.thread).None? {
        AppendOneEach(before, e);
        FindAppend(before, e, id);
      }
    }
  }

  /**
   * What a snapshot leaves of any thread: what the server listed, merged with local state; otherwise the earlier entry if
   * it is marked as unread or a synthetic mention; otherwise nothing. Conversations are not touched, and no thread
   * has two entries.
   */
  lemma SnapshotResult(es: seq<Entry>, ts: seq<Summary>, m: Marks, id: Id)
    requires OneEach(es)
    ensures OneEach(Applied(es, ts, m))
    ensures FindThread(Applied(es, ts, m), id) ==
      match Listing(ts, id)
      case Some(t) => Some(FromSummary(FindThread(es, id), t, m))
      case None =>
        match FindThread(es, id)
        case Some(prior) => if Manual(prior, m) || Mention(prior) then Some(prior) else None
        case None => None
    ensures forall e: Entry :: e.kind == Conversation ==> (e in Applied(es, ts, m) <==> e in es)
  {
    ConversationsFind(es, id);
    MergeFinds(Conversations(es), ts, es, m, id);
    var merged := MergeAll(Conversations(es), ts, es, m);
    RetainFinds(merged, es, m, true, id);
    RetainFinds(Retain(merged, es, m, true), es, m, false, id);
    FindIn(es, id);
    MergeConversations(Conversations(es), ts, es, m);
  }

  lemma {:induction false} PutConversations(es: seq<Entry>, e: Entry)
    requires e.kind == Thread
    ensures forall x: Entry :: x.kind == Conversation ==> (x in PutThread(es, e) <==> x in es)
  {
    if es != [] {
      PutConversations(es[1..], e);
    }
  }

  lemma {:induction false} MergeConversations(next: seq<Entry>, ts: seq<Summary>, es: seq<Entry>, m: Marks)
    ensures forall x: Entry :: x.kind == Conversation ==> (x in MergeAll(next, ts, es, m) <==> x in next)
  {
    if ts != [] {
      MergeConversations(next, ts[..|ts| - 1], es, m);
      var t := ts[|ts| - 1];
      PutConversations(MergeAll(next, ts[..|ts| - 1], es, m), FromSummary(FindThread(es, t.id), t, m));
    }
  }

  /** A thread marked as unread survives every snapshot, whether or not the server lists it. */
  lemma ManualSurvives(es: seq<Entry>, ts: seq<Summary>, m: Marks, prior: Entry)
    requires OneEach(es) && FindThread(es, prior.thread) == Some(prior) && Manual(prior, m)
    ensures FindThread(Applied(es, ts, m), prior.thread).Some?
  {
    SnapshotResult(es, ts, m, prior.thread);
  }

  /** A synthetic mention stays exactly as it is until the server lists a thread of that identifier. */
  lemma MentionSurvives(es: seq<Entry>, ts: seq<Summary>, m: Marks, prior: Entry)
    requires OneEach(es) && FindThread(es, prior.thread) == Some(prior) && Mention(prior)
    ensures FindThread(Applied(es, ts, m), prior.thread).Some?
    ensures Listing(ts, prior.thread).None? ==> FindThread(Applied(es, ts, m), prior.thread) == Some(prior)
    ensures Listing(ts, prior.thread).Some? ==> !FindThread(Applied(es, ts, m), prior.thread).value.synthetic
  {
    SnapshotResult(es, ts, m, prior.thread);
  }

  /** The resume cursor of a thread without a pending mark survives every snapshot that keeps the thread. */
  lemma CursorSurvives(es: seq<Entry>, ts: seq<Summary>, m: Marks, prior: Entry)
    requires OneEach(es) && FindThread(es, prior.thread) == Some(prior)
    requires FindThread(Applied(es, ts, m), prior.thread).Some?
    requires forall c :: (c, prior.thread) !in m.markers
    ensures var now := FindThread(Applied(es, ts, m), prior.thread).value;
      now.resume == prior.resume && now.boundary == prior.boundary
  {
    SnapshotResult(es, ts, m, prior.thread);
    if Listing(ts, prior.thread).Some? {
      SummaryKeepsCursor(prior, Listing(ts, prior.thread).value, m);
    }
  }

  lemma SummaryKeepsCursor(prior: Entry, t: Summary, m: Marks)
    requires (t.channel, t.id) !in m.markers
    ensures FromSummary(Some(prior), t, m).resume == prior.resume
    ensures FromSummary(Some(prior), t, m).boundary == prior.boundary
  {
  }

  /** While a read is unacknowledged, a snapshot no newer than it brings back neither replies nor mentions. */
  lemma ReadStaysRead(es: seq<Entry>, ts: seq<Summary>, m: Marks, prior: Entry)
    requires OneEach(es) && FindThread(es, prior.thread) == Some(prior) && prior.ackPending
    requires Listing(ts, prior.thread).Some? && Listing(ts, prior.thread).value.lastReplyAt <= prior.ackAt
    ensures FindThread(Applied(es, ts, m), prior.thread).Some?
    ensures var now := FindThread(Applied(es, ts, m), prior.thread).value;
      now.replies <= 0 && now.mentions <= 0 && !now.mentioned
  {
    SnapshotResult(es, ts, m, prior.thread);
    SummaryStaysRead(prior, Listing(ts, prior.thread).value, m);
  }

  lemma SummaryStaysRead(prior: Entry, t: Summary, m: Marks)
    requires prior.ackPending && t.lastReplyAt <= prior.ackAt
    ensures var e := FromSummary(Some(prior), t, m); e.replies <= 0 && e.mentions <= 0 && !e.mentioned
  {
  }

  /** A snapshot with a newer reply ends the suppression: what it counts is shown. */
  lemma NewerReplyShows(es: seq<Entry>, ts: seq<Summary>, m: Marks, prior: Entry, t: Summary)
    requires OneEach(es) && FindThread(es, prior.thread) == Some(prior) && prior.ackPending
    requires Listing(ts, prior.thread) == Some(t) && t.lastReplyAt > prior.ackAt && (t.replies > 0 || t.mentions > 0)
    ensures FindThread(Applied(es, ts, m), prior.thread).Some?
    ensures var now := FindThread(Applied(es, ts, m), prior.thread).value;
      !now.ackPending && now.replies >= t.replies && now.mentions == t.mentions
  {
    SnapshotResult(es, ts, m, prior.thread);
  }
}
