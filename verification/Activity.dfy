/** Channel activity: read counters that snapshots may only move forward, and credits for the user's own posts. */
module Activity {
  import opened Prelude

  /** One counting domain - all messages, or root messages only - with the credit for own posts. */
  datatype Domain = Domain(read: nat, credit: nat, known: bool)

  /** What events of others left behind at runtime. */
  datatype Runtime = Runtime(activity: bool, replies: bool, mentioned: bool, replyMentioned: bool)

  /** What the server last said about mentions and unread activity. */
  datatype Server = Server(mentions: nat, rootMentions: nat, hasRootMentions: bool, unread: bool, mentioned: bool)

  datatype Entry = Entry(viewedAt: nat, activityAt: nat, all: Domain, roots: Domain, rootMode: bool,
                         server: Server, runtime: Runtime, muted: bool, tracked: bool)

  const FRESH := Entry(0, 0, Domain(0, 0, false), Domain(0, 0, false), false,
                       Server(0, 0, false, false, false), Runtime(false, false, false, false), false, false)

  function AtLeast(a: nat, b: nat): nat {
    if a >= b then a else b
  }

  // ---------------------------------------------------------------- what each call does

  /** An absolute read counter: credits are consumed by whatever it acknowledges. */
  function Acknowledged(d: Domain, read: nat): Domain {
    if d.known && read > d.read && d.credit > 0
    then Domain(read, d.credit - (if d.credit <= read - d.read then d.credit else read - d.read), true)
    else Domain(AtLeast(d.read, read), d.credit, true)
  }

  datatype Membership = Membership(viewedAt: nat, read: nat, rootRead: Option<nat>,
                                   mentions: nat, rootMentions: nat, hasRootMentions: bool, muted: bool)

  predicate Stale(e: Entry, m: Membership) {
    e.all.known
    && (m.viewedAt < e.viewedAt || m.read < e.all.read
        || (m.rootRead.Some? && e.roots.known && m.rootRead.value < e.roots.read))
  }

  function Member(e: Entry, m: Membership): Entry {
    e.(viewedAt := AtLeast(e.viewedAt, m.viewedAt),
       all := Acknowledged(e.all, m.read),
       roots := if m.rootRead.Some? then Acknowledged(e.roots, m.rootRead.value) else e.roots,
       server := if Stale(e, m) then e.server
                 else e.server.(mentions := m.mentions, rootMentions := m.rootMentions, hasRootMentions := m.hasRootMentions),
       muted := m.muted, tracked := true)
  }

  function Selected(e: Entry, rootMode: bool): Domain {
    if rootMode then e.roots else e.all
  }

  /** What the domain cannot explain of a total. */
  function Unexplained(d: Domain, total: nat): nat {
    if total <= d.read then 0
    else if total - d.read <= d.credit then 0
    else total - d.read - d.credit
  }

  function Synchronized(e: Entry, lastPostAt: nat, total: nat, rootTotal: Option<nat>, collapsed: bool): Entry {
    if !e.tracked then e
    else
      var mode := collapsed && e.roots.known && rootTotal.Some?;
      var d := Selected(e, mode);
      var count := if mode then rootTotal.value else total;
      e.(activityAt := AtLeast(e.activityAt, lastPostAt), rootMode := mode,
         server := e.server.(unread := count > d.read && count - d.read > d.credit,
                             mentioned := if mode && e.server.hasRootMentions then e.server.rootMentions > 0
                                          else e.server.mentions > 0))
  }

  function Credited(d: Domain): Domain {
    if d.known then d.(credit := d.credit + 1) else d
  }

  function OwnPost(e: Entry, createdAt: nat, reply: bool): Entry {
    e.(tracked := true, activityAt := AtLeast(e.activityAt, createdAt),
       all := Credited(e.all), roots := if reply then e.roots else Credited(e.roots))
  }

  function OtherPost(e: Entry, createdAt: nat, reply: bool, mentioned: bool): Entry {
    var r := e.runtime;
    e.(tracked := true, activityAt := AtLeast(e.activityAt, createdAt),
       runtime := if reply then r.(replies := true, replyMentioned := r.replyMentioned || mentioned)
                  else r.(activity := true, mentioned := r.mentioned || mentioned))
  }

  function Caught(d: Domain, total: nat): Domain {
    Domain(AtLeast(d.read, total), 0, true)
  }

  /** A channel is viewed: in root mode only the root domain is consumed. */
  function Viewed(e: Entry, viewedAt: nat, total: nat, rootTotal: Option<nat>): Entry {
    var f := e.(tracked := true, viewedAt := AtLeast(e.viewedAt, viewedAt),
                roots := if rootTotal.Some? then Caught(e.roots, rootTotal.value) else e.roots);
    if e.rootMode then
      f.(server := e.server.(rootMentions := 0, unread := false, mentioned := false),
         runtime := e.runtime.(activity := false, mentioned := false))
    else
      f.(all := Caught(e.all, total),
         server := e.server.(mentions := 0, rootMentions := 0, unread := false, mentioned := false),
         runtime := Runtime(false, false, false, false))
  }

  /** The only call that may move the read watermark backwards. */
  function MarkedUnread(e: Entry, m: Membership): Entry {
    e.(tracked := true, viewedAt := m.viewedAt, all := Domain(m.read, 0, true),
       roots := if m.rootRead.Some? then Domain(m.rootRead.value, 0, true) else e.roots.(credit := 0),
       server := Server(m.mentions, m.rootMentions, m.hasRootMentions, true,
                        if e.rootMode && m.hasRootMentions then m.rootMentions > 0 else m.mentions > 0),
       runtime := Runtime(false, false, false, false))
  }

  function Mentioned(e: Entry, on: bool): Entry {
    if on then e.(runtime := e.runtime.(mentioned := true))
    else e.(server := e.server.(mentions := 0, rootMentions := 0, mentioned := false),
            runtime := e.runtime.(mentioned := false, replyMentioned := false))
  }

  // ---------------------------------------------------------------- queries

  predicate IsUnread(e: Entry) {
    e.tracked
    && (e.server.mentioned || e.runtime.mentioned || (!e.rootMode && e.runtime.replyMentioned)
        || (!e.muted && (e.server.unread || e.runtime.activity || (!e.rootMode && e.runtime.replies))))
  }

  predicate UsesRoots(e: Entry, rootsOnly: bool) {
    (rootsOnly && e.roots.known) || e.rootMode
  }

  function UnreadCount(e: Entry, total: nat, rootTotal: nat, rootsOnly: bool): nat {
    if !e.tracked then 0
    else Unexplained(Selected(e, UsesRoots(e, rootsOnly)), if UsesRoots(e, rootsOnly) then rootTotal else total)
  }

  // ---------------------------------------------------------------- runs

  datatype Event =
    | Snapshot(m: Membership)
    | Sync(lastPostAt: nat, total: nat, rootTotal: Option<nat>, collapsed: bool)
    | Own(createdAt: nat, reply: bool)
    | Other(createdAt: nat, reply: bool, mentioned: bool)
    | View(viewedAt: nat, total: nat, rootTotal: Option<nat>)
    | SetUnread(m: Membership)
    | SetMention(on: bool)
    | Mute(on: bool)

  function Next(e: Entry, ev: Event): Entry {
    match ev
    case Snapshot(m) => Member(e, m)
    case Sync(at, total, rootTotal, collapsed) => Synchronized(e, at, total, rootTotal, collapsed)
    case Own(at, reply) => OwnPost(e, at, reply)
    case Other(at, reply, mentioned) => OtherPost(e, at, reply, mentioned)
    case View(at, total, rootTotal) => Viewed(e, at, total, rootTotal)
    case SetUnread(m) => MarkedUnread(e, m)
    case SetMention(on) => Mentioned(e, on)
    case Mute(on) => e.(muted := on)
  }

  function Run(e: Entry, evs: seq<Event>): Entry {
    if evs == [] then e else Next(Run(e, evs[..|evs| - 1]), evs[|evs| - 1])
  }

  /** A credit needs a counter it was anchored to. */
  predicate Anchored(d: Domain) {
    !d.known ==> d.read == 0 && d.credit == 0
  }

  predicate Valid(e: Entry) {
    Anchored(e.all) && Anchored(e.roots)
  }

  lemma {:induction false} RunValid(e: Entry, evs: seq<Event>)
    requires Valid(e)
    ensures Valid(Run(e, evs))
  {
    if evs != [] {
      RunValid(e, evs[..|evs| - 1]);
    }
  }

  // ---------------------------------------------------------------- the fold law

  /** What the user has read, own posts included. */
  function Level(d: Domain): nat {
    d.read + d.credit
  }

  /** A read counter from the server raises the level to itself if it is higher, and never lowers it. */
  lemma AcknowledgedLevel(d: Domain, read: nat)
    requires Anchored(d)
    ensures Level(Acknowledged(d, read)) == AtLeast(Level(d), read)
  {
  }

  /** What an event does to the level of a domain that it does not consume. */
  function LevelAfter(level: nat, ev: Event, roots: bool, known: bool): nat {
    match ev
    case Snapshot(m) =>
      if !roots then AtLeast(level, m.read)
      else if m.rootRead.Some? then AtLeast(level, m.rootRead.value) else level
    case Own(_, reply) => if known && !(roots && reply) then level + 1 else level
    case _ => level
  }

  /** Neither a set-unread nor a view of this domain; a view in root mode leaves the domain of all messages alone. */
  predicate Neutral(e: Entry, ev: Event, roots: bool) {
    !ev.SetUnread? && (ev.View? ==> e.rootMode && !roots)
  }

  lemma LevelStep(e: Entry, ev: Event, roots: bool)
    requires Valid(e) && Neutral(e, ev, roots)
    ensures Level(Selected(Next(e, ev), roots)) == LevelAfter(Level(Selected(e, roots)), ev, roots, Selected(e, roots).known)
    ensures Selected(e, roots).known ==> Selected(Next(e, ev), roots).known
  {
    match ev
    case Snapshot(m) =>
      AcknowledgedLevel(e.all, m.read);
      if m.rootRead.Some? {
        AcknowledgedLevel(e.roots, m.rootRead.value);
      }
    case _ =>
  }

  /** The level after a run: every snapshot raises it to at least its counter, every own post by one. */
  function LevelFold(level: nat, evs: seq<Event>, roots: bool): nat {
    if evs == [] then level else LevelAfter(LevelFold(level, evs[..|evs| - 1], roots), evs[|evs| - 1], roots, true)
  }

  /**
   * The fold law: once a domain is known, over any run of snapshots, posts and root-mode views of the other domain -
   * in whatever order they arrive, and however stale they are - what counts as read is the fold of the snapshots'
   * counters and the own posts.
   */
  lemma {:induction false} FoldLaw(e: Entry, evs: seq<Event>, roots: bool)
    requires Valid(e) && Selected(e, roots).known
    requires forall i :: 0 <= i < |evs| ==> Neutral(Run(e, evs[..i]), evs[i], roots)
    ensures Level(Selected(Run(e, evs), roots)) == LevelFold(Level(Selected(e, roots)), evs, roots)
    ensures Selected(Run(e, evs), roots).known
  {
    if evs != [] {
      var front := evs[..|evs| - 1];
      forall i | 0 <= i < |front| ensures Neutral(Run(e, front[..i]), front[i], roots) {
        assert front[..i] == evs[..i] && front[i] == evs[i];
      }
      FoldLaw(e, front, roots);
      RunValid(e, front);
      LevelStep(Run(e, front), evs[|evs| - 1], roots);
    }
  }

  /** The unread count is exactly what the total exceeds the level by. */
  lemma UnreadIsTotalBeyondLevel(e: Entry, total: nat, rootTotal: nat, rootsOnly: bool)
    requires e.tracked
    ensures var (t, level) :=
        (if UsesRoots(e, rootsOnly) then rootTotal else total, Level(Selected(e, UsesRoots(e, rootsOnly))));
      UnreadCount(e, total, rootTotal, rootsOnly) == if t > level then t - level else 0
  {
  }

  function RootPosts(evs: seq<Event>): nat {
    if evs == [] then 0
    else RootPosts(evs[..|evs| - 1]) + (if evs[|evs| - 1].Own? && !evs[|evs| - 1].reply then 1 else 0)
  }

  /** Own posts raise both domains by what they add to the totals. */
  lemma {:induction false} OwnLevels(e: Entry, evs: seq<Event>)
    requires Valid(e) && forall i :: 0 <= i < |evs| ==> evs[i].Own?
    ensures var f := Run(e, evs);
      && f.all.known == e.all.known && f.roots.known == e.roots.known && f.rootMode == e.rootMode
      && (e.all.known ==> Level(f.all) == Level(e.all) + |evs|)
      && (e.roots.known ==> Level(f.roots) == Level(e.roots) + RootPosts(evs))
      && (e.tracked ==> f.tracked)
  {
    if evs != [] {
      OwnLevels(e, evs[..|evs| - 1]);
    }
  }

  /** Own posts never become unread: roots or replies, the totals grow by them and the count stays, in either mode. */
  lemma OwnPostsStayRead(e: Entry, evs: seq<Event>, total: nat, rootTotal: nat, rootsOnly: bool)
    requires Valid(e) && e.tracked && Selected(e, UsesRoots(e, rootsOnly)).known
    requires forall i :: 0 <= i < |evs| ==> evs[i].Own?
    ensures UnreadCount(Run(e, evs), total + |evs|, rootTotal + RootPosts(evs), rootsOnly)
      == UnreadCount(e, total, rootTotal, rootsOnly)
  {
    OwnLevels(e, evs);
    UnreadIsTotalBeyondLevel(e, total, rootTotal, rootsOnly);
    UnreadIsTotalBeyondLevel(Run(e, evs), total + |evs|, rootTotal + RootPosts(evs), rootsOnly);
  }

  /** The counter a snapshot reports for a domain, if any. */
  function Counter(ev: Event, roots: bool): nat
    requires ev.Snapshot?
  {
    if !roots then ev.m.read else if ev.m.rootRead.Some? then ev.m.rootRead.value else 0
  }

  /** Of snapshots, the level after a run is the fold whether or not the domain was known before. */
  lemma {:induction false} SnapshotFold(e: Entry, evs: seq<Event>, roots: bool)
    requires Valid(e) && forall i :: 0 <= i < |evs| ==> evs[i].Snapshot?
    ensures Level(Selected(Run(e, evs), roots)) == LevelFold(Level(Selected(e, roots)), evs, roots)
  {
    if evs != [] {
      SnapshotFold(e, evs[..|evs| - 1], roots);
      RunValid(e, evs[..|evs| - 1]);
      LevelStep(Run(e, evs[..|evs| - 1]), evs[|evs| - 1], roots);
    }
  }

  /** The fold of snapshots is the highest of where it started and of all their counters. */
  lemma {:induction false} FoldIsHighest(level: nat, evs: seq<Event>, roots: bool)
    requires forall i :: 0 <= i < |evs| ==> evs[i].Snapshot?
    ensures var top := LevelFold(level, evs, roots);
      && top >= level && (forall ev :: ev in evs ==> top >= Counter(ev, roots))
      && (top == level || exists ev :: ev in evs && top == Counter(ev, roots))
  {
    if evs != [] {
      var (front, last) := (evs[..|evs| - 1], evs[|evs| - 1]);
      FoldIsHighest(level, front, roots);
      assert evs == front + [last] && last in evs;
    }
  }

  /** Membership snapshots may arrive in any order, and each any number of times: they lead to the same level. */
  lemma SnapshotsInAnyOrder(e: Entry, xs: seq<Event>, ys: seq<Event>, roots: bool)
    requires Valid(e) && (forall i :: 0 <= i < |xs| ==> xs[i].Snapshot?) && forall ev :: ev in xs <==> ev in ys
    ensures Level(Selected(Run(e, xs), roots)) == Level(Selected(Run(e, ys), roots))
  {
    forall i | 0 <= i < |ys| ensures ys[i].Snapshot? {
      assert ys[i] in xs;
    }
    SnapshotFold(e, xs, roots);
    SnapshotFold(e, ys, roots);
    FoldIsHighest(Level(Selected(e, roots)), xs, roots);
    FoldIsHighest(Level(Selected(e, roots)), ys, roots);
  }

  // ---------------------------------------------------------------- watermarks

  /** Every read watermark only moves forward. */
  predicate Forward(e: Entry, f: Entry) {
    f.viewedAt >= e.viewedAt && f.all.read >= e.all.read && f.roots.read >= e.roots.read && f.activityAt >= e.activityAt
  }

  lemma {:induction false} WatermarksAreMonotone(e: Entry, evs: seq<Event>, i: nat)
    requires i <= |evs| && forall j :: i <= j < |evs| ==> !evs[j].SetUnread?
    ensures Forward(Run(e, evs[..i]), Run(e, evs))
  {
    if i < |evs| {
      var front := evs[..|evs| - 1];
      assert front[..i] == evs[..i] && forall j :: i <= j < |front| ==> front[j] == evs[j];
      WatermarksAreMonotone(e, front, i);
      ForwardStep(Run(e, front), evs[|evs| - 1], Run(e, evs));
    } else {
      assert evs[..i] == evs;
    }
  }

  lemma ForwardStep(e: Entry, ev: Event, f: Entry)
    requires !ev.SetUnread? && f == Next(e, ev)
    ensures Forward(e, f)
  {
  }

  /** Synchronised, the server-side unread flag says precisely that the count is positive. */
  lemma SynchronizedFlagIsCount(e: Entry, at: nat, total: nat, rootTotal: Option<nat>, collapsed: bool)
    requires e.tracked
    ensures var f := Synchronized(e, at, total, rootTotal, collapsed);
      f.server.unread <==> UnreadCount(f, total, if rootTotal.Some? then rootTotal.value else 0, false) > 0
  {
  }

  /** Does a synchronised entry's flag agree with its count? `has`: a root total is known; `rootsOnly`: roots are asked for. */
  predicate FlagAgrees(e: Entry, at: nat, total: nat, rootTotal: nat, has: bool, collapsed: bool, rootsOnly: bool) {
    var f := Synchronized(e, at, total, if has then Some(rootTotal) else None, collapsed);
    f.server.unread <==> UnreadCount(f, total, if has then rootTotal else 0, rootsOnly) > 0
  }

  /** An unread reply with collapsed threads off: the flag, computed from all messages, is on, and no root is unread. */
  lemma UnreadReplyUncounted(e: Entry, at: nat)
    requires e.tracked && e.roots.known
    ensures !FlagAgrees(e, at, Level(e.all) + 1, Level(e.roots), true, false, true)
  {
    UnreadIsTotalBeyondLevel(Synchronized(e, at, Level(e.all) + 1, Some(Level(e.roots)), false),
                             Level(e.all) + 1, Level(e.roots), true);
  }

  /** An unread message and no root total: the flag is set, and the count of roots is zero. */
  lemma UnreadWithoutRootTotal(e: Entry, at: nat, collapsed: bool)
    requires e.tracked && e.roots.known
    ensures !FlagAgrees(e, at, Level(e.all) + 1, 0, false, collapsed, true)
  {
    UnreadIsTotalBeyondLevel(Synchronized(e, at, Level(e.all) + 1, None, collapsed), Level(e.all) + 1, 0, true);
  }

  /**
   * Asking for roots only may be another question than the flag answers: flag and count agree for all totals exactly
   * when roots are not asked for, or the flag is computed from root counts too, or there are no root counts.
   */
  lemma FlagAgreesExactly(e: Entry, at: nat, has: bool, collapsed: bool, rootsOnly: bool)
    requires e.tracked
    ensures (forall total, rootTotal :: FlagAgrees(e, at, total, rootTotal, has, collapsed, rootsOnly))
      <==> (!rootsOnly || (collapsed && has) || !e.roots.known)
  {
    if e.roots.known && rootsOnly && !has {
      UnreadWithoutRootTotal(e, at, collapsed);
    } else if e.roots.known && rootsOnly && !collapsed {
      UnreadReplyUncounted(e, at);
    }
  }

  // ---------------------------------------------------------------- reply activity

  /** Does this event consume reply activity: a set-unread, or a view outside root mode? */
  predicate Consumes(e: Entry, ev: Event) {
    ev.SetUnread? || (ev.View? && !e.rootMode)
  }

  /**
   * Reply activity outlives any run of root-mode views, posts and snapshots, and shows as soon as the channel falls
   * back to counting all messages, unless it is muted.
   */
  lemma {:induction false} ReplyActivityShowsAfterFallback(e: Entry, evs: seq<Event>)
    requires e.runtime.replies && e.tracked
    requires forall i :: 0 <= i < |evs| ==> !Consumes(Run(e, evs[..i]), evs[i])
    ensures var f := Run(e, evs);
      f.runtime.replies && f.tracked && (!f.rootMode && !f.muted ==> IsUnread(f))
  {
    if evs != [] {
      var front := evs[..|evs| - 1];
      forall i | 0 <= i < |front| ensures !Consumes(Run(e, front[..i]), front[i]) {
        assert front[..i] == evs[..i] && front[i] == evs[i];
      }
      ReplyActivityShowsAfterFallback(e, front);
      ReplyStep(Run(e, front), evs[|evs| - 1], Run(e, evs));
    }
  }

  lemma ReplyStep(e: Entry, ev: Event, f: Entry)
    requires e.runtime.replies && e.tracked && !Consumes(e, ev) && f == Next(e, ev)
    ensures f.runtime.replies && f.tracked
  {
  }

  // ---------------------------------------------------------------- as the tracker keeps it

  class ChannelActivityTracker {
    var entries: map<Id, Entry>

    constructor ()
      ensures entries == map[]
    {
      entries := map[];
    }

    function Get(channel: Id): Entry
      reads this
    {
      if channel in entries then entries[channel] else FRESH
    }

    method SetMembership(channel: Id, m: Membership)
      modifies this
      ensures entries == if channel == "" then old(entries) else old(entries)[channel := Member(old(Get(channel)), m)]
    {
      if channel == "" {
        return;
      }
      var e := Get(channel);
      var stale := e.all.known
        && (m.viewedAt < e.viewedAt || m.read < e.all.read
            || (m.rootRead.Some? && e.roots.known && m.rootRead.value < e.roots.read));
      var all, roots := e.all, e.roots;
      if all.known && m.read > all.read && all.credit > 0 {
        var acknowledged := m.read - all.read;
        all := all.(credit := all.credit - (if all.credit <= acknowledged then all.credit else acknowledged));
      }
      all := all.(read := AtLeast(all.read, m.read), known := true);
      if m.rootRead.Some? {
        if roots.known && m.rootRead.value > roots.read && roots.credit > 0 {
          var acknowledged := m.rootRead.value - roots.read;
          roots := roots.(credit := roots.credit - (if roots.credit <= acknowledged then roots.credit else acknowledged));
        }
        roots := roots.(read := AtLeast(roots.read, m.rootRead.value), known := true);
      }
      var server := e.server;
      if !stale {
        server := server.(mentions := m.mentions, rootMentions := m.rootMentions, hasRootMentions := m.hasRootMentions);
      }
      entries := entries[channel := e.(viewedAt := AtLeast(e.viewedAt, m.viewedAt), all := all, roots := roots,
                                       server := server, muted := m.muted, tracked := true)];
    }

    method SynchronizeChannel(channel: Id, at: nat, total: nat, rootTotal: Option<nat>, collapsed: bool)
      modifies this
      ensures entries == if channel !in old(entries) then old(entries)
                         else old(entries)[channel := Synchronized(old(Get(channel)), at, total, rootTotal, collapsed)]
    {
      if channel !in entries || !entries[channel].tracked {
        assert channel in entries ==> entries[channel := entries[channel]] == entries;
        return;
      }
      var e := entries[channel];
      var mode := collapsed && e.roots.known && rootTotal.Some?;
      var read, credit := if mode then e.roots.read else e.all.read, if mode then e.roots.credit else e.all.credit;
      var count := if mode then rootTotal.value else total;
      var server := e.server.(unread := count > read && count - read > credit);
      server := server.(mentioned := if mode && server.hasRootMentions then server.rootMentions > 0 else server.mentions > 0);
      entries := entries[channel := e.(activityAt := AtLeast(e.activityAt, at), rootMode := mode, server := server)];
    }

    method RecordPost(channel: Id, at: nat, own: bool, reply: bool, mentioned: bool)
      modifies this
      ensures entries == if channel == "" then old(entries)
        else old(entries)[channel := if own then OwnPost(old(Get(channel)), at, reply)
                                     else OtherPost(old(Get(channel)), at, reply, mentioned)]
    {
      if channel == "" {
        return;
      }
      var e := Get(channel);
      e := e.(tracked := true, activityAt := AtLeast(e.activityAt, at));
      if own {
        if e.all.known {
          e := e.(all := e.all.(credit := e.all.credit + 1));
        }
        if !reply && e.roots.known {
          e := e.(roots := e.roots.(credit := e.roots.credit + 1));
        }
      } else {
        var r := e.runtime;
        if mentioned {
          r := if reply then r.(replyMentioned := true) else r.(mentioned := true);
        }
        r := if reply then r.(replies := true) else r.(activity := true);
        e := e.(runtime := r);
      }
      entries := entries[channel := e];
    }

    method RecordViewed(channel: Id, at: nat, total: nat, rootTotal: Option<nat>)
      modifies this
      ensures entries == if channel == "" then old(entries)
                         else old(entries)[channel := Viewed(old(Get(channel)), at, total, rootTotal)]
    {
      if channel == "" {
        return;
      }
      var e := Get(channel);
      var s, r := e.server, e.runtime;
      e := e.(tracked := true, viewedAt := AtLeast(e.viewedAt, at));
      if rootTotal.Some? {
        e := e.(roots := Domain(AtLeast(e.roots.read, rootTotal.value), 0, true));
      }
      if e.rootMode {
        e := e.(server := s.(rootMentions := 0, unread := false, mentioned := false),
                runtime := r.(activity := false, mentioned := false));
      } else {
        e := e.(all := Domain(AtLeast(e.all.read, total), 0, true),
                server := s.(mentions := 0, rootMentions := 0, unread := false, mentioned := false),
                runtime := r.(activity := false, replies := false, mentioned := false, replyMentioned := false));
      }
      entries := entries[channel := e];
    }

    method MarkUnread(channel: Id, m: Membership)
      modifies this
      ensures entries == if channel == "" then old(entries)
                         else old(entries)[channel := MarkedUnread(old(Get(channel)), m)]
    {
      if channel == "" {
        return;
      }
      var e := Get(channel);
      e := e.(tracked := true, viewedAt := m.viewedAt, all := Domain(m.read, 0, true));
      if m.rootRead.Some? {
        e := e.(roots := Domain(m.rootRead.value, 0, true));
      }
      e := e.(roots := e.roots.(credit := 0));
      e := e.(server := Server(m.mentions, m.rootMentions, m.hasRootMentions, true,
                               if e.rootMode && m.hasRootMentions then m.rootMentions > 0 else m.mentions > 0),
              runtime := Runtime(false, false, false, false));
      entries := entries[channel := e];
    }
  }
}
