/** What the calls of the cache store leave behind, said of rows and their fields. */
module CacheContent {
  import opened Prelude
  import opened CacheTable
  import opened CacheModel
  import opened CacheRuns

  // ---------------------------------------------------------------- a stored reply

  /** The post has a name, and its channel was opened within the idle time. */
  predicate Wanted(s: State, p: Row)
    requires s.account.Some?
  {
    var k := (s.account.value, p.channel);
    p.id != "" && p.channel != "" && k in s.usage && s.now - s.usage[k] <= s.limits.idle
  }

  /** The i-th post of the reply is wanted, and no later one of its name is. */
  ghost predicate LastWanted(s: State, posts: seq<Row>, i: nat)
    requires s.account.Some?
  {
    i < |posts| && Wanted(s, posts[i]) && forall j :: i < j < |posts| && posts[j].id == posts[i].id ==> !Wanted(s, posts[j])
  }

  /** The row is the post as the reply brought it, of this account, written and used now. */
  predicate Brought(s: State, p: Row, x: Row)
    requires s.account.Some?
  {
    && x.account == s.account.value && x.id == p.id && x.channel == p.channel && x.root == p.root
    && x.createAt == p.createAt && x.size == p.size && x.readable && x.lastAccess == s.now && x.used == s.now
  }

  /** No wanted post of the reply names the row. */
  ghost predicate Unnamed(s: State, posts: seq<Row>, x: Row)
    requires s.account.Some?
  {
    x.account == s.account.value ==> forall i :: 0 <= i < |posts| && posts[i].id == x.id ==> !Wanted(s, posts[i])
  }

  /** The rows of a reply that are written. */
  function Rows(s: State, posts: seq<Row>): seq<Row>
    requires s.account.Some?
  {
    Admitted(posts, s.account.value, s.usage, s.now - s.limits.idle, s.now)
  }

  /** The row is what the last wanted post of its name brought. */
  ghost predicate FromReply(s: State, posts: seq<Row>, x: Row)
    requires s.account.Some?
  {
    exists i: nat :: LastWanted(s, posts, i) && Brought(s, posts[i], x)
  }

  ghost predicate Present(s: State, p: Row, t: seq<Row>)
    requires s.account.Some?
  {
    exists x :: x in t && Brought(s, p, x)
  }

  /** The table with the reply in it, before the limits are enforced. */
  ghost predicate Holding(s: State, posts: seq<Row>, t: seq<Row>)
    requires s.account.Some?
  {
    && Listed(t)
    && (forall x :: x in t ==> FromReply(s, posts, x) || (x in s.table && Unnamed(s, posts, x)))
    && (forall x :: x in s.table && Unnamed(s, posts, x) ==> x in t)
    && (forall i: nat :: LastWanted(s, posts, i) ==> Present(s, posts[i], t))
  }

  lemma LastWantedShorter(s: State, posts: seq<Row>, i: nat)
    requires s.account.Some? && posts != [] && i < |posts| - 1
    ensures LastWanted(s, posts, i)
      <==> LastWanted(s, posts[..|posts| - 1], i) && !(Wanted(s, posts[|posts| - 1]) && posts[|posts| - 1].id == posts[i].id)
  {
    var front := posts[..|posts| - 1];
    assert forall j :: 0 <= j < |front| ==> front[j] == posts[j];
  }

  /** The last post of the reply names the row and is wanted. */
  predicate NamedLast(s: State, posts: seq<Row>, x: Row)
    requires s.account.Some? && posts != []
  {
    var p := posts[|posts| - 1];
    x.account == s.account.value && p.id == x.id && Wanted(s, p)
  }

  lemma UnnamedShorter(s: State, posts: seq<Row>, x: Row)
    requires s.account.Some? && posts != []
    ensures Unnamed(s, posts, x) <==> Unnamed(s, posts[..|posts| - 1], x) && !NamedLast(s, posts, x)
  {
    var front := posts[..|posts| - 1];
    assert forall j :: 0 <= j < |front| ==> front[j] == posts[j];
    assert posts == front + [posts[|posts| - 1]];
  }

  /** What an earlier post brought is from the reply still, unless the last post replaces it. */
  lemma FromReplyShorter(s: State, posts: seq<Row>, x: Row)
    requires s.account.Some? && posts != [] && !NamedLast(s, posts, x)
    ensures FromReply(s, posts[..|posts| - 1], x) ==> FromReply(s, posts, x)
  {
    var front := posts[..|posts| - 1];
    if FromReply(s, front, x) {
      var i: nat :| LastWanted(s, front, i) && Brought(s, front[i], x);
      assert posts[i] == front[i];
      LastWantedShorter(s, posts, i);
      assert LastWanted(s, posts, i);
    }
  }

  /** A table that holds the front of a reply, and one with its last post in it where that is wanted. */
  predicate LastAdded(s: State, posts: seq<Row>, t: seq<Row>, u: seq<Row>, y: Row)
    requires s.account.Some? && posts != []
  {
    var p := posts[|posts| - 1];
    if Wanted(s, p) then Brought(s, p, y) && u == Upsert(t, y) else u == t
  }

  lemma AddedRows(s: State, posts: seq<Row>, t: seq<Row>, u: seq<Row>, y: Row)
    requires s.account.Some? && posts != [] && Listed(t) && LastAdded(s, posts, t, u, y)
    ensures Listed(u)
    ensures forall x :: x in u <==> (x in t && !NamedLast(s, posts, x)) || (x == y && Wanted(s, posts[|posts| - 1]))
  {
    UpsertListed(t, y);
  }

  lemma AddedFrom(s: State, posts: seq<Row>, t: seq<Row>, u: seq<Row>, y: Row, x: Row)
    requires s.account.Some? && posts != [] && Holding(s, posts[..|posts| - 1], t) && LastAdded(s, posts, t, u, y)
    ensures x in u ==> FromReply(s, posts, x) || (x in s.table && Unnamed(s, posts, x))
    ensures x in s.table && Unnamed(s, posts, x) ==> x in u
  {
    AddedRows(s, posts, t, u, y);
    UnnamedShorter(s, posts, x);
    if x in u && x == y && Wanted(s, posts[|posts| - 1]) {
      assert LastWanted(s, posts, |posts| - 1);
    } else if x in u {
      FromReplyShorter(s, posts, x);
    }
  }

  lemma AddedPresent(s: State, posts: seq<Row>, t: seq<Row>, u: seq<Row>, y: Row, i: nat)
    requires s.account.Some? && posts != [] && Holding(s, posts[..|posts| - 1], t) && LastAdded(s, posts, t, u, y)
    requires LastWanted(s, posts, i)
    ensures Present(s, posts[i], u)
  {
    AddedRows(s, posts, t, u, y);
    if i == |posts| - 1 {
      assert y in u;
    } else {
      LastWantedShorter(s, posts, i);
      assert Present(s, posts[..|posts| - 1][i], t) && posts[..|posts| - 1][i] == posts[i];
      var x :| x in t && Brought(s, posts[i], x);
      assert x in u;
    }
  }

  lemma AddedHolds(s: State, posts: seq<Row>, t: seq<Row>, u: seq<Row>, y: Row)
    requires s.account.Some? && posts != [] && Holding(s, posts[..|posts| - 1], t) && LastAdded(s, posts, t, u, y)
    ensures Holding(s, posts, u)
  {
    AddedRows(s, posts, t, u, y);
    forall x
      ensures x in u ==> FromReply(s, posts, x) || (x in s.table && Unnamed(s, posts, x))
      ensures x in s.table && Unnamed(s, posts, x) ==> x in u
    {
      AddedFrom(s, posts, t, u, y, x);
    }
    forall i: nat | LastWanted(s, posts, i) ensures Present(s, posts[i], u) {
      AddedPresent(s, posts, t, u, y, i);
    }
  }

  lemma {:induction false} WrittenHolds(s: State, posts: seq<Row>)
    requires s.account.Some? && Listed(s.table)
    ensures Holding(s, posts, UpsertAll(s.table, Rows(s, posts)))
  {
    if posts != [] {
      var (front, p) := (posts[..|posts| - 1], posts[|posts| - 1]);
      WrittenHolds(s, front);
      var (rows, y) := (Rows(s, front), Fresh(p, s.account.value, s.now));
      assert (rows + [y])[..|rows|] == rows;
      AddedHolds(s, posts, UpsertAll(s.table, rows), UpsertAll(s.table, Rows(s, posts)), y);
    }
  }

  // ---------------------------------------------------------------- what pruning may take

  lemma {:induction false} TrimmedSmaller(t: seq<Row>, max: nat, gs: set<Thread>)
    ensures |Trimmed(t, max, gs)| <= |t| && Bytes(Trimmed(t, max, gs)) <= Bytes(t)
  {
    if t != [] {
      TrimmedSmaller(t[1..], max, gs);
    }
  }

  /** The row's thread has too many replies, or there are too many rows or bytes. */
  predicate TooMuch(t: seq<Row>, l: Limits, x: Row) {
    (x.root != "" && Count(t, ThreadOf(x)) > l.thread) || |t| > l.posts || Bytes(t) > l.bytes
  }

  /** A row goes only for cause. */
  lemma PrunedForCause(t: seq<Row>, l: Limits, x: Row)
    requires x in t && x !in Pruned(t, l)
    ensures TooMuch(t, l, x)
  {
    TrimmedMembers(t, l.thread, Overfull(t, l.thread));
    TrimmedSmaller(t, l.thread, Overfull(t, l.thread));
    if ThreadOf(x) in Overfull(t, l.thread) {
      var y :| y in t && y.root != "" && Count(t, ThreadOf(y)) > l.thread && ThreadOf(y) == ThreadOf(x);
    }
  }

  lemma SuffixSize(t: seq<Row>, k: nat)
    requires k <= |t|
    ensures |t[k..]| == |t| - k
  {
  }

  /** An exceeded limit is undercut by a twentieth, and with one row more some target would not be met. */
  lemma PrunedToTarget(t: seq<Row>, maxPosts: nat, maxBytes: nat)
    requires maxPosts >= 1 && maxBytes >= 1 && !Fits(t, maxPosts, maxBytes)
    ensures var (r, k) := (GlobalPruned(t, maxPosts, maxBytes), |t| - |GlobalPruned(t, maxPosts, maxBytes)|);
      && 0 < k <= |t| && r == t[k..]
      && (|t| > maxPosts ==> |r| <= 1 || 100 * |r| <= 95 * maxPosts)
      && (Bytes(t) > maxBytes ==> Bytes(r) <= 1 || 100 * Bytes(r) <= 95 * maxBytes)
      && ((|t| > maxPosts && 100 * (|r| + 1) > 95 * maxPosts) || |r| + 1 > maxPosts
          || (Bytes(t) > maxBytes && 100 * Bytes(t[k - 1..]) > 95 * maxBytes) || Bytes(t[k - 1..]) > maxBytes)
  {
    var (p, b) := (Target(|t|, maxPosts), Target(Bytes(t), maxBytes));
    var k := Excess(t, p, b);
    ExcessIsShortest(t, p, b, if k > 0 then k - 1 else 0);
    assert t[0..] == t;
    SuffixSize(t, k);
  }

  /**
   * A reply that is stored is there as it came: every row afterwards is the last wanted post of its name, of the
   * account in use, or was there and is named by no wanted post; and of those each is there unless its thread, the
   * rows or the bytes with the reply in them exceed their limit.
   */
  lemma StoredShows(s: State, posts: seq<Row>, v: State) returns (t: seq<Row>)
    requires Listed(s.table) && s.account.Some? && v == Next(s, Storing(posts, true))
    ensures Holding(s, posts, t) && (forall x :: x in v.table ==> x in t)
    ensures forall x :: x in t && x !in v.table ==> TooMuch(t, s.limits, x)
    ensures v == s.(table := v.table)
  {
    WrittenHolds(s, posts);
    t := UpsertAll(s.table, Rows(s, posts));
    if Rows(s, posts) != [] {
      forall x | x in v.table ensures x in t {
        PrunedFrom(t, s.limits, x);
      }
      forall x | x in t && x !in v.table ensures TooMuch(t, s.limits, x) {
        PrunedForCause(t, s.limits, x);
      }
    }
  }

  // ---------------------------------------------------------------- one row

  /** A deletion takes the row of that name in the account in use, and no other. */
  lemma RemovedExactly(s: State, id: Id, v: State, x: Row)
    requires v == Next(s, Removing(id))
    ensures x in v.table <==> x in s.table && !(id != "" && s.account == Some(x.account) && x.id == id)
    ensures v == s.(table := v.table)
  {
    if s.account.Some? && id != "" {
      DeleteMembers(s.table, s.account.value, id);
    }
  }

  /** The row as a read at this time leaves it: its access time moves once it is more than a minute behind. */
  predicate ReadAt(x: Row, y: Row, now: int) {
    && SamePost(x, y) && y.createAt == x.createAt && y.size == x.size && y.readable && y.used == now
    && y.lastAccess == if now - x.lastAccess > 60_000 then now else x.lastAccess
  }

  /** The row has been read by now. */
  ghost predicate Marked(t: seq<Row>, x: Row, now: int) {
    exists y :: y in t && ReadAt(x, y, now)
  }

  lemma ReadOneMarks(t: seq<Row>, a: nat, id: Id, now: int, x: Row)
    requires Listed(t) && x in t
    ensures Listed(Read(t, a, id, now))
    ensures SameKey(x, a, id) && x.readable ==> Marked(Read(t, a, id, now), x, now)
    ensures !(SameKey(x, a, id) && x.readable) ==> x in Read(t, a, id, now)
  {
    FindIs(t, a, id);
    match Find(t, a, id)
    case None =>
    case Some(z) =>
      UpsertListed(t, Touched(z, now));
      if SameKey(x, a, id) {
        OneRow(t, x, Find(t, a, id));
        assert x.readable ==> ReadAt(x, Touched(x, now), now);
      }
  }

  /** A read marks the row it finds and leaves every other alone; what cannot be read is left alone too. */
  lemma ReadMarks(s: State, id: Id, v: State, x: Row)
    requires Listed(s.table) && v == Next(s, Reading(id)) && s.account.Some? && id != "" && x in s.table
    ensures SameKey(x, s.account.value, id) && x.readable ==> Marked(v.table, x, s.now)
    ensures !(SameKey(x, s.account.value, id) && x.readable) ==> x in v.table
    ensures |v.table| == |s.table|
  {
    ReadOneMarks(s.table, s.account.value, id, s.now, x);
    ReadParts(s.table, s.account.value, id, s.now, ThreadOf(x));
  }

  lemma MarkedTwice(t: seq<Row>, x: Row, y: Row, now: int)
    requires ReadAt(x, y, now) && (y in t || Marked(t, y, now))
    ensures Marked(t, x, now)
  {
    assert forall z :: ReadAt(y, z, now) ==> ReadAt(x, z, now);
  }

  /** The row is as it was or marked, and marked if it is there to be read at this place of the window. */
  ghost predicate Used(u: seq<Row>, x: Row, now: int, here: bool) {
    (x in u && !here) || Marked(u, x, now)
  }

  predicate At(x: Row, a: nat, w: seq<Id>, i: nat) {
    i < |w| && SameKey(x, a, w[i]) && x.readable
  }

  /** Reading back through a window marks the rows it passes, and leaves every other one as it was or marked. */
  lemma {:induction false} BackFromMarks(t: seq<Row>, a: nat, w: seq<Id>, first: nat, channel: Id, root: Id, n: nat,
                                         now: int, x: Row, i: nat, r: (seq<Row>, nat))
    requires Listed(t) && first <= |w| && x in t && r == BackFrom(t, a, w, first, channel, root, n, now)
    ensures Used(r.0, x, now, r.1 <= i < first && At(x, a, w, i))
    decreases first, 0
  {
    if first > 0 && n > 0 {
      var t' := Read(t, a, w[first - 1], now);
      ReadOneMarks(t, a, w[first - 1], now, x);
      if Usable(t, a, w[first - 1], channel, root) {
        BackFromMore(t', a, w, first - 1, channel, root, n - 1, now, x, i, r);
      }
    }
  }

  lemma {:induction false} BackFromMore(t: seq<Row>, a: nat, w: seq<Id>, first: nat, channel: Id, root: Id, n: nat,
                                        now: int, x: Row, i: nat, r: (seq<Row>, nat))
    requires Listed(t) && first < |w| && r == BackFrom(t, a, w, first, channel, root, n, now)
    requires Marked(t, x, now) || (x in t && !At(x, a, w, first))
    ensures Used(r.0, x, now, r.1 <= i <= first && At(x, a, w, i))
    decreases first, 1
  {
    if Marked(t, x, now) {
      var y :| y in t && ReadAt(x, y, now);
      BackFromMarks(t, a, w, first, channel, root, n, now, y, i, r);
      MarkedTwice(r.0, x, y, now);
    } else {
      BackFromMarks(t, a, w, first, channel, root, n, now, x, i, r);
    }
  }

  /** Showing a window uses every row it shows, and changes no row in any other way. */
  lemma ShowingMarks(s: State, channel: Id, root: Id, limit: nat, v: State, x: Row)
    requires Listed(s.table) && v == Next(s, Showing(channel, root, limit)) && s.account.Some? && x in s.table
    ensures Used(v.table, x, s.now, x.account == s.account.value && x.readable && x.id in Shown(s, channel, root, limit))
  {
    var (w, a, shown) := (Window(s, channel, root), s.account.value, Shown(s, channel, root, limit));
    var r := BackFrom(s.table, a, w, |w|, channel, root, limit, s.now);
    BackFromEnds(s.table, a, w, |w|, channel, root, limit, s.now);
    assert w[..|w|] == w;
    var j := if x.id in shown then var j :| 0 <= j < |shown| && shown[j] == x.id; j else 0;
    BackFromMarks(s.table, a, w, |w|, channel, root, limit, s.now, x, r.1 + j, r);
  }

  // ---------------------------------------------------------------- channels

  /** The post is named and of this channel. */
  predicate Of(p: Row, channel: Id) {
    p.id != "" && p.channel == channel != ""
  }

  /** Opening a channel makes its posts wanted for the idle time, and no report moves that back. */
  lemma OpenedIsWanted(s: State, channel: Id, at: int, v: State, p: Row)
    requires v == Next(s, Opening(channel, at)) && s.account.Some?
    ensures Of(p, channel) && at <= 0 ==> Wanted(v, p)
    ensures Of(p, channel) && at > 0 ==> Wanted(v, p) == (Wanted(s, p) || s.now - at <= s.limits.idle)
    ensures !Of(p, channel) ==> Wanted(v, p) == Wanted(s, p)
    ensures Wanted(s, p) ==> Wanted(v, p)
    ensures v == s.(usage := v.usage)
  {
  }

  /** The channel was opened within the idle time. */
  predicate InUse(usage: map<(nat, Id), int>, now: int, idle: nat, k: (nat, Id)) {
    k in usage && now - usage[k] <= idle
  }

  /** After maintenance, or a change of limits, only rows and windows of channels in use are there, unchanged. */
  lemma MaintainedInUse(s: State, a: Action, v: State, x: Row, g: Thread)
    requires (a.Maintaining? || a.Limiting?) && v == Next(s, a)
    ensures v.limits == (if a.Limiting? then a.limits else s.limits) && v.now == s.now && v.account == s.account
    ensures x in v.table ==> x in s.table && InUse(s.usage, s.now, v.limits.idle, (x.account, x.channel))
    ensures g in v.windows <==> (g in s.windows && InUse(s.usage, s.now, v.limits.idle, (g.account, g.channel)))
    ensures g in v.windows ==> v.windows[g] == s.windows[g]
  {
    var (u, cutoff) := (s.(limits := v.limits), s.now - v.limits.idle);
    MaintainedIs(s, a, v);
    if x in v.table {
      CleanedFrom(u, x);
      PrunedFrom(Active(s.table, s.usage, cutoff), v.limits, x);
      ActiveMembers(s.table, s.usage, cutoff, x);
    }
  }

  /** And no row of a channel in use goes, unless a limit was exceeded. */
  lemma MaintainedKeeps(s: State, a: Action, v: State, x: Row)
    requires (a.Maintaining? || a.Limiting?) && v == Next(s, a) && x in s.table && x !in v.table
    requires InUse(s.usage, s.now, v.limits.idle, (x.account, x.channel))
    ensures TooMuch(s.table, v.limits, x)
  {
    MaintainedIs(s, a, v);
    CleanedKeeps(s.(limits := v.limits), x);
  }

  lemma MaintainedIs(s: State, a: Action, v: State)
    requires (a.Maintaining? || a.Limiting?) && v == Next(s, a)
    ensures v == Cleaned(s.(limits := v.limits))
  {
  }

  lemma CleanedKeeps(s: State, x: Row)
    requires x in s.table && x !in Cleaned(s).table
    requires InUse(s.usage, s.now, s.limits.idle, (x.account, x.channel))
    ensures TooMuch(s.table, s.limits, x)
  {
    var cutoff := s.now - s.limits.idle;
    LostForCause(s.table, s.usage, cutoff, s.limits, x, Active(s.table, s.usage, cutoff));
  }

  lemma LostForCause(t: seq<Row>, usage: map<(nat, Id), int>, cutoff: int, l: Limits, x: Row, u: seq<Row>)
    requires u == Active(t, usage, cutoff) && x in t && x !in Pruned(u, l)
    requires (x.account, x.channel) in usage && usage[(x.account, x.channel)] >= cutoff
    ensures TooMuch(t, l, x)
  {
    ActiveMembers(t, usage, cutoff, x);
    PrunedForCause(u, l, x);
    ActiveSmaller(t, usage, cutoff, ThreadOf(x));
  }

  lemma {:induction false} ActiveSmaller(t: seq<Row>, usage: map<(nat, Id), int>, cutoff: int, g: Thread)
    ensures var r := Active(t, usage, cutoff);
      |r| <= |t| && Bytes(r) <= Bytes(t) && Count(r, g) <= Count(t, g)
  {
    if t != [] {
      ActiveSmaller(t[1..], usage, cutoff, g);
    }
  }
}
