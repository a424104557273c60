/** The cache store over whole runs: its limits, where its rows come from, and what a tail window shows. */
module CacheRuns {
  import opened Prelude
  import opened CacheTable
  import opened Joins
  import opened CacheModel

  // ---------------------------------------------------------------- reading changes no size

  lemma {:induction false} DeleteNothing(t: seq<Row>, a: nat, id: Id)
    requires forall x :: x in t ==> !SameKey(x, a, id)
    ensures Delete(t, a, id) == t
  {
    if t != [] {
      DeleteNothing(t[1..], a, id);
    }
  }

  /** Deleting takes out one row at most. */
  lemma {:induction false} DeleteParts(t: seq<Row>, a: nat, id: Id, g: Thread)
    requires Listed(t)
    ensures var (r, found) := (Delete(t, a, id), Find(t, a, id));
      && |r| + (if found.Some? then 1 else 0) == |t|
      && Bytes(r) + (if found.Some? then found.value.size else 0) == Bytes(t)
      && Count(r, g) + (if found.Some? && ThreadOf(found.value) == g then 1 else 0) == Count(t, g)
  {
    if t != [] {
      Tail(t);
      if SameKey(t[0], a, id) {
        DeleteNothing(t[1..], a, id);
      } else {
        DeleteParts(t[1..], a, id, g);
      }
    }
  }

  lemma {:induction false} PlaceParts(t: seq<Row>, x: Row, g: Thread)
    ensures |Place(t, x)| == |t| + 1 && Bytes(Place(t, x)) == Bytes(t) + x.size
    ensures Count(Place(t, x), g) == Count(t, g) + (if ThreadOf(x) == g then 1 else 0)
  {
    if !(t == [] || RowBefore(x, t[0])) {
      PlaceParts(t[1..], x, g);
    }
  }

  /** The tables have as many rows, bytes, and posts of this timeline. */
  predicate SameParts(t: seq<Row>, u: seq<Row>, g: Thread) {
    |u| == |t| && Bytes(u) == Bytes(t) && Count(u, g) == Count(t, g)
  }

  lemma ReplaceParts(t: seq<Row>, x: Row, y: Row, g: Thread)
    requires Listed(t) && Find(t, x.account, x.id) == Some(x) && y.size == x.size && ThreadOf(y) == ThreadOf(x) && y.id == x.id
    ensures SameParts(t, Upsert(t, y), g)
  {
    DeleteParts(t, x.account, x.id, g);
    PlaceParts(Delete(t, x.account, x.id), y, g);
  }

  lemma ReadParts(t: seq<Row>, a: nat, id: Id, now: int, g: Thread)
    requires Listed(t)
    ensures SameParts(t, Read(t, a, id, now), g)
  {
    FindIs(t, a, id);
    if Readable(t, a, id).Some? {
      var x := Find(t, a, id).value;
      ReplaceParts(t, x, Touched(x, now), g);
    }
  }

  // ---------------------------------------------------------------- the limits hold at every moment

  ghost predicate Within(t: seq<Row>, l: Limits) {
    Fits(t, l.posts, l.bytes) && forall g: Thread :: g.root != "" ==> Count(t, g) <= l.thread
  }

  ghost predicate TableOk(t: seq<Row>, now: int) {
    Listed(t) && AllCoarse(t, now)
  }

  /** Both hard limits and every thread's hold, and a stored access time is within a minute of the real one. */
  ghost predicate Sound(t: seq<Row>, l: Limits, now: int) {
    TableOk(t, now) && Within(t, l)
  }

  ghost predicate Safe(s: State) {
    Sound(s.table, s.limits, s.now)
  }

  lemma ReadOk(t: seq<Row>, a: nat, id: Id, now: int)
    requires TableOk(t, now)
    ensures TableOk(Read(t, a, id, now), now)
  {
    TouchListed(t, a, id, now);
    TouchCoarse(t, a, id, now, now);
  }

  lemma {:induction false} BackFromOk(t: seq<Row>, a: nat, w: seq<Id>, first: nat, channel: Id, root: Id, n: nat, now: int)
    requires TableOk(t, now) && first <= |w|
    ensures TableOk(BackFrom(t, a, w, first, channel, root, n, now).0, now)
    decreases first
  {
    if first > 0 && n > 0 {
      ReadOk(t, a, w[first - 1], now);
      if Usable(t, a, w[first - 1], channel, root) {
        BackFromOk(Read(t, a, w[first - 1], now), a, w, first - 1, channel, root, n - 1, now);
      }
    }
  }

  lemma {:induction false} BackFromParts(t: seq<Row>, a: nat, w: seq<Id>, first: nat, channel: Id, root: Id, n: nat,
                                         now: int, g: Thread)
    requires Listed(t) && first <= |w|
    ensures SameParts(t, BackFrom(t, a, w, first, channel, root, n, now).0, g)
    decreases first
  {
    if first > 0 && n > 0 {
      TouchListed(t, a, w[first - 1], now);
      ReadParts(t, a, w[first - 1], now, g);
      if Usable(t, a, w[first - 1], channel, root) {
        BackFromParts(Read(t, a, w[first - 1], now), a, w, first - 1, channel, root, n - 1, now, g);
      }
    }
  }

  /** Reading leaves a table as sound as it was. */
  lemma SoundAfter(t: seq<Row>, u: seq<Row>, l: Limits, now: int)
    requires Sound(t, l, now) && TableOk(u, now) && forall g :: SameParts(t, u, g)
    ensures Sound(u, l, now)
  {
    assert SameParts(t, u, Thread(0, "", ""));
    forall g: Thread | g.root != "" ensures Count(u, g) <= l.thread {
      assert SameParts(t, u, g);
    }
  }

  lemma DeleteOk(t: seq<Row>, a: nat, id: Id, l: Limits, now: int)
    requires Sound(t, l, now)
    ensures Sound(Delete(t, a, id), l, now)
  {
    DeleteListed(t, a, id);
    DeleteMembers(t, a, id);
    DeleteParts(t, a, id, Thread(0, "", ""));
    forall g: Thread | g.root != "" ensures Count(Delete(t, a, id), g) <= Count(t, g) {
      DeleteParts(t, a, id, g);
    }
  }

  /** Pruning ends within every limit, whatever it begins with. */
  lemma PrunedOk(t: seq<Row>, l: Limits, now: int)
    requires TableOk(t, now)
    ensures Sound(Pruned(t, l), l, now)
  {
    var u := ThreadPruned(t, l.thread);
    TrimmedListed(t, l.thread, Overfull(t, l.thread));
    TrimmedMembers(t, l.thread, Overfull(t, l.thread));
    var k := PrunedSuffix(u, l);
    SuffixListed(u, k);
    GlobalBounds(u, l.posts, l.bytes);
    forall g: Thread | g.root != "" ensures Count(Pruned(t, l), g) <= l.thread {
      ThreadBounds(t, l.thread, g);
      SuffixCount(u, k, g);
    }
  }

  lemma PrunedSuffix(u: seq<Row>, l: Limits) returns (k: nat)
    ensures k <= |u| && GlobalPruned(u, l.posts, l.bytes) == u[k..]
  {
    assert u[0..] == u;
    k := |u| - |GlobalPruned(u, l.posts, l.bytes)|;
  }

  lemma CleanedSafe(s: State)
    requires TableOk(s.table, s.now)
    ensures Safe(Cleaned(s))
  {
    var cutoff := s.now - s.limits.idle;
    ActiveListed(s.table, s.usage, cutoff);
    ActiveCoarse(s.table, s.usage, cutoff, s.now);
    PrunedOk(Active(s.table, s.usage, cutoff), s.limits, s.now);
  }

  lemma StoringSafe(s: State, posts: seq<Row>, ok: bool)
    requires Safe(s)
    ensures Safe(Stored(s, posts, ok))
  {
    if s.account.Some? {
      var cutoff := s.now - s.limits.idle;
      AdmittedCoarse(posts, s.account.value, s.usage, cutoff, s.now);
      var rows := Admitted(posts, s.account.value, s.usage, cutoff, s.now);
      UpsertAllOk(s.table, rows, s.now);
      PrunedOk(UpsertAll(s.table, rows), s.limits, s.now);
    }
  }

  lemma ReadingSafe(s: State, a: nat, id: Id)
    requires Safe(s)
    ensures Safe(s.(table := Read(s.table, a, id, s.now)))
  {
    ReadOk(s.table, a, id, s.now);
    forall g ensures SameParts(s.table, Read(s.table, a, id, s.now), g) {
      ReadParts(s.table, a, id, s.now, g);
    }
    SoundAfter(s.table, Read(s.table, a, id, s.now), s.limits, s.now);
  }

  lemma ShowingSafe(s: State, a: nat, w: seq<Id>, channel: Id, root: Id, limit: nat)
    requires Safe(s)
    ensures Safe(s.(table := BackFrom(s.table, a, w, |w|, channel, root, limit, s.now).0))
  {
    var u := BackFrom(s.table, a, w, |w|, channel, root, limit, s.now).0;
    BackFromOk(s.table, a, w, |w|, channel, root, limit, s.now);
    forall g ensures SameParts(s.table, u, g) {
      BackFromParts(s.table, a, w, |w|, channel, root, limit, s.now, g);
    }
    SoundAfter(s.table, u, s.limits, s.now);
  }

  lemma NextSafe(s: State, a: Action)
    requires Safe(s)
    ensures Safe(Next(s, a))
  {
    match a
    case Storing(posts, ok) => StoringSafe(s, posts, ok);
    case Removing(id) =>
      if s.account.Some? {
        DeleteOk(s.table, s.account.value, id, s.limits, s.now);
      }
    case Reading(id) =>
      if s.account.Some? {
        ReadingSafe(s, s.account.value, id);
      }
    case Showing(channel, root, limit) =>
      if s.account.Some? {
        ShowingSafe(s, s.account.value, Window(s, channel, root), channel, root, limit);
      }
    case Limiting(limits) => CleanedSafe(s.(limits := limits));
    case Maintaining => CleanedSafe(s);
    case _ =>
  }

  predicate Initial(s: State) {
    s.table == [] && s.windows == map[] && s.usage == map[] && s.account == None
  }

  ghost predicate IsRun(ss: seq<State>, acts: seq<Action>) {
    && |ss| == |acts| + 1 && Initial(ss[0])
    && forall i :: 0 <= i < |acts| ==> Step(ss[i], acts[i], ss[i + 1])
  }

  ghost predicate Step(s: State, a: Action, t: State) {
    t == Next(s, a)
  }

  /** Over every run of stores, removals, reads, limit changes and maintenance the cache is within all its limits. */
  lemma {:induction false} RunSafe(ss: seq<State>, acts: seq<Action>, i: nat)
    requires IsRun(ss, acts) && i < |ss|
    ensures Safe(ss[i])
  {
    if i > 0 {
      RunSafe(ss, acts, i - 1);
      assert Step(ss[i - 1], acts[i - 1], ss[i]);
      NextSafe(ss[i - 1], acts[i - 1]);
    }
  }

  // ---------------------------------------------------------------- where the rows come from

  /** Same post of the same timeline of the same account. */
  predicate SamePost(x: Row, y: Row) {
    x.account == y.account && x.id == y.id && x.channel == y.channel && x.root == y.root
  }

  ghost predicate Holds(t: seq<Row>, x: Row) {
    exists y :: y in t && SamePost(x, y)
  }

  /** The action stores this post, in this timeline, for this account. */
  ghost predicate Stores(s: State, a: Action, x: Row) {
    a.Storing? && a.ok && s.account == Some(x.account)
    && exists p :: p in a.posts && p.id == x.id && p.channel == x.channel && p.root == x.root
  }

  predicate Removes(s: State, a: Action, x: Row) {
    a == Removing(x.id) && x.id != "" && s.account == Some(x.account)
  }

  lemma {:induction false} AdmittedFrom(posts: seq<Row>, a: nat, usage: map<(nat, Id), int>, cutoff: int, now: int, x: Row)
    requires x in Admitted(posts, a, usage, cutoff, now)
    ensures x.account == a && x.id != "" && exists p :: p in posts && p.id == x.id && p.channel == x.channel && p.root == x.root
  {
    var (front, last) := (posts[..|posts| - 1], posts[|posts| - 1]);
    assert posts == front + [last];
    if x in Admitted(front, a, usage, cutoff, now) {
      AdmittedFrom(front, a, usage, cutoff, now, x);
    } else {
      assert last in posts;
    }
  }

  lemma {:induction false} UpsertedFrom(t: seq<Row>, xs: seq<Row>, y: Row)
    requires y in UpsertAll(t, xs)
    ensures y in t || y in xs
  {
    if xs != [] {
      var (front, last) := (xs[..|xs| - 1], xs[|xs| - 1]);
      assert xs == front + [last];
      DeleteMembers(UpsertAll(t, front), last.account, last.id);
      PlaceMembers(Delete(UpsertAll(t, front), last.account, last.id), last);
      if y != last {
        UpsertedFrom(t, front, y);
      }
    }
  }

  lemma PrunedFrom(t: seq<Row>, l: Limits, y: Row)
    requires y in Pruned(t, l)
    ensures y in t
  {
    TrimmedMembers(t, l.thread, Overfull(t, l.thread));
    var k := PrunedSuffix(ThreadPruned(t, l.thread), l);
  }

  lemma ReadFrom(t: seq<Row>, a: nat, id: Id, now: int, y: Row)
    requires Listed(t) && y in Read(t, a, id, now)
    ensures Holds(t, y)
  {
    FindIs(t, a, id);
    match Find(t, a, id)
    case None =>
    case Some(x) =>
      UpsertListed(t, Touched(x, now));
      assert SamePost(Touched(x, now), x) && SamePost(y, y);
  }

  lemma HoldsTwice(t: seq<Row>, t': seq<Row>, y: Row)
    requires Holds(t', y) && forall z :: z in t' ==> Holds(t, z)
    ensures Holds(t, y)
  {
    var z :| z in t' && SamePost(y, z);
    var x :| x in t && SamePost(z, x);
    assert SamePost(y, x);
  }

  lemma {:induction false} BackFromHolds(t: seq<Row>, a: nat, w: seq<Id>, first: nat, channel: Id, root: Id, n: nat,
                                        now: int, y: Row)
    requires Listed(t) && first <= |w| && y in BackFrom(t, a, w, first, channel, root, n, now).0
    ensures Holds(t, y)
    decreases first
  {
    if first > 0 && n > 0 {
      var t' := Read(t, a, w[first - 1], now);
      ReadListed(t, a, w[first - 1], now);
      if Usable(t, a, w[first - 1], channel, root) {
        BackFromHolds(t', a, w, first - 1, channel, root, n - 1, now, y);
        HoldsTwice(t, t', y);
      }
    } else {
      assert SamePost(y, y);
    }
  }

  lemma ReadListed(t: seq<Row>, a: nat, id: Id, now: int)
    requires Listed(t)
    ensures Listed(Read(t, a, id, now)) && forall z :: z in Read(t, a, id, now) ==> Holds(t, z)
  {
    TouchListed(t, a, id, now);
    forall z | z in Read(t, a, id, now) ensures Holds(t, z) {
      ReadFrom(t, a, id, now, z);
    }
  }

  lemma CleanedFrom(s: State, y: Row)
    requires y in Cleaned(s).table
    ensures y in s.table
  {
    var cutoff := s.now - s.limits.idle;
    PrunedFrom(Active(s.table, s.usage, cutoff), s.limits, y);
    ActiveMembers(s.table, s.usage, cutoff, y);
  }

  lemma StoredFrom(s: State, posts: seq<Row>, ok: bool, x: Row)
    requires x in Stored(s, posts, ok).table && x !in s.table
    ensures Stores(s, Storing(posts, ok), x)
  {
    var cutoff := s.now - s.limits.idle;
    var rows := Admitted(posts, s.account.value, s.usage, cutoff, s.now);
    PrunedFrom(UpsertAll(s.table, rows), s.limits, x);
    UpsertedFrom(s.table, rows, x);
    AdmittedFrom(posts, s.account.value, s.usage, cutoff, s.now, x);
  }

  lemma RemovedFrom(s: State, id: Id, x: Row)
    requires x in Next(s, Removing(id)).table
    ensures x in s.table && !Removes(s, Removing(id), x)
  {
    if s.account.Some? && id != "" {
      DeleteMembers(s.table, s.account.value, id);
    }
  }

  /** A row after a step was there before, and not removed, or the step stored it. */
  lemma StepFrom(s: State, a: Action, x: Row)
    requires Listed(s.table) && x in Next(s, a).table
    ensures (Holds(s.table, x) && !Removes(s, a, x)) || Stores(s, a, x)
  {
    assert SamePost(x, x);
    match a
    case Storing(posts, ok) =>
      if x !in s.table {
        StoredFrom(s, posts, ok, x);
      }
    case Reading(id) =>
      if s.account.Some? && id != "" {
        ReadFrom(s.table, s.account.value, id, s.now, x);
      }
    case Showing(channel, root, limit) =>
      if s.account.Some? {
        var w := Window(s, channel, root);
        BackFromHolds(s.table, s.account.value, w, |w|, channel, root, limit, s.now, x);
      }
    case Removing(id) => RemovedFrom(s, id, x);
    case Limiting(limits) => CleanedFrom(s.(limits := limits), x);
    case Maintaining => CleanedFrom(s, x);
    case _ =>
  }

  /** At step j the post was stored, and since then it has not been removed, up to step m. */
  ghost predicate StoredAt(ss: seq<State>, acts: seq<Action>, j: nat, m: nat, x: Row)
    requires |ss| == |acts| + 1 && m <= |acts|
  {
    j < m && Stores(ss[j], acts[j], x) && forall n :: j < n < m ==> !Removes(ss[n], acts[n], x)
  }

  ghost predicate WasStored(ss: seq<State>, acts: seq<Action>, m: nat, x: Row)
    requires |ss| == |acts| + 1 && m <= |acts|
  {
    exists j: nat :: StoredAt(ss, acts, j, m, x)
  }

  lemma StoredLonger(ss: seq<State>, acts: seq<Action>, m: nat, x: Row, y: Row)
    requires |ss| == |acts| + 1 && m < |acts| && SamePost(x, y) && !Removes(ss[m], acts[m], x)
    requires WasStored(ss, acts, m, y)
    ensures WasStored(ss, acts, m + 1, x)
  {
    var j: nat :| StoredAt(ss, acts, j, m, y);
    assert StoredAt(ss, acts, j, m + 1, x);
  }

  /** Over every run whatever row is there was stored for its account, in its timeline, and not removed since. */
  lemma {:induction false} RowsWereStored(ss: seq<State>, acts: seq<Action>, m: nat, x: Row)
    requires IsRun(ss, acts) && m < |ss| && x in ss[m].table
    ensures WasStored(ss, acts, m, x)
    decreases m
  {
    if m > 0 {
      RunSafe(ss, acts, m - 1);
      assert Step(ss[m - 1], acts[m - 1], ss[m]);
      StepFrom(ss[m - 1], acts[m - 1], x);
      if Stores(ss[m - 1], acts[m - 1], x) {
        assert StoredAt(ss, acts, m - 1, m, x);
      } else {
        var y :| y in ss[m - 1].table && SamePost(x, y);
        RowsWereStored(ss, acts, m - 1, y);
        StoredLonger(ss, acts, m - 1, x, y);
      }
    }
  }

  // ---------------------------------------------------------------- what a tail window shows

  /** The action records a window for this timeline. */
  predicate Records(s: State, a: Action, g: Thread) {
    a.Recording? && Eligible(s, a.channel) && g == Thread(s.account.value, a.channel, a.root)
  }

  /** At step i this window was recorded, and no other one of the timeline since, up to step m. */
  ghost predicate RecordedAt(ss: seq<State>, acts: seq<Action>, i: nat, m: nat, g: Thread, w: seq<Id>)
    requires |ss| == |acts| + 1 && m <= |acts|
  {
    && i < m && Records(ss[i], acts[i], g) && w == FirstOccurrences(acts[i].ids)
    && forall n :: i < n < m ==> !Records(ss[n], acts[n], g)
  }

  lemma StepWindow(s: State, a: Action, g: Thread)
    requires g in Next(s, a).windows
    ensures Records(s, a, g) ==> Next(s, a).windows[g] == FirstOccurrences(a.ids)
    ensures !Records(s, a, g) ==> g in s.windows && Next(s, a).windows[g] == s.windows[g]
  {
  }

  /** Over every run a window that is there is the last one recorded for its timeline. */
  lemma {:induction false} WindowsWereRecorded(ss: seq<State>, acts: seq<Action>, m: nat, g: Thread)
    requires IsRun(ss, acts) && m < |ss| && g in ss[m].windows
    ensures exists i :: 0 <= i < m && RecordedAt(ss, acts, i, m, g, ss[m].windows[g])
    decreases m
  {
    if m > 0 {
      assert Step(ss[m - 1], acts[m - 1], ss[m]);
      StepWindow(ss[m - 1], acts[m - 1], g);
      if Records(ss[m - 1], acts[m - 1], g) {
        assert RecordedAt(ss, acts, m - 1, m, g, ss[m].windows[g]);
      } else {
        WindowsWereRecorded(ss, acts, m - 1, g);
        var i :| 0 <= i < m - 1 && RecordedAt(ss, acts, i, m - 1, g, ss[m - 1].windows[g]);
        assert RecordedAt(ss, acts, i, m, g, ss[m].windows[g]);
      }
    }
  }

  lemma UsableRow(t: seq<Row>, a: nat, id: Id, channel: Id, root: Id) returns (x: Row)
    requires Usable(t, a, id, channel, root)
    ensures x in t && ThreadOf(x) == Thread(a, channel, root) && x.id == id
  {
    FindIs(t, a, id);
    x := Find(t, a, id).value;
  }

  /** The post was stored in this timeline and not removed since. */
  ghost predicate Standing(ss: seq<State>, acts: seq<Action>, m: nat, g: Thread, id: Id)
    requires |ss| == |acts| + 1 && m <= |acts|
  {
    exists x: Row :: x.id == id && ThreadOf(x) == g && WasStored(ss, acts, m, x)
  }

  /** The longest end of a window whose rows are all there, up to the limit. */
  ghost predicate LongestEnd(t: seq<Row>, g: Thread, w: seq<Id>, shown: seq<Id>, limit: nat) {
    && |shown| <= |w| && w == w[..|w| - |shown|] + shown && |shown| <= limit
    && (forall id :: id in shown ==> Usable(t, g.account, id, g.channel, g.root))
    && (|shown| == limit || |shown| == |w| || !Usable(t, g.account, w[|w| - |shown| - 1], g.channel, g.root))
  }

  /**
   * Over every mix of stores, removals, evictions and reads: what a tail window shows is the longest end, up to the
   * limit, of the window last recorded for that timeline and account whose rows are all there; and each of them was
   * stored in that timeline and not removed since.
   */
  lemma ShowsEndOfLastRecorded(ss: seq<State>, acts: seq<Action>, m: nat, channel: Id, root: Id, limit: nat) returns (i: nat)
    requires IsRun(ss, acts) && m < |ss| && Shown(ss[m], channel, root, limit) != []
    ensures var (s, shown) := (ss[m], Shown(ss[m], channel, root, limit));
      && s.account.Some? && i < m
      && var g := Thread(s.account.value, channel, root);
      && Records(ss[i], acts[i], g) && (forall n :: i < n < m ==> !Records(ss[n], acts[n], g))
      && LongestEnd(s.table, g, FirstOccurrences(acts[i].ids), shown, limit)
      && forall id :: id in shown ==> Standing(ss, acts, m, g, id)
  {
    var (s, shown) := (ss[m], Shown(ss[m], channel, root, limit));
    var (g, w) := (Thread(s.account.value, channel, root), Window(s, channel, root));
    WindowsWereRecorded(ss, acts, m, g);
    i :| 0 <= i < m && RecordedAt(ss, acts, i, m, g, w);
    WindowNeverBridges(s.table, s.account.value, w, channel, root, limit);
    forall id | id in shown ensures Standing(ss, acts, m, g, id) {
      var x := UsableRow(s.table, s.account.value, id, channel, root);
      RowsWereStored(ss, acts, m, x);
    }
  }
}
