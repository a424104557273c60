/** The table of cached posts, listed in eviction order: least recently used first, then oldest, then by identifier. */
module CacheTable {
  import opened Prelude
  import opened PostOrder

  const TOUCH_GRANULARITY: nat := 60_000

  /** `used` is history: when the row was really used last. `readable` says whether its payload decodes. */
  datatype Row = Row(account: nat, id: Id, channel: Id, root: Id, createAt: int, lastAccess: int, size: nat,
                     readable: bool, used: int)

  /** Rows of one account and identifier are versions of one another. */
  predicate SameKey(a: Row, account: nat, id: Id) {
    a.account == account && a.id == id
  }

  predicate RowBefore(a: Row, b: Row) {
    if a.lastAccess != b.lastAccess then a.lastAccess < b.lastAccess
    else if a.createAt != b.createAt then a.createAt < b.createAt
    else if a.id != b.id then TextLess(a.id, b.id)
    else a.account < b.account
  }

  lemma RowOrder(a: Row, b: Row, c: Row)
    ensures !RowBefore(a, a)
    ensures RowBefore(a, b) && RowBefore(b, c) ==> RowBefore(a, c)
    ensures !SameKey(a, b.account, b.id) ==> RowBefore(a, b) || RowBefore(b, a)
  {
    TextTotal(a.id, b.id);
    if TextLess(a.id, b.id) && TextLess(b.id, c.id) {
      TextTransitive(a.id, b.id, c.id);
      TextIrreflexive(a.id);
    }
  }

  ghost predicate Listed(t: seq<Row>) {
    && (forall i, j :: 0 <= i < j < |t| ==> RowBefore(t[i], t[j]))
    && (forall i, j :: 0 <= i < j < |t| ==> !SameKey(t[i], t[j].account, t[j].id))
  }

  // ---------------------------------------------------------------- lookup and change

  function Find(t: seq<Row>, account: nat, id: Id): Option<Row> {
    if t == [] then None
    else if SameKey(t[0], account, id) then Some(t[0])
    else Find(t[1..], account, id)
  }

  function Delete(t: seq<Row>, account: nat, id: Id): seq<Row> {
    if t == [] then []
    else if SameKey(t[0], account, id) then Delete(t[1..], account, id)
    else [t[0]] + Delete(t[1..], account, id)
  }

  function Place(t: seq<Row>, x: Row): seq<Row> {
    if t == [] || RowBefore(x, t[0]) then [x] + t
    else [t[0]] + Place(t[1..], x)
  }

  lemma {:induction false} DeleteMembers(t: seq<Row>, account: nat, id: Id)
    ensures forall x :: x in Delete(t, account, id) <==> x in t && !SameKey(x, account, id)
  {
    if t != [] {
      DeleteMembers(t[1..], account, id);
    }
  }

  lemma {:induction false} PlaceMembers(t: seq<Row>, x: Row)
    ensures forall y :: y in Place(t, x) <==> y in t || y == x
    ensures |Place(t, x)| == |t| + 1
  {
    if !(t == [] || RowBefore(x, t[0])) {
      PlaceMembers(t[1..], x);
      assert t == [t[0]] + t[1..];
    }
  }

  function Upsert(t: seq<Row>, x: Row): seq<Row> {
    Place(Delete(t, x.account, x.id), x)
  }

  /** A row that is read is used now; its stored access time moves only once it is a minute behind. */
  function Touched(x: Row, now: int): Row {
    if x.lastAccess < now - TOUCH_GRANULARITY then x.(lastAccess := now, used := now) else x.(used := now)
  }

  function Touch(t: seq<Row>, account: nat, id: Id, now: int): seq<Row> {
    match Find(t, account, id)
    case None => t
    case Some(x) => Upsert(t, Touched(x, now))
  }

  lemma {:induction false} FindIs(t: seq<Row>, account: nat, id: Id)
    ensures Find(t, account, id).Some? ==> Find(t, account, id).value in t && SameKey(Find(t, account, id).value, account, id)
    ensures Find(t, account, id).None? ==> forall x :: x in t ==> !SameKey(x, account, id)
  {
    if t != [] {
      FindIs(t[1..], account, id);
    }
  }

  lemma Tail(t: seq<Row>)
    requires Listed(t) && t != []
    ensures Listed(t[1..])
    ensures forall x :: x in t[1..] ==> RowBefore(t[0], x) && !SameKey(t[0], x.account, x.id)
  {
    assert forall i :: 0 <= i < |t| - 1 ==> t[1..][i] == t[i + 1];
  }

  lemma Cons(x: Row, t: seq<Row>)
    requires Listed(t) && forall y :: y in t ==> RowBefore(x, y) && !SameKey(x, y.account, y.id)
    ensures Listed([x] + t)
  {
  }

  lemma {:induction false} DeleteListed(t: seq<Row>, account: nat, id: Id)
    requires Listed(t)
    ensures Listed(Delete(t, account, id))
  {
    if t != [] {
      Tail(t);
      DeleteListed(t[1..], account, id);
      DeleteMembers(t[1..], account, id);
      if !SameKey(t[0], account, id) {
        Cons(t[0], Delete(t[1..], account, id));
      }
    }
  }

  lemma {:induction false} PlaceListed(t: seq<Row>, x: Row)
    requires Listed(t) && forall y :: y in t ==> !SameKey(y, x.account, x.id)
    ensures Listed(Place(t, x))
  {
    if t == [] {
      Cons(x, t);
    } else {
      Tail(t);
      RowOrder(x, t[0], t[0]);
      if RowBefore(x, t[0]) {
        forall y | y in t ensures RowBefore(x, y) && !SameKey(x, y.account, y.id) {
          if y != t[0] {
            assert t == [t[0]] + t[1..];
            RowOrder(x, t[0], y);
          }
        }
        Cons(x, t);
      } else {
        PlaceListed(t[1..], x);
        PlaceMembers(t[1..], x);
        Cons(t[0], Place(t[1..], x));
      }
    }
  }

  lemma UpsertListed(t: seq<Row>, x: Row)
    requires Listed(t)
    ensures Listed(Upsert(t, x))
    ensures forall y :: y in Upsert(t, x) <==> y == x || (y in t && !SameKey(y, x.account, x.id))
  {
    DeleteListed(t, x.account, x.id);
    DeleteMembers(t, x.account, x.id);
    PlaceMembers(Delete(t, x.account, x.id), x);
    PlaceListed(Delete(t, x.account, x.id), x);
  }

  lemma TouchListed(t: seq<Row>, account: nat, id: Id, now: int)
    requires Listed(t)
    ensures Listed(Touch(t, account, id, now))
  {
    match Find(t, account, id)
    case None =>
    case Some(x) => UpsertListed(t, Touched(x, now));
  }

  // ---------------------------------------------------------------- how coarse the order is

  /** A stored access time is at most a minute behind the real one, and never ahead of it. */
  predicate Coarse(x: Row, now: int) {
    x.lastAccess <= x.used <= x.lastAccess + TOUCH_GRANULARITY && x.used <= now
  }

  ghost predicate AllCoarse(t: seq<Row>, now: int) {
    forall x :: x in t ==> Coarse(x, now)
  }

  lemma TouchCoarse(t: seq<Row>, account: nat, id: Id, before: int, now: int)
    requires Listed(t) && AllCoarse(t, before) && before <= now
    ensures AllCoarse(Touch(t, account, id, now), now)
  {
    FindIs(t, account, id);
    match Find(t, account, id)
    case None =>
    case Some(x) => UpsertListed(t, Touched(x, now));
  }

  /** A row listed before another was really used at most a minute after it. */
  lemma EvictedWasStale(t: seq<Row>, i: nat, j: nat, now: int)
    requires Listed(t) && AllCoarse(t, now) && i < j < |t|
    ensures t[i].used <= t[j].used + TOUCH_GRANULARITY
  {
    assert RowBefore(t[i], t[j]) && Coarse(t[i], now) && Coarse(t[j], now);
  }

  // ---------------------------------------------------------------- the global limits

  function Bytes(t: seq<Row>): nat {
    if t == [] then 0 else t[0].size + Bytes(t[1..])
  }

  predicate Fits(t: seq<Row>, maxCount: nat, maxBytes: nat) {
    |t| <= maxCount && Bytes(t) <= maxBytes
  }

  /** The length of the shortest prefix whose removal lets the rest fit. */
  function Excess(t: seq<Row>, maxCount: nat, maxBytes: nat): (k: nat)
    ensures k <= |t|
  {
    if Fits(t, maxCount, maxBytes) then 0
    else if t == [] then 0
    else 1 + Excess(t[1..], maxCount, maxBytes)
  }

  /** It is a prefix that suffices, and no shorter one does. */
  lemma {:induction false} ExcessIsShortest(t: seq<Row>, maxCount: nat, maxBytes: nat, j: nat)
    ensures var k := Excess(t, maxCount, maxBytes);
      && Fits(t[k..], maxCount, maxBytes)
      && (j < k ==> !Fits(t[j..], maxCount, maxBytes))
  {
    var k := Excess(t, maxCount, maxBytes);
    if t != [] && k > 0 {
      ExcessIsShortest(t[1..], maxCount, maxBytes, if j > 0 then j - 1 else 0);
      assert t[k..] == t[1..][k - 1..];
      assert j > 0 && j <= |t| ==> t[j..] == t[1..][j - 1..];
    } else {
      assert t[k..] == t;
    }
  }

  /** Hysteresis: a limit that is exceeded is undercut by a twentieth. */
  function Target(total: nat, limit: nat): nat
    requires limit >= 1
  {
    if total > limit then Max(1, limit * 95 / 100) else limit
  }

  lemma TargetWithinLimit(total: nat, limit: nat)
    requires limit >= 1
    ensures 1 <= Target(total, limit) <= limit
  {
  }

  function GlobalPruned(t: seq<Row>, maxPosts: nat, maxBytes: nat): seq<Row>
    requires maxPosts >= 1 && maxBytes >= 1
  {
    if Fits(t, maxPosts, maxBytes) then t
    else t[Excess(t, Target(|t|, maxPosts), Target(Bytes(t), maxBytes))..]
  }

  /** After pruning, both hard limits hold. */
  lemma GlobalBounds(t: seq<Row>, maxPosts: nat, maxBytes: nat)
    requires maxPosts >= 1 && maxBytes >= 1
    ensures Fits(GlobalPruned(t, maxPosts, maxBytes), maxPosts, maxBytes)
  {
    ExcessIsShortest(t, Target(|t|, maxPosts), Target(Bytes(t), maxBytes), 0);
    TargetWithinLimit(|t|, maxPosts);
    TargetWithinLimit(Bytes(t), maxBytes);
  }

  lemma FrontIsStale(t: seq<Row>, k: nat, now: int, x: Row, y: Row)
    requires Listed(t) && AllCoarse(t, now) && k <= |t| && x in t[..k] && y in t[k..]
    ensures x.used <= y.used + TOUCH_GRANULARITY
  {
    var i :| 0 <= i < k && t[..k][i] == x;
    var j :| 0 <= j < |t| - k && t[k..][j] == y;
    EvictedWasStale(t, i, k + j, now);
  }

  /** What global pruning evicted was really used at most a minute after anything it kept. */
  lemma EvictionIsFair(t: seq<Row>, maxPosts: nat, maxBytes: nat, now: int, x: Row, y: Row)
    requires Listed(t) && AllCoarse(t, now) && maxPosts >= 1 && maxBytes >= 1
    requires x in t && x !in GlobalPruned(t, maxPosts, maxBytes) && y in GlobalPruned(t, maxPosts, maxBytes)
    ensures x.used <= y.used + TOUCH_GRANULARITY
  {
    var k := |t| - |GlobalPruned(t, maxPosts, maxBytes)|;
    assert t[0..] == t && GlobalPruned(t, maxPosts, maxBytes) == t[k..];
    assert t == t[..k] + t[k..];
    FrontIsStale(t, k, now, x, y);
  }

  lemma SuffixListed(t: seq<Row>, k: nat)
    requires Listed(t) && k <= |t|
    ensures Listed(t[k..])
  {
    assert forall i :: 0 <= i < |t| - k ==> t[k..][i] == t[i + k];
  }

  // ---------------------------------------------------------------- the limit per thread

  datatype Thread = Thread(account: nat, channel: Id, root: Id)

  function ThreadOf(x: Row): Thread {
    Thread(x.account, x.channel, x.root)
  }

  function Count(t: seq<Row>, g: Thread): (n: nat)
    ensures n <= |t|
  {
    if t == [] then 0 else Count(t[1..], g) + (if ThreadOf(t[0]) == g then 1 else 0)
  }

  /** The first n rows of a thread removed. */
  function DropOldest(t: seq<Row>, g: Thread, n: nat): seq<Row> {
    if t == [] || n == 0 then t
    else if ThreadOf(t[0]) == g then DropOldest(t[1..], g, n - 1)
    else [t[0]] + DropOldest(t[1..], g, n)
  }

  /** Of the threads in `gs`, only the newest `max` replies each. */
  function Trimmed(t: seq<Row>, max: nat, gs: set<Thread>): seq<Row> {
    if t == [] then []
    else if ThreadOf(t[0]) in gs && Count(t[1..], ThreadOf(t[0])) >= max then Trimmed(t[1..], max, gs)
    else [t[0]] + Trimmed(t[1..], max, gs)
  }

  function Overfull(t: seq<Row>, max: nat): set<Thread> {
    set x | x in t && x.root != "" && Count(t, ThreadOf(x)) > max :: ThreadOf(x)
  }

  function ThreadPruned(t: seq<Row>, max: nat): seq<Row> {
    Trimmed(t, max, Overfull(t, max))
  }

  lemma {:induction false} TrimmedCount(t: seq<Row>, max: nat, gs: set<Thread>, g: Thread)
    ensures Count(Trimmed(t, max, gs), g) == if g in gs then Min(Count(t, g), max) else Count(t, g)
  {
    if t != [] {
      TrimmedCount(t[1..], max, gs, g);
    }
  }

  lemma {:induction false} TrimmedMembers(t: seq<Row>, max: nat, gs: set<Thread>)
    ensures forall x :: x in Trimmed(t, max, gs) ==> x in t
    ensures forall x :: x in t && ThreadOf(x) !in gs ==> x in Trimmed(t, max, gs)
  {
    if t != [] {
      TrimmedMembers(t[1..], max, gs);
    }
  }

  lemma {:induction false} TrimmedListed(t: seq<Row>, max: nat, gs: set<Thread>)
    requires Listed(t)
    ensures Listed(Trimmed(t, max, gs))
  {
    if t != [] {
      Tail(t);
      TrimmedListed(t[1..], max, gs);
      TrimmedMembers(t[1..], max, gs);
      if !(ThreadOf(t[0]) in gs && Count(t[1..], ThreadOf(t[0])) >= max) {
        Cons(t[0], Trimmed(t[1..], max, gs));
      }
    }
  }

  /** Within a thread the rows that stay are the most recently used. */
  lemma {:induction false} TrimmedKeepsNewest(t: seq<Row>, max: nat, gs: set<Thread>, i: nat, j: nat)
    requires Listed(t) && i < j < |t| && ThreadOf(t[i]) == ThreadOf(t[j]) && t[i] in Trimmed(t, max, gs)
    ensures t[j] in Trimmed(t, max, gs)
  {
    Tail(t);
    TrimmedMembers(t[1..], max, gs);
    RowOrder(t[0], t[0], t[0]);
    if i > 0 {
      assert t[1..][i - 1] == t[i] && t[1..][j - 1] == t[j];
      assert RowBefore(t[0], t[i]);
      TrimmedKeepsNewest(t[1..], max, gs, i - 1, j - 1);
    } else {
      assert t[0] !in t[1..];
      assert t[1..][j - 1] == t[j];
      if ThreadOf(t[0]) in gs {
        AllStay(t[1..], max, gs, ThreadOf(t[0]), t[j]);
      }
    }
  }

  /** A thread that is not overfull loses nothing. */
  lemma {:induction false} AllStay(t: seq<Row>, max: nat, gs: set<Thread>, g: Thread, x: Row)
    requires Count(t, g) <= max && x in t && ThreadOf(x) == g
    ensures x in Trimmed(t, max, gs)
  {
    if x != t[0] {
      AllStay(t[1..], max, gs, g, x);
    }
  }

  lemma {:induction false} DropOldestTrims(t: seq<Row>, max: nat, gs: set<Thread>, g: Thread, n: nat)
    requires g !in gs && n == if Count(t, g) > max then Count(t, g) - max else 0
    ensures DropOldest(Trimmed(t, max, gs), g, n) == Trimmed(t, max, gs + {g})
  {
    if t != [] {
      if ThreadOf(t[0]) == g && n > 0 {
        DropOldestTrims(t[1..], max, gs, g, n - 1);
      } else {
        DropOldestTrims(t[1..], max, gs, g, n);
        assert n == 0 ==> DropOldest(Trimmed(t, max, gs), g, n) == Trimmed(t, max, gs);
      }
    }
  }

  lemma {:induction false} TrimmedNothing(t: seq<Row>, max: nat)
    ensures Trimmed(t, max, {}) == t
  {
    if t != [] {
      TrimmedNothing(t[1..], max);
    }
  }

  lemma {:induction false} CountPositive(t: seq<Row>, g: Thread)
    requires Count(t, g) > 0
    ensures exists x :: x in t && ThreadOf(x) == g
  {
    if ThreadOf(t[0]) != g {
      CountPositive(t[1..], g);
      var x :| x in t[1..] && ThreadOf(x) == g;
      assert x in t;
    }
  }

  /** No thread is left with more replies than allowed. */
  lemma ThreadBounds(t: seq<Row>, max: nat, g: Thread)
    requires g.root != ""
    ensures Count(ThreadPruned(t, max), g) <= max
    ensures Count(t, g) <= max ==> Count(ThreadPruned(t, max), g) == Count(t, g)
    ensures Count(t, g) > max ==> Count(ThreadPruned(t, max), g) == max
  {
    TrimmedCount(t, max, Overfull(t, max), g);
    if Count(t, g) > max {
      CountPositive(t, g);
      assert g in Overfull(t, max);
    }
  }

  lemma {:induction false} SuffixCount(t: seq<Row>, k: nat, g: Thread)
    requires k <= |t|
    ensures Count(t[k..], g) <= Count(t, g)
  {
    if k > 0 {
      assert t[k..] == t[1..][k - 1..];
      SuffixCount(t[1..], k - 1, g);
    } else {
      assert t[k..] == t;
    }
  }

  // ---------------------------------------------------------------- channels nobody opens any more

  /** Rows of channels that were opened recently enough. */
  function Active(t: seq<Row>, usage: map<(nat, Id), int>, cutoff: int): seq<Row> {
    if t == [] then []
    else if (t[0].account, t[0].channel) in usage && usage[(t[0].account, t[0].channel)] >= cutoff
    then [t[0]] + Active(t[1..], usage, cutoff)
    else Active(t[1..], usage, cutoff)
  }

  lemma {:induction false} ActiveMembers(t: seq<Row>, usage: map<(nat, Id), int>, cutoff: int, x: Row)
    ensures x in Active(t, usage, cutoff) <==>
      x in t && (x.account, x.channel) in usage && usage[(x.account, x.channel)] >= cutoff
  {
    if t != [] {
      ActiveMembers(t[1..], usage, cutoff, x);
    }
  }

  lemma ActiveCoarse(t: seq<Row>, usage: map<(nat, Id), int>, cutoff: int, now: int)
    requires AllCoarse(t, now)
    ensures AllCoarse(Active(t, usage, cutoff), now)
  {
    forall x | x in Active(t, usage, cutoff) ensures x in t {
      ActiveMembers(t, usage, cutoff, x);
    }
  }

  lemma {:induction false} ActiveListed(t: seq<Row>, usage: map<(nat, Id), int>, cutoff: int)
    requires Listed(t)
    ensures Listed(Active(t, usage, cutoff))
  {
    if t != [] {
      Tail(t);
      ActiveListed(t[1..], usage, cutoff);
      if (t[0].account, t[0].channel) in usage && usage[(t[0].account, t[0].channel)] >= cutoff {
        forall x | x in Active(t[1..], usage, cutoff) ensures x in t[1..] {
          ActiveMembers(t[1..], usage, cutoff, x);
        }
        Cons(t[0], Active(t[1..], usage, cutoff));
      }
    }
  }
}
