/** The order of posts on a timeline: by creation time, then by identifier. */
module PostOrder {
  import opened Prelude

  datatype Stamp = Stamp(createAt: nat, id: Id)

  /** Identifiers compare like text, character by character. */
  predicate TextLess(a: string, b: string) {
    if b == "" then false
    else if a == "" then true
    else a[0] < b[0] || (a[0] == b[0] && TextLess(a[1..], b[1..]))
  }

  predicate Before(a: Stamp, b: Stamp) {
    a.createAt < b.createAt || (a.createAt == b.createAt && TextLess(a.id, b.id))
  }

  lemma {:induction false} TextIrreflexive(a: string)
    ensures !TextLess(a, a)
  {
    if a != "" {
      TextIrreflexive(a[1..]);
    }
  }

  lemma {:induction false} TextTransitive(a: string, b: string, c: string)
    requires TextLess(a, b) && TextLess(b, c)
    ensures TextLess(a, c)
  {
    if a != "" && a[0] == b[0] && b[0] == c[0] {
      TextTransitive(a[1..], b[1..], c[1..]);
    }
  }

  lemma {:induction false} TextTotal(a: string, b: string)
    ensures a == b || TextLess(a, b) || TextLess(b, a)
  {
    if a != "" && b != "" && a[0] == b[0] {
      TextTotal(a[1..], b[1..]);
      assert a == [a[0]] + a[1..] && b == [b[0]] + b[1..];
    }
  }

  /** A strict total order: any two different stamps are ordered one way, and only one. */
  lemma StrictTotalOrder(a: Stamp, b: Stamp, c: Stamp)
    ensures !Before(a, a)
    ensures Before(a, b) && Before(b, c) ==> Before(a, c)
    ensures a == b || Before(a, b) || Before(b, a)
    ensures !(Before(a, b) && Before(b, a))
  {
    TextIrreflexive(a.id);
    TextTotal(a.id, b.id);
    if TextLess(a.id, b.id) && TextLess(b.id, c.id) {
      TextTransitive(a.id, b.id, c.id);
    }
    if TextLess(a.id, b.id) && TextLess(b.id, a.id) {
      TextTransitive(a.id, b.id, a.id);
    }
  }

  ghost predicate Sorted(s: seq<Stamp>) {
    forall i, j :: 0 <= i < j < |s| ==> !Before(s[j], s[i])
  }

  /** Where a stamp goes in a sorted sequence. */
  method InsertionPoint(s: seq<Stamp>, x: Stamp) returns (k: nat)
    requires Sorted(s)
    ensures k <= |s|
    ensures forall i :: 0 <= i < k ==> !Before(x, s[i])
    ensures forall i :: k <= i < |s| ==> Before(x, s[i])
  {
    k := |s|;
    while k > 0 && Before(x, s[k - 1])
      invariant k <= |s|
      invariant forall i :: k <= i < |s| ==> Before(x, s[i])
    {
      k := k - 1;
    }
    if k > 0 {
      forall i | 0 <= i < k ensures !Before(x, s[i]) {
        if i < k - 1 && Before(x, s[i]) {
          StrictTotalOrder(s[i], s[k - 1], x);
          StrictTotalOrder(x, s[i], s[k - 1]);
        }
      }
    }
  }

  method SortStamps(rows: seq<Stamp>) returns (sorted: seq<Stamp>)
    ensures Sorted(sorted) && multiset(sorted) == multiset(rows)
  {
    sorted := [];
    var i := 0;
    while i < |rows|
      invariant i <= |rows| && Sorted(sorted) && multiset(sorted) == multiset(rows[..i])
    {
      var k := InsertionPoint(sorted, rows[i]);
      ghost var before := sorted;
      sorted := sorted[..k] + [rows[i]] + sorted[k..];
      InsertSorted(before, rows[i], k);
      assert before == before[..k] + before[k..];
      assert rows[..i + 1] == rows[..i] + [rows[i]];
      i := i + 1;
    }
    assert rows[..i] == rows;
  }

  lemma InsertSorted(s: seq<Stamp>, x: Stamp, k: nat)
    requires Sorted(s) && k <= |s|
    requires forall i :: 0 <= i < k ==> !Before(x, s[i])
    requires forall i :: k <= i < |s| ==> Before(x, s[i])
    ensures Sorted(s[..k] + [x] + s[k..])
  {
    forall i | k <= i < |s| ensures !Before(s[i], x) {
      StrictTotalOrder(x, s[i], x);
    }
  }

  lemma FirstIsLeast(s: seq<Stamp>, x: Stamp)
    requires Sorted(s) && x in multiset(s)
    ensures s != [] && !Before(x, s[0])
  {
    var i :| 0 <= i < |s| && s[i] == x;
    StrictTotalOrder(x, x, x);
  }

  lemma SameFirst(a: seq<Stamp>, b: seq<Stamp>)
    requires Sorted(a) && Sorted(b) && multiset(a) == multiset(b) && a != []
    ensures b != [] && a[0] == b[0]
  {
    assert a[0] in multiset(b);
    FirstIsLeast(b, a[0]);
    assert b[0] in multiset(a);
    FirstIsLeast(a, b[0]);
    StrictTotalOrder(a[0], b[0], a[0]);
  }

  lemma Rest(s: seq<Stamp>)
    requires Sorted(s) && s != []
    ensures Sorted(s[1..]) && multiset(s[1..]) == multiset(s) - multiset{s[0]}
  {
    assert s == [s[0]] + s[1..];
    assert forall i :: 0 <= i < |s| - 1 ==> s[1..][i] == s[i + 1];
  }

  /** Timeline order is unique: two sorted arrangements of the same posts are the same. */
  lemma {:induction false} SortedUnique(a: seq<Stamp>, b: seq<Stamp>)
    requires Sorted(a) && Sorted(b) && multiset(a) == multiset(b)
    ensures a == b
  {
    assert |multiset(a)| == |a| && |multiset(b)| == |b|;
    if a != [] {
      SameFirst(a, b);
      Rest(a);
      Rest(b);
      SortedUnique(a[1..], b[1..]);
      assert a == [a[0]] + a[1..] && b == [b[0]] + b[1..];
    }
  }

  // ---------------------------------------------------------------- the timelines of a reply

  /** One member of a reply's post table; what is no object is no post. */
  datatype Member = Member(isObject: bool, id: Id, root: Id, createAt: nat)

  /** Everything, the root posts of a channel, or one thread. */
  datatype Timeline = Everything | RootsOnly | InThread(root: Id)

  predicate Includes(t: Timeline, m: Member) {
    && m.isObject && m.id != ""
    && match t
       case Everything => true
       case RootsOnly => m.root == ""
       case InThread(root) => m.id == root || m.root == root
  }

  function IncludedOne(m: Member, t: Timeline): seq<Stamp> {
    if Includes(t, m) then [Stamp(m.createAt, m.id)] else []
  }

  function Included(ms: seq<Member>, t: Timeline): seq<Stamp> {
    if ms == [] then []
    else Included(ms[..|ms| - 1], t) + IncludedOne(ms[|ms| - 1], t)
  }

  lemma {:induction false} IncludedExactly(ms: seq<Member>, t: Timeline, s: Stamp)
    ensures s in Included(ms, t) <==> exists m :: m in ms && Includes(t, m) && Stamp(m.createAt, m.id) == s
  {
    if ms != [] {
      var (front, last) := (ms[..|ms| - 1], ms[|ms| - 1]);
      IncludedExactly(front, t, s);
      assert ms == front + [last];
    }
  }

  function Ids(stamps: seq<Stamp>): seq<Id> {
    seq(|stamps|, i requires 0 <= i < |stamps| => stamps[i].id)
  }

  /** The loop that keeps what belongs to the timeline. */
  method CollectStamps(ms: seq<Member>, t: Timeline) returns (ordered: seq<Stamp>)
    ensures ordered == Included(ms, t)
  {
    ordered := [];
    var i := 0;
    while i < |ms|
      invariant i <= |ms| && ordered == Included(ms[..i], t)
    {
      assert ms[..i + 1][..i] == ms[..i];
      if Includes(t, ms[i]) {
        ordered := ordered + [Stamp(ms[i].createAt, ms[i].id)];
      }
      i := i + 1;
    }
    assert ms[..i] == ms;
  }

  /** The identifiers of a timeline: of exactly its posts, in timeline order. */
  method SortedPostIds(ms: seq<Member>, t: Timeline) returns (ids: seq<Id>, ghost sorted: seq<Stamp>)
    ensures ids == Ids(sorted) && Sorted(sorted) && multiset(sorted) == multiset(Included(ms, t))
  {
    var ordered := CollectStamps(ms, t);
    var stamps := SortStamps(ordered);
    sorted := stamps;
    ids := [];
    var i := 0;
    while i < |stamps|
      invariant i <= |stamps| && |ids| == i && forall k :: 0 <= k < i ==> ids[k] == stamps[k].id
    {
      ids := ids + [stamps[i].id];
      i := i + 1;
    }
  }

  /** A reply has one timeline order, however its table lists the posts. */
  lemma TimelineUnique(ms: seq<Member>, ns: seq<Member>, t: Timeline, a: seq<Stamp>, b: seq<Stamp>)
    requires multiset(ms) == multiset(ns) && Sorted(a) && Sorted(b)
    requires multiset(a) == multiset(Included(ms, t)) && multiset(b) == multiset(Included(ns, t))
    ensures a == b && forall s :: s in a <==> exists m :: m in ms && Includes(t, m) && Stamp(m.createAt, m.id) == s
  {
    SameIncluded(ms, ns, t);
    SortedUnique(a, b);
    forall s ensures s in a <==> exists m :: m in ms && Includes(t, m) && Stamp(m.createAt, m.id) == s {
      IncludedExactly(ms, t, s);
      assert s in a <==> s in multiset(a);
      assert s in Included(ms, t) <==> s in multiset(Included(ms, t));
    }
  }

  lemma {:induction false} IncludedAppend(a: seq<Member>, b: seq<Member>, t: Timeline)
    ensures Included(a + b, t) == Included(a, t) + Included(b, t)
  {
    if b == [] {
      assert a + b == a;
    } else {
      var last := |b| - 1;
      assert (a + b)[..|a + b| - 1] == a + b[..last] && (a + b)[|a + b| - 1] == b[last];
      IncludedAppend(a, b[..last], t);
    }
  }

  /** Taking one member out takes its stamp out. */
  lemma IncludedWithout(a: seq<Member>, m: Member, b: seq<Member>, t: Timeline)
    ensures multiset(Included(a + [m] + b, t)) == multiset(Included(a + b, t)) + multiset(IncludedOne(m, t))
  {
    IncludedAppend(a + [m], b, t);
    IncludedAppend(a, b, t);
    assert (a + [m])[..|a|] == a;
  }

  lemma IncludedFirst(m: Member, rest: seq<Member>, t: Timeline)
    ensures multiset(Included([m] + rest, t)) == multiset(Included(rest, t)) + multiset(IncludedOne(m, t))
  {
    assert [] + [m] + rest == [m] + rest && [] + rest == rest;
    IncludedWithout([], m, rest, t);
  }

  lemma {:induction false} SameIncluded(ms: seq<Member>, ns: seq<Member>, t: Timeline)
    requires multiset(ms) == multiset(ns)
    ensures multiset(Included(ms, t)) == multiset(Included(ns, t))
    decreases |ms|
  {
    assert |multiset(ms)| == |ms| && |multiset(ns)| == |ns|;
    if ms != [] {
      var i := FirstPlace(ms, ns);
      var (m, rest, a, b) := (ms[0], ms[1..], ns[..i], ns[i + 1..]);
      assert ms == [m] + rest && ns == a + [m] + b;
      SameRest(rest, m, a, b);
      SameIncluded(rest, a + b, t);
      IncludedWithout(a, m, b, t);
      IncludedFirst(m, rest, t);
    }
  }

  lemma FirstPlace(ms: seq<Member>, ns: seq<Member>) returns (i: nat)
    requires multiset(ms) == multiset(ns) && ms != []
    ensures i < |ns| && ns[i] == ms[0]
  {
    assert ms[0] in multiset(ns);
    i :| 0 <= i < |ns| && ns[i] == ms[0];
  }

  lemma SameRest(rest: seq<Member>, m: Member, a: seq<Member>, b: seq<Member>)
    requires multiset([m] + rest) == multiset(a + [m] + b)
    ensures multiset(rest) == multiset(a + b)
  {
    assert multiset(rest) == multiset([m] + rest) - multiset{m};
    assert multiset(a + b) == multiset(a + [m] + b) - multiset{m};
  }
}
