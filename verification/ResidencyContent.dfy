/** What notes, leases, moves and sweeps of resident bodies do, said of bodies, handles and touch times. */
module ResidencyContent {
  import opened Prelude
  import opened Totals
  import opened PostOrder
  import opened Residency

  // ---------------------------------------------------------------- snapshots, leases and moves

  /** May the snapshot be noted: of a tracked or a resident body when it must be there, else also of a kept channel. */
  predicate Notable(s: State, k: Key, force: bool, retain: bool) {
    k.id != "" && k.channel != "" && (if force then k in s.resident else k in s.tracked || retain)
  }

  /** The body as it is tracked, or else by its fallback from now on. */
  function Counted(s: State, k: Key, now: int): Tracked
    requires k in s.resident
  {
    if k in s.tracked then s.tracked[k] else Tracked(s.resident[k].fallback, now)
  }

  /** The post counts for its last snapshot and is in use now; every other counts for what it did. */
  lemma NotedExactly(s: State, k: Key, bytes: nat, now: int, force: bool, retain: bool, v: State, j: Key)
    requires Safe(s) && v == Note(s, k, bytes, now, force, retain)
    ensures !Notable(s, k, force, retain) ==> v == s
    ensures Notable(s, k, force, retain) ==> k in v.tracked && v.tracked[k] == Tracked(bytes, now)
    ensures Notable(s, k, force, retain) ==>
      v.accounted == s.accounted + bytes - (if k in s.tracked then s.tracked[k].bytes else 0)
    ensures j != k ==> (j in v.tracked <==> j in s.tracked) && (j in v.tracked ==> v.tracked[j] == s.tracked[j])
    ensures v.resident == s.resident && v.handles == s.handles && v.counts == s.counts
  {
    TrackBooks(s, k, bytes, now);
  }

  /** A lease is granted exactly for a named resident body; it holds that body, and the body is in use now. */
  lemma LeasedExactly(s: State, h: nat, k: Key, now: int, v: State, o: nat, j: Key)
    requires Safe(s) && h !in s.handles && v == Lease(s, h, k, now)
    ensures h in v.handles <==> k in s.resident && k.id != "" && k.channel != ""
    ensures h in v.handles ==> v.handles[h] == k && k in v.tracked && v.tracked[k] == Tracked(Counted(s, k, now).bytes, now)
    ensures h !in v.handles ==> v == s
    ensures o != h ==> (o in v.handles <==> o in s.handles) && (o in v.handles ==> v.handles[o] == s.handles[o])
    ensures j != k ==> (j in v.tracked <==> j in s.tracked) && (j in v.tracked ==> v.tracked[j] == s.tracked[j])
    ensures v.resident == s.resident
  {
  }

  /** A reset lets go of what the handle held, and of nothing else. */
  lemma ResetExactly(s: State, h: nat, now: int, v: State, o: nat, j: Key)
    requires Safe(s) && v == Reset(s, h, now)
    ensures h !in v.handles && v.resident == s.resident && v.accounted == s.accounted
    ensures o != h ==> (o in v.handles <==> o in s.handles) && (o in v.handles ==> v.handles[o] == s.handles[o])
    ensures h !in s.handles || j != s.handles[h] ==>
      (j in v.tracked <==> j in s.tracked) && (j in v.tracked ==> v.tracked[j] == s.tracked[j])
  {
    ResetSafe(s, h, now);
  }

  /** After a move the target holds what the source held, and the source nothing; no other handle changes. */
  lemma MovedExactly(s: State, source: nat, target: nat, now: int, v: State, o: nat)
    requires v == Move(s, source, target, now) && source != target
    ensures source !in v.handles
    ensures target in v.handles <==> source in s.handles
    ensures target in v.handles ==> v.handles[target] == s.handles[source]
    ensures o != source && o != target ==>
      (o in v.handles <==> o in s.handles) && (o in v.handles ==> v.handles[o] == s.handles[o])
    ensures v.resident == s.resident && v.accounted == s.accounted
  {
    ResetHandles(s, target, now);
  }

  lemma ResetHandles(s: State, h: nat, now: int)
    ensures var v := Reset(s, h, now);
      v.handles == s.handles - {h} && v.resident == s.resident && v.accounted == s.accounted
  {
  }

  // ---------------------------------------------------------------- a sweep

  lemma EvictTracked(s: State, cands: seq<Candidate>, v: State)
    requires cands != [] && (cands[0].key in s.resident ==> Evictable(s, cands[0].key)) && v == Evict(s, cands[0].key)
    requires s.tracked.Keys == s.resident.Keys
    ensures v.tracked == s.tracked - {cands[0].key} && v.tracked.Keys == v.resident.Keys
  {
  }

  lemma MinusBoth(m: map<Key, Tracked>, k: Key, rest: set<Key>, all: set<Key>)
    requires all == {k} + rest
    ensures (m - {k}) - rest == m - all
  {
  }

  /** An evicted body is counted no more, and every other still for what it was. */
  lemma {:induction false} EvictFirstTracked(s: State, cands: seq<Candidate>, n: nat)
    requires Safe(s) && Waiting(s, cands) && n <= |cands| && s.tracked.Keys == s.resident.Keys
    ensures EvictFirst(s, cands, n).tracked == s.tracked - Keys(cands[..n])
    decreases n
  {
    if n > 0 {
      var v := Evict(s, cands[0].key);
      EvictOne(s, cands, v);
      EvictTracked(s, cands, v);
      EvictFirstTracked(v, cands[1..], n - 1);
      assert cands[..n][1..] == cands[1..][..n - 1];
      KeysCons(cands[..n]);
      MinusBoth(s.tracked, cands[0].key, Keys(cands[1..][..n - 1]), Keys(cands[..n]));
    } else {
      assert Keys(cands[..0]) == {};
    }
  }

  /** No live handle holds the body, and no other resident body of its channel is a reply to it. */
  ghost predicate Unneeded(s: State, k: Key) {
    && k in s.resident && (forall h :: h in s.handles ==> s.handles[h] != k)
    && forall j :: j in s.resident && j != k && j.channel == k.channel ==> s.resident[j].root != k.id
  }

  lemma UnneededIsEvictable(s: State, k: Key)
    requires Safe(s)
    ensures Unneeded(s, k) <==> Evictable(s, k)
  {
    assert Leased(s, k) <==> |Holders(s.handles, k)| > 0;
    assert forall h :: h in Holders(s.handles, k) <==> h in s.handles && s.handles[h] == k;
    if |Holders(s.handles, k)| > 0 {
      var h :| h in Holders(s.handles, k);
    }
  }

  lemma OlderFirst(cands: seq<Candidate>, i: nat, j: nat)
    requires OldestFirst(cands) && i <= j < |cands|
    ensures cands[i].touchedAt <= cands[j].touchedAt
  {
    assert i < j ==> OlderOrSame(cands[i], cands[j]);
  }

  /** A body's place among the candidates decides whether it goes. */
  lemma SweptAt(cands: seq<Candidate>, n: nat, i: nat)
    requires n <= |cands| && i < |cands| && forall a, b :: 0 <= a < b < |cands| ==> cands[a].key != cands[b].key
    ensures cands[i].key in Keys(cands[..n]) <==> i < n
  {
    assert i < n ==> cands[..n][i] == cands[i];
  }

  /** When the body was used last, as the sweep sees it. */
  function UsedAt(s: State, k: Key, now: int): int {
    if k in s.tracked then s.tracked[k].touchedAt else now
  }

  lemma PlaceOf(s: State, cands: seq<Candidate>, k: Key, now: int) returns (i: nat)
    requires Safe(s) && Candidates(Prepared(s, now), cands) && Unneeded(s, k)
    ensures i < |cands| && cands[i].key == k && cands[i].touchedAt == UsedAt(s, k, now)
  {
    PreparedSafe(s, now);
    UnneededIsEvictable(Prepared(s, now), k);
    i :| 0 <= i < |cands| && cands[i].key == k;
  }

  /** What is left after a sweep with n candidates gone. */
  lemma SweepLeaves(s: State, a: Action, v: State) returns (n: nat)
    requires Safe(s) && a.Sweep? && Step(s, a, v)
    ensures n <= |a.cands| && IdleCount(a.cands, a.now, a.ttl) <= n
    ensures v.resident == s.resident - Keys(a.cands[..n]) && v.tracked == Recounted(s, a.now) - Keys(a.cands[..n])
    ensures Safe(v)
  {
    var u := Prepared(s, a.now);
    PreparedSafe(s, a.now);
    n := SweepCount(u, a.cands, a.now, a.ttl, a.hard, a.target);
    SweepOutcome(u, a.cands, a.now, a.ttl, a.hard, a.target, Key("", ""));
    SweepIsPrefix(u, a.cands, a.now, a.ttl, a.hard, a.target);
    EvictFirstTracked(u, a.cands, n);
  }

  /** Every body that nothing needs and that was idle for long enough goes in the sweep. */
  lemma IdleGoes(ss: seq<State>, acts: seq<Action>, i: nat, k: Key)
    requires IsRun(ss, acts) && i < |acts| && acts[i].Sweep? && Unneeded(ss[i], k)
    requires acts[i].now - UsedAt(ss[i], k, acts[i].now) >= acts[i].ttl
    ensures k !in ss[i + 1].resident && k !in ss[i + 1].tracked
  {
    RunSafe(ss, acts, i);
    assert Step(ss[i], acts[i], ss[i + 1]);
    var a := acts[i];
    var n := SweepLeaves(ss[i], a, ss[i + 1]);
    var p := PlaceOf(ss[i], a.cands, k, a.now);
    IdleIsPrefix(a.cands, a.now, a.ttl, p);
    SweptAt(a.cands, n, p);
  }

  /** A sweep takes only what nothing needs, and of that no body used later than one it keeps. */
  lemma OldestGoFirst(ss: seq<State>, acts: seq<Action>, i: nat, k: Key, j: Key)
    requires IsRun(ss, acts) && i < |acts| && k in ss[i].resident && k !in ss[i + 1].resident
    ensures acts[i].Sweep? && Unneeded(ss[i], k)
    ensures Unneeded(ss[i], j) && j in ss[i + 1].resident ==> UsedAt(ss[i], k, acts[i].now) <= UsedAt(ss[i], j, acts[i].now)
  {
    RunSafe(ss, acts, i);
    OnlySweepsEvict(ss, acts, i, k);
    UnneededIsEvictable(ss[i], k);
    assert Step(ss[i], acts[i], ss[i + 1]);
    if Unneeded(ss[i], j) && j in ss[i + 1].resident {
      var a := acts[i];
      var n := SweepLeaves(ss[i], a, ss[i + 1]);
      var p := PlaceOf(ss[i], a.cands, k, a.now);
      var q := PlaceOf(ss[i], a.cands, j, a.now);
      SweptAt(a.cands, n, p);
      SweptAt(a.cands, n, q);
      OlderFirst(a.cands, p, q);
    }
  }

  /** What a sweep keeps is as it was, and is all that is accounted afterwards. */
  lemma SweepKeeps(ss: seq<State>, acts: seq<Action>, i: nat, k: Key)
    requires IsRun(ss, acts) && i < |acts| && acts[i].Sweep?
    ensures k in ss[i + 1].tracked <==> k in ss[i + 1].resident
    ensures k in ss[i + 1].resident ==> k in ss[i].resident && ss[i + 1].resident[k] == ss[i].resident[k]
    ensures k in ss[i + 1].resident ==> ss[i + 1].tracked[k] == Counted(ss[i], k, acts[i].now)
    ensures ss[i + 1].accounted == Sum(ss[i + 1].tracked)
  {
    RunSafe(ss, acts, i);
    assert Step(ss[i], acts[i], ss[i + 1]);
    var n := SweepLeaves(ss[i], acts[i], ss[i + 1]);
  }
}
