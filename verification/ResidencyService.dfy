/** The resident memory as the repository keeps it: tables updated in place, and the loops of the sweep. */
module ResidencyService {
  import opened Prelude
  import opened PostOrder
  import opened Residency

  lemma OlderTransitive(a: Candidate, b: Candidate, c: Candidate)
    requires OlderOrSame(a, b) && OlderOrSame(b, c)
    ensures OlderOrSame(a, c)
  {
    TextTotal(a.key.id, b.key.id);
    TextTotal(b.key.id, c.key.id);
    if TextLess(c.key.id, a.key.id) {
      if TextLess(a.key.id, b.key.id) {
        TextTransitive(c.key.id, a.key.id, b.key.id);
      }
    }
  }

  lemma OlderTotal(a: Candidate, b: Candidate)
    ensures OlderOrSame(a, b) || OlderOrSame(b, a)
  {
    if TextLess(a.key.id, b.key.id) && TextLess(b.key.id, a.key.id) {
      TextTransitive(a.key.id, b.key.id, a.key.id);
      TextIrreflexive(a.key.id);
    }
  }

  lemma Inserted(sorted: seq<Candidate>, c: Candidate, k: nat)
    requires OldestFirst(sorted) && k <= |sorted|
    requires forall j :: 0 <= j < k ==> OlderOrSame(sorted[j], c)
    requires forall j :: k <= j < |sorted| ==> OlderOrSame(c, sorted[j])
    ensures OldestFirst(sorted[..k] + [c] + sorted[k..])
    ensures multiset(sorted[..k] + [c] + sorted[k..]) == multiset(sorted) + multiset{c}
  {
    assert sorted == sorted[..k] + sorted[k..];
  }

  /** The candidates found so far: the evictable bodies among those already looked at, each once. */
  ghost predicate Found(s: State, cands: seq<Candidate>, left: set<Key>) {
    && (forall i, j :: 0 <= i < j < |cands| ==> cands[i].key != cands[j].key)
    && (forall i :: 0 <= i < |cands| ==> cands[i].key !in left && Fits(s, cands[i]))
    && (forall k :: Evictable(s, k) && k !in left ==> exists i :: 0 <= i < |cands| && cands[i].key == k)
  }

  lemma FoundOne(s: State, cands: seq<Candidate>, left: set<Key>, k: Key)
    requires Found(s, cands, left) && k in left && k in s.tracked
    ensures Evictable(s, k) ==> Found(s, cands + [Candidate(k, s.tracked[k].touchedAt)], left - {k})
    ensures !Evictable(s, k) ==> Found(s, cands, left - {k})
  {
    if Evictable(s, k) {
      var more := cands + [Candidate(k, s.tracked[k].touchedAt)];
      forall j | Evictable(s, j) && j !in left - {k} ensures exists i :: 0 <= i < |more| && more[i].key == j {
        if j == k {
          assert more[|cands|].key == k;
        } else {
          var i :| 0 <= i < |cands| && cands[i].key == j;
          assert more[i].key == j;
        }
      }
    }
  }

  lemma SortedFound(s: State, cands: seq<Candidate>, sorted: seq<Candidate>)
    requires Found(s, cands, {}) && OldestFirst(sorted) && multiset(sorted) == multiset(cands)
    ensures Candidates(s, sorted)
  {
    forall x | x in sorted ensures x in cands && Fits(s, x) {
      assert x in multiset(sorted);
      var i :| 0 <= i < |cands| && cands[i] == x;
    }
    forall i | 0 <= i < |sorted| ensures Fits(s, sorted[i]) {
      assert sorted[i] in sorted;
    }
    forall i, j | 0 <= i < j < |sorted| ensures sorted[i].key != sorted[j].key {
      assert Fits(s, sorted[i]) && Fits(s, sorted[j]);
      if sorted[i].key == sorted[j].key {
        OnceEach(cands, sorted[i]);
        TwiceIn(sorted, i, j);
      }
    }
    forall k | Evictable(s, k) ensures exists i :: 0 <= i < |sorted| && sorted[i].key == k {
      var i :| 0 <= i < |cands| && cands[i].key == k;
      assert cands[i] in multiset(cands) && cands[i] in sorted;
    }
  }

  predicate Fits(s: State, c: Candidate) {
    Evictable(s, c.key) && c.key in s.tracked && c.touchedAt == s.tracked[c.key].touchedAt
  }

  lemma OnceEach(cands: seq<Candidate>, x: Candidate)
    requires forall i, j :: 0 <= i < j < |cands| ==> cands[i].key != cands[j].key
    ensures multiset(cands)[x] <= 1
  {
    if x in cands {
      var i :| 0 <= i < |cands| && cands[i] == x;
      assert cands == cands[..i] + [x] + cands[i + 1..];
      assert x !in cands[..i] && x !in cands[i + 1..];
    }
  }

  lemma TwiceIn(s: seq<Candidate>, i: nat, j: nat)
    requires i < j < |s| && s[i] == s[j]
    ensures multiset(s)[s[i]] >= 2
  {
    assert s == s[..i] + [s[i]] + s[i + 1..j] + [s[j]] + s[j + 1..];
  }

  /** What the recount holds of the bodies already looked at. */
  ghost function Seen(p: State, left: set<Key>): map<Key, Tracked> {
    map k | k in p.tracked && k !in left :: p.tracked[k]
  }

  lemma SeenOne(p: State, left: set<Key>, k: Key)
    requires k in left && k in p.tracked
    ensures k !in Seen(p, left) && Seen(p, left - {k}) == Seen(p, left)[k := p.tracked[k]]
  {
  }

  ghost predicate SoFar(p: State, left: set<Key>, all: map<Key, Tracked>, bytes: nat, cands: seq<Candidate>) {
    bytes == Sum(all) && all == Seen(p, left) && Found(p, cands, left)
  }

  lemma SoFarStart(p: State)
    requires p.tracked.Keys == p.resident.Keys
    ensures SoFar(p, p.resident.Keys, map[], 0, [])
  {
    assert Seen(p, p.resident.Keys) == map[];
    assert Sizes(map[]) == map[];
  }

  lemma SoFarEnd(p: State, all: map<Key, Tracked>, bytes: nat, cands: seq<Candidate>)
    requires SoFar(p, {}, all, bytes, cands)
    ensures all == p.tracked && bytes == Sum(all) && Found(p, cands, {})
  {
  }

  lemma SoFarStep(p: State, left: set<Key>, k: Key, t: Tracked, all: map<Key, Tracked>, bytes: nat, cands: seq<Candidate>)
    requires SoFar(p, left, all, bytes, cands) && k in left && k in p.tracked && t == p.tracked[k]
    ensures SoFar(p, left - {k}, all[k := t], bytes + t.bytes,
                  if Evictable(p, k) then cands + [Candidate(k, t.touchedAt)] else cands)
  {
    FoundOne(p, cands, left, k);
    SeenOne(p, left, k);
    SumSet(all, k, t);
  }

  class ResidentMemory {
    var resident: map<Key, Body>
    var tracked: map<Key, Tracked>
    var accounted: nat
    var counts: map<Key, nat>
    ghost var handles: map<nat, Key>

    ghost function View(): State
      reads this
    {
      State(resident, tracked, accounted, counts, handles)
    }

    method Account(k: Key, bytes: nat, now: int)
      requires Books(View())
      modifies this`tracked, this`accounted
      ensures View() == Track(old(View()), k, bytes, now)
    {
      TrackBooks(View(), k, bytes, now);
      if k !in tracked {
        accounted := accounted + bytes;
      } else {
        accounted := accounted + bytes - tracked[k].bytes;
      }
      tracked := tracked[k := Tracked(bytes, now)];
    }

    method NoteResidentSnapshot(k: Key, bytes: nat, now: int, force: bool, retain: bool)
      requires Safe(View())
      modifies this`tracked, this`accounted
      ensures View() == Note(old(View()), k, bytes, now, force, retain) && Safe(View())
    {
      NoteSafe(View(), k, bytes, now, force, retain);
      if k.id == "" || k.channel == "" {
        return;
      }
      if !force && k !in tracked && !retain {
        return;
      }
      if force && k !in resident {
        return;
      }
      Account(k, bytes, now);
    }

    method LeasePost(ghost h: nat, k: Key, now: int) returns (leased: bool)
      requires Safe(View()) && h !in handles
      modifies this
      ensures View() == Lease(old(View()), h, k, now) && Safe(View())
      ensures leased <==> k.id != "" && k.channel != "" && k in old(resident)
    {
      LeaseSafe(View(), h, k, now);
      if k.id == "" || k.channel == "" || k !in resident {
        return false;
      }
      if k !in tracked {
        Account(k, resident[k].fallback, now);
      } else {
        tracked := tracked[k := tracked[k].(touchedAt := now)];
      }
      counts := counts[k := (if k in counts then counts[k] else 0) + 1];
      handles := handles[h := k];
      return true;
    }

    method ReleasePostLease(k: Key, now: int)
      modifies this`counts, this`tracked
      ensures View() == Release(old(View()), k, now)
    {
      if k !in counts {
        return;
      }
      if counts[k] > 1 {
        counts := counts[k := counts[k] - 1];
        return;
      }
      counts := counts - {k};
      if k in tracked {
        tracked := tracked[k := tracked[k].(touchedAt := now)];
      }
    }

    /** A lease object lets go; letting go twice releases once. */
    method ResetLease(ghost h: nat, k: Option<Key>, now: int)
      requires Safe(View()) && (k.Some? <==> h in handles) && (k.Some? ==> handles[h] == k.value)
      modifies this
      ensures View() == Reset(old(View()), h, now) && Safe(View())
    {
      ResetSafe(View(), h, now);
      if k.Some? {
        ReleasePostLease(k.value, now);
        handles := handles - {h};
      }
    }

    /** Move assignment of lease objects: the target lets go first, and the source holds nothing afterwards. */
    method MoveLease(ghost source: nat, ghost target: nat, same: bool, held: Option<Key>, now: int)
      requires Safe(View()) && (same <==> source == target)
      requires (held.Some? <==> target in handles) && (held.Some? ==> handles[target] == held.value)
      modifies this
      ensures View() == Move(old(View()), source, target, now) && Safe(View())
    {
      MoveSafe(View(), source, target, now);
      if same {
        return;
      }
      ResetLease(target, held, now);
      if source in handles {
        handles := (handles - {source})[target := handles[source]];
      }
    }

    // -------------------------------------------------------------- the sweep

    /** The loop over all resident bodies: recount, start the clock of unknown ones, and note what may be evicted. */
    method Recount(now: int) returns (all: map<Key, Tracked>, bytes: nat, cands: seq<Candidate>)
      ensures all == Recounted(View(), now) && bytes == Sum(all)
      ensures Found(Prepared(View(), now), cands, {})
    {
      ghost var p := Prepared(View(), now);
      all, bytes, cands := map[], 0, [];
      SoFarStart(p);
      var left := resident.Keys;
      while left != {}
        invariant left <= resident.Keys && SoFar(p, left, all, bytes, cands)
        decreases |left|
      {
        var k :| k in left;
        all, bytes, cands := RecountOne(k, now, p, left, all, bytes, cands);
        left := left - {k};
      }
      SoFarEnd(p, all, bytes, cands);
    }

    method RecountOne(k: Key, now: int, ghost p: State, ghost left: set<Key>,
                      all: map<Key, Tracked>, bytes: nat, cands: seq<Candidate>)
      returns (all': map<Key, Tracked>, bytes': nat, cands': seq<Candidate>)
      requires p == Prepared(View(), now) && k in left && k in resident && SoFar(p, left, all, bytes, cands)
      ensures SoFar(p, left - {k}, all', bytes', cands')
    {
      var t := if k in tracked then tracked[k] else Tracked(resident[k].fallback, now);
      SoFarStep(p, left, k, t, all, bytes, cands);
      all', bytes', cands' := all[k := t], bytes + t.bytes, cands;
      if !(k in counts && counts[k] > 0) && !Pinned(resident, k) {
        cands' := cands + [Candidate(k, t.touchedAt)];
      }
    }

    method Collect(now: int) returns (cands: seq<Candidate>)
      modifies this`tracked, this`accounted, this`counts
      ensures View() == Prepared(old(View()), now) && Found(View(), cands, {})
    {
      var all, bytes;
      all, bytes, cands := Recount(now);
      tracked, accounted := all, bytes;
      counts := map k | k in counts && k in resident :: counts[k];
    }

    method SortCandidates(cands: seq<Candidate>) returns (sorted: seq<Candidate>)
      ensures OldestFirst(sorted) && multiset(sorted) == multiset(cands)
    {
      sorted := [];
      var i := 0;
      while i < |cands|
        invariant i <= |cands| && OldestFirst(sorted) && multiset(sorted) == multiset(cands[..i])
      {
        sorted := InsertCandidate(sorted, cands[i]);
        assert cands[..i + 1] == cands[..i] + [cands[i]];
        i := i + 1;
      }
      assert cands[..i] == cands;
    }

    method InsertCandidate(sorted: seq<Candidate>, c: Candidate) returns (r: seq<Candidate>)
      requires OldestFirst(sorted)
      ensures OldestFirst(r) && multiset(r) == multiset(sorted) + multiset{c}
    {
      var k := |sorted|;
      while k > 0 && !OlderOrSame(sorted[k - 1], c)
        invariant 0 <= k <= |sorted|
        invariant forall j :: k <= j < |sorted| ==> OlderOrSame(c, sorted[j])
      {
        OlderTotal(sorted[k - 1], c);
        k := k - 1;
      }
      forall j | 0 <= j < k ensures OlderOrSame(sorted[j], c) {
        if j < k - 1 {
          OlderTransitive(sorted[j], sorted[k - 1], c);
        }
      }
      Inserted(sorted, c, k);
      r := sorted[..k] + [c] + sorted[k..];
    }

    method TryEvict(k: Key)
      modifies this
      ensures View() == Evict(old(View()), k)
    {
      if k !in resident || (k in counts && counts[k] > 0) || Pinned(resident, k) {
        return;
      }
      var bytes := if k in tracked then tracked[k].bytes else 0;
      resident := resident - {k};
      accounted := if accounted >= bytes then accounted - bytes else 0;
      tracked := tracked - {k};
      counts := counts - {k};
    }

    method EvictIdle(cands: seq<Candidate>, now: int, ttl: int)
      modifies this
      ensures View() == IdlePass(old(View()), cands, now, ttl)
    {
      var i := 0;
      while i < |cands|
        invariant i <= |cands|
        invariant IdlePass(View(), cands[i..], now, ttl) == IdlePass(old(View()), cands, now, ttl)
      {
        assert cands[i..][0] == cands[i] && cands[i..][1..] == cands[i + 1..];
        if now - cands[i].touchedAt >= ttl {
          TryEvict(cands[i].key);
        }
        i := i + 1;
      }
    }

    method EvictUnderPressure(cands: seq<Candidate>, target: nat)
      modifies this
      ensures View() == PressurePass(old(View()), cands, target)
    {
      var i := 0;
      while i < |cands| && accounted > target
        invariant i <= |cands|
        invariant PressurePass(View(), cands[i..], target) == PressurePass(old(View()), cands, target)
      {
        assert cands[i..][0] == cands[i] && cands[i..][1..] == cands[i + 1..];
        TryEvict(cands[i].key);
        i := i + 1;
      }
    }

    method SweepResidentBodies(now: int, ttl: int, hard: nat, target: nat) returns (ghost cands: seq<Candidate>)
      requires Safe(View()) && target <= hard
      modifies this
      ensures Candidates(Prepared(old(View()), now), cands)
      ensures View() == Passes(Prepared(old(View()), now), cands, now, ttl, hard, target) && Safe(View())
    {
      PreparedSafe(View(), now);
      var found := Collect(now);
      ghost var p := View();
      var sorted := SortCandidates(found);
      SortedFound(p, found, sorted);
      cands := sorted;
      EvictIdle(sorted, now, ttl);
      if accounted > hard {
        EvictUnderPressure(sorted, target);
      }
      SweepOutcome(p, sorted, now, ttl, hard, target, Key("", ""));
    }
  }
}
