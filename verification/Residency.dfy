/** Resident post bodies: byte accounting, leases that pin bodies, and the sweep that evicts the others oldest first. */
module Residency {
  import opened Prelude
  import opened Totals
  import opened PostOrder

  datatype Key = Key(channel: Id, id: Id)

  /** A body in a channel: its thread root, and what it counts for when nothing better is known. */
  datatype Body = Body(root: Id, fallback: nat)

  datatype Tracked = Tracked(bytes: nat, touchedAt: int)

  /** `handles` are the live leases; a moved-from or reset lease holds nothing and is not among them. */
  datatype State = State(resident: map<Key, Body>, tracked: map<Key, Tracked>, accounted: nat,
                         counts: map<Key, nat>, handles: map<nat, Key>)

  datatype Candidate = Candidate(key: Key, touchedAt: int)

  // ---------------------------------------------------------------- accounting

  ghost function Sizes(tracked: map<Key, Tracked>): map<Key, nat> {
    map k | k in tracked :: tracked[k].bytes
  }

  ghost function Sum(tracked: map<Key, Tracked>): nat {
    Total(Sizes(tracked))
  }

  lemma SumSet(tracked: map<Key, Tracked>, k: Key, t: Tracked)
    ensures Sum(tracked[k := t]) == Sum(tracked) + t.bytes - (if k in tracked then tracked[k].bytes else 0)
  {
    assert Sizes(tracked[k := t]) == Sizes(tracked)[k := t.bytes];
    if k in tracked {
      TotalUpdate(Sizes(tracked), k, t.bytes);
    } else {
      TotalInsert(Sizes(tracked), k, t.bytes);
    }
  }

  lemma SumRemove(tracked: map<Key, Tracked>, k: Key)
    requires k in tracked
    ensures Sum(tracked) == tracked[k].bytes + Sum(tracked - {k})
  {
    assert Sizes(tracked - {k}) == Sizes(tracked) - {k};
    TotalRemove(Sizes(tracked), k);
  }

  function Known(m: map<Key, nat>, k: Key): nat {
    if k in m then m[k] else 0
  }

  predicate Leased(s: State, k: Key) {
    Known(s.counts, k) > 0
  }

  /** A resident reply pins the body of its root. */
  predicate Pinned(resident: map<Key, Body>, k: Key) {
    exists j :: j in resident && j != k && j.channel == k.channel && resident[j].root == k.id
  }

  predicate Evictable(s: State, k: Key) {
    k in s.resident && !Leased(s, k) && !Pinned(s.resident, k)
  }

  function Track(s: State, k: Key, bytes: nat, now: int): State {
    var was := if k in s.tracked then s.tracked[k].bytes else 0;
    s.(tracked := s.tracked[k := Tracked(bytes, now)],
       accounted := if s.accounted + bytes >= was then s.accounted + bytes - was else 0)
  }

  /** A snapshot of a post: `retain` says whether its channel keeps bodies, `force` that it must be there already. */
  function Note(s: State, k: Key, bytes: nat, now: int, force: bool, retain: bool): State {
    if k.id == "" || k.channel == "" then s
    else if !force && k !in s.tracked && !retain then s
    else if force && k !in s.resident then s
    else Track(s, k, bytes, now)
  }

  // ---------------------------------------------------------------- leases

  function Touch(s: State, k: Key, now: int): State {
    if k in s.tracked then s.(tracked := s.tracked[k := s.tracked[k].(touchedAt := now)]) else s
  }

  function Lease(s: State, h: nat, k: Key, now: int): State {
    if k.id == "" || k.channel == "" || k !in s.resident then s
    else
      var v := if k in s.tracked then Touch(s, k, now) else Track(s, k, s.resident[k].fallback, now);
      v.(counts := v.counts[k := Known(v.counts, k) + 1], handles := v.handles[h := k])
  }

  function Release(s: State, k: Key, now: int): State {
    if k !in s.counts then s
    else if s.counts[k] <= 1 then Touch(s.(counts := s.counts - {k}), k, now)
    else s.(counts := s.counts[k := s.counts[k] - 1])
  }

  function Reset(s: State, h: nat, now: int): State {
    if h !in s.handles then s
    else Release(s, s.handles[h], now).(handles := s.handles - {h})
  }

  /** Move assignment: the target lets go of what it held, and takes over what the source held. */
  function Move(s: State, source: nat, target: nat, now: int): State {
    if source == target then s
    else
      var v := Reset(s, target, now);
      if source !in v.handles then v
      else v.(handles := (v.handles - {source})[target := v.handles[source]])
  }

  // ---------------------------------------------------------------- the sweep

  function Recounted(s: State, now: int): map<Key, Tracked> {
    map k | k in s.resident :: if k in s.tracked then s.tracked[k] else Tracked(s.resident[k].fallback, now)
  }

  ghost function Prepared(s: State, now: int): State {
    s.(tracked := Recounted(s, now), accounted := Sum(Recounted(s, now)),
       counts := map k | k in s.counts && k in s.resident :: s.counts[k])
  }

  function Evict(s: State, k: Key): State {
    if !Evictable(s, k) then s
    else
      var bytes := if k in s.tracked then s.tracked[k].bytes else 0;
      s.(resident := s.resident - {k}, tracked := s.tracked - {k}, counts := s.counts - {k},
         accounted := if s.accounted >= bytes then s.accounted - bytes else 0)
  }

  predicate Idle(c: Candidate, now: int, ttl: int) {
    now - c.touchedAt >= ttl
  }

  function IdlePass(s: State, cands: seq<Candidate>, now: int, ttl: int): State
    decreases |cands|
  {
    if cands == [] then s
    else IdlePass(if Idle(cands[0], now, ttl) then Evict(s, cands[0].key) else s, cands[1..], now, ttl)
  }

  function PressurePass(s: State, cands: seq<Candidate>, target: nat): State
    decreases |cands|
  {
    if cands == [] || s.accounted <= target then s
    else PressurePass(Evict(s, cands[0].key), cands[1..], target)
  }

  function Passes(s: State, cands: seq<Candidate>, now: int, ttl: int, hard: nat, target: nat): State {
    var v := IdlePass(s, cands, now, ttl);
    if v.accounted > hard then PressurePass(v, cands, target) else v
  }

  predicate OlderOrSame(a: Candidate, b: Candidate) {
    a.touchedAt < b.touchedAt || (a.touchedAt == b.touchedAt && !TextLess(b.key.id, a.key.id))
  }

  ghost predicate OldestFirst(cands: seq<Candidate>) {
    forall i, j :: 0 <= i < j < |cands| ==> OlderOrSame(cands[i], cands[j])
  }

  /** The candidates of a sweep: every body that nothing leases and no reply pins, each once, oldest first. */
  ghost predicate Candidates(s: State, cands: seq<Candidate>) {
    && OldestFirst(cands)
    && (forall i, j :: 0 <= i < j < |cands| ==> cands[i].key != cands[j].key)
    && (forall i :: 0 <= i < |cands| ==>
          Evictable(s, cands[i].key) && cands[i].key in s.tracked && cands[i].touchedAt == s.tracked[cands[i].key].touchedAt)
    && (forall k :: Evictable(s, k) ==> exists i :: 0 <= i < |cands| && cands[i].key == k)
  }

  // ---------------------------------------------------------------- the invariant

  /** The number of live leases of a body. */
  ghost function Holders(handles: map<nat, Key>, k: Key): set<nat> {
    set h | h in handles && handles[h] == k
  }

  ghost predicate Books(s: State) {
    s.accounted == Sum(s.tracked)
  }

  ghost predicate LeasesOk(s: State) {
    && (forall k :: Known(s.counts, k) == |Holders(s.handles, k)|)
    && (forall k :: k in s.counts ==> s.counts[k] > 0)
    && (forall h :: h in s.handles ==> s.handles[h] in s.resident)
  }

  ghost predicate Safe(s: State) {
    Books(s) && LeasesOk(s)
  }

  lemma TrackBooks(s: State, k: Key, bytes: nat, now: int)
    requires Books(s)
    ensures Books(Track(s, k, bytes, now))
    ensures s.accounted + bytes >= (if k in s.tracked then s.tracked[k].bytes else 0)
  {
    SumSet(s.tracked, k, Tracked(bytes, now));
    if k in s.tracked {
      SumRemove(s.tracked, k);
    }
  }

  lemma TouchBooks(s: State, k: Key, now: int)
    requires Books(s)
    ensures Books(Touch(s, k, now))
  {
    if k in s.tracked {
      SumSet(s.tracked, k, s.tracked[k].(touchedAt := now));
    }
  }

  lemma NoteSafe(s: State, k: Key, bytes: nat, now: int, force: bool, retain: bool)
    requires Safe(s)
    ensures Safe(Note(s, k, bytes, now, force, retain))
  {
    TrackBooks(s, k, bytes, now);
  }

  lemma HoldersAdd(handles: map<nat, Key>, h: nat, k: Key, j: Key)
    requires h !in handles
    ensures |Holders(handles[h := k], j)| == |Holders(handles, j)| + (if j == k then 1 else 0)
  {
    assert Holders(handles[h := k], j) == if j == k then Holders(handles, j) + {h} else Holders(handles, j);
  }

  lemma HoldersRemove(handles: map<nat, Key>, h: nat, j: Key)
    requires h in handles
    ensures |Holders(handles - {h}, j)| == |Holders(handles, j)| - (if j == handles[h] then 1 else 0)
  {
    assert Holders(handles - {h}, j) == Holders(handles, j) - {h};
  }

  lemma LeaseSafe(s: State, h: nat, k: Key, now: int)
    requires Safe(s) && h !in s.handles
    ensures Safe(Lease(s, h, k, now))
  {
    if k in s.resident {
      TrackBooks(s, k, s.resident[k].fallback, now);
      TouchBooks(s, k, now);
      var w := Lease(s, h, k, now);
      if k.id != "" && k.channel != "" {
        forall j ensures Known(w.counts, j) == |Holders(w.handles, j)| {
          HoldersAdd(s.handles, h, k, j);
          assert Known(s.counts, j) == |Holders(s.handles, j)|;
        }
      }
    }
  }

  lemma ResetSafe(s: State, h: nat, now: int)
    requires Safe(s)
    ensures Safe(Reset(s, h, now))
    ensures h !in Reset(s, h, now).handles
    ensures forall o :: o != h ==> (o in Reset(s, h, now).handles <==> o in s.handles)
    ensures forall o :: o != h && o in s.handles ==> Reset(s, h, now).handles[o] == s.handles[o]
  {
    if h in s.handles {
      var k := s.handles[h];
      assert h in Holders(s.handles, k);
      forall j ensures |Holders(s.handles - {h}, j)| == |Holders(s.handles, j)| - (if j == k then 1 else 0) {
        HoldersRemove(s.handles, h, j);
      }
      assert Known(s.counts, k) > 0;
      TouchBooks(s.(counts := s.counts - {k}), k, now);
    }
  }

  lemma MoveSafe(s: State, source: nat, target: nat, now: int)
    requires Safe(s)
    ensures Safe(Move(s, source, target, now))
  {
    if source != target {
      ResetSafe(s, target, now);
      var v := Reset(s, target, now);
      if source in v.handles {
        var (w, k) := (v.handles - {source}, v.handles[source]);
        forall j ensures |Holders(w[target := k], j)| == |Holders(v.handles, j)| {
          HoldersRemove(v.handles, source, j);
          HoldersAdd(w, target, k, j);
        }
      }
    }
  }

  /** The clamp at zero never acts. */
  lemma EvictSafe(s: State, k: Key)
    requires Safe(s)
    ensures Safe(Evict(s, k))
    ensures k in s.tracked ==> s.tracked[k].bytes <= s.accounted
  {
    if k in s.tracked {
      SumRemove(s.tracked, k);
    }
    if Evictable(s, k) {
      assert Holders(s.handles, k) == {};
      forall h | h in s.handles ensures s.handles[h] in s.resident - {k} {
        assert s.handles[h] == k ==> h in Holders(s.handles, k);
      }
      if k !in s.tracked {
        assert s.tracked - {k} == s.tracked;
      }
    }
  }

  lemma PreparedSafe(s: State, now: int)
    requires Safe(s)
    ensures Safe(Prepared(s, now))
    ensures forall k :: Leased(Prepared(s, now), k) <==> Leased(s, k)
  {
    forall k | k in s.counts ensures k in s.resident {
      assert |Holders(s.handles, k)| > 0;
      var h :| h in Holders(s.handles, k);
    }
    assert Prepared(s, now).counts == s.counts;
  }

  // ---------------------------------------------------------------- what a sweep does

  /** Each of these is still evictable unless it is gone already. */
  ghost predicate Waiting(s: State, cands: seq<Candidate>) {
    forall i :: 0 <= i < |cands| && cands[i].key in s.resident ==> Evictable(s, cands[i].key)
  }

  function Removed(s: State, keys: set<Key>): map<Key, Body> {
    s.resident - keys
  }

  /** Evicting one body never makes another one unevictable. */
  lemma EvictKeepsWaiting(s: State, cands: seq<Candidate>, k: Key)
    requires Waiting(s, cands)
    ensures Waiting(Evict(s, k), cands)
  {
  }

  function Keys(cands: seq<Candidate>): set<Key> {
    set i | 0 <= i < |cands| :: cands[i].key
  }

  lemma KeysCons(cands: seq<Candidate>)
    requires cands != []
    ensures Keys(cands) == {cands[0].key} + Keys(cands[1..])
  {
    assert cands == [cands[0]] + cands[1..];
  }

  /** The oldest-first order makes the idle candidates a prefix. */
  function IdleCount(cands: seq<Candidate>, now: int, ttl: int): (n: nat)
    ensures n <= |cands|
  {
    if cands == [] || !Idle(cands[0], now, ttl) then 0 else 1 + IdleCount(cands[1..], now, ttl)
  }

  lemma {:induction false} IdleIsPrefix(cands: seq<Candidate>, now: int, ttl: int, i: nat)
    requires OldestFirst(cands) && i < |cands|
    ensures Idle(cands[i], now, ttl) <==> i < IdleCount(cands, now, ttl)
  {
    if i > 0 {
      assert forall j :: 0 <= j < |cands| - 1 ==> cands[1..][j] == cands[j + 1];
      assert OlderOrSame(cands[0], cands[i]);
      IdleIsPrefix(cands[1..], now, ttl, i - 1);
    }
  }

  /** The state after evicting the first n candidates. */
  function EvictFirst(s: State, cands: seq<Candidate>, n: nat): State
    requires n <= |cands|
    decreases n
  {
    if n == 0 then s else EvictFirst(Evict(s, cands[0].key), cands[1..], n - 1)
  }

  lemma {:induction false} NothingIdle(s: State, cands: seq<Candidate>, now: int, ttl: int)
    requires forall i :: 0 <= i < |cands| ==> !Idle(cands[i], now, ttl)
    ensures IdlePass(s, cands, now, ttl) == s
    decreases |cands|
  {
    if cands != [] {
      assert forall j :: 0 <= j < |cands| - 1 ==> cands[1..][j] == cands[j + 1];
      NothingIdle(s, cands[1..], now, ttl);
    }
  }

  lemma {:induction false} IdlePassIsPrefix(s: State, cands: seq<Candidate>, now: int, ttl: int)
    requires OldestFirst(cands)
    ensures IdlePass(s, cands, now, ttl) == EvictFirst(s, cands, IdleCount(cands, now, ttl))
    decreases |cands|
  {
    if cands != [] {
      assert forall j :: 0 <= j < |cands| - 1 ==> cands[1..][j] == cands[j + 1];
      if Idle(cands[0], now, ttl) {
        IdlePassIsPrefix(Evict(s, cands[0].key), cands[1..], now, ttl);
      } else {
        forall i | 0 <= i < |cands| ensures !Idle(cands[i], now, ttl) {
          IdleIsPrefix(cands, now, ttl, i);
        }
        NothingIdle(s, cands, now, ttl);
      }
    }
  }

  /** How many candidates pressure takes: it stops as soon as the target is met. */
  function PressureCount(s: State, cands: seq<Candidate>, target: nat): (n: nat)
    ensures n <= |cands|
    decreases |cands|
  {
    if cands == [] || s.accounted <= target then 0
    else 1 + PressureCount(Evict(s, cands[0].key), cands[1..], target)
  }

  lemma {:induction false} PressureStops(s: State, cands: seq<Candidate>, target: nat, j: nat)
    ensures var n := PressureCount(s, cands, target);
      && PressurePass(s, cands, target) == EvictFirst(s, cands, n)
      && (n == |cands| || PressurePass(s, cands, target).accounted <= target)
      && (j < n ==> EvictFirst(s, cands, j).accounted > target)
    decreases |cands|
  {
    if !(cands == [] || s.accounted <= target) {
      PressureStops(Evict(s, cands[0].key), cands[1..], target, if j > 0 then j - 1 else 0);
    }
  }

  lemma EvictOne(s: State, cands: seq<Candidate>, v: State)
    requires Safe(s) && Waiting(s, cands) && cands != [] && v == Evict(s, cands[0].key)
    ensures Safe(v) && Waiting(v, cands[1..]) && v.resident == s.resident - {cands[0].key}
  {
    EvictSafe(s, cands[0].key);
    EvictKeepsWaiting(s, cands, cands[0].key);
    forall j | 0 <= j < |cands| - 1 ensures cands[1..][j] == cands[j + 1] {
    }
  }

  lemma WaitingCons(s: State, cands: seq<Candidate>)
    requires cands != [] && Waiting(s, cands[1..]) && cands[0].key !in s.resident
    ensures Waiting(s, cands)
  {
    assert cands == [cands[0]] + cands[1..];
  }

  /** Evicting a prefix removes exactly the bodies of that prefix and keeps the books. */
  lemma {:induction false} EvictFirstRemoves(s: State, cands: seq<Candidate>, n: nat)
    requires Safe(s) && Waiting(s, cands) && n <= |cands|
    ensures var v := EvictFirst(s, cands, n);
      Safe(v) && v.resident == s.resident - Keys(cands[..n]) && Waiting(v, cands)
    decreases n
  {
    if n > 0 {
      var v := Evict(s, cands[0].key);
      EvictOne(s, cands, v);
      EvictFirstRemoves(v, cands[1..], n - 1);
      assert cands[..n][1..] == cands[1..][..n - 1];
      KeysCons(cands[..n]);
      WaitingCons(EvictFirst(s, cands, n), cands);
    } else {
      assert Keys(cands[..0]) == {};
    }
  }

  /** Candidates that are gone already are passed over. */
  lemma {:induction false} GonePassed(s: State, cands: seq<Candidate>, m: nat, target: nat)
    requires m <= |cands| && forall i :: 0 <= i < m ==> cands[i].key !in s.resident
    ensures s.accounted > target ==> PressurePass(s, cands, target) == PressurePass(s, cands[m..], target)
    decreases m
  {
    if m > 0 {
      assert Evict(s, cands[0].key) == s;
      assert forall j :: 0 <= j < |cands| - 1 ==> cands[1..][j] == cands[j + 1];
      GonePassed(s, cands[1..], m - 1, target);
      assert cands[1..][m - 1..] == cands[m..];
    } else {
      assert cands[0..] == cands;
    }
  }

  /** How many candidates a sweep evicts, oldest first: the idle ones, and under pressure as many more as it takes. */
  function SweepCount(s: State, cands: seq<Candidate>, now: int, ttl: int, hard: nat, target: nat): (n: nat)
    ensures n <= |cands|
  {
    var m := IdleCount(cands, now, ttl);
    var v := EvictFirst(s, cands, m);
    if v.accounted > hard then m + PressureCount(v, cands[m..], target) else m
  }

  lemma {:induction false} EvictFirstSplit(s: State, cands: seq<Candidate>, m: nat, n: nat)
    requires m + n <= |cands|
    ensures EvictFirst(EvictFirst(s, cands, m), cands[m..], n) == EvictFirst(s, cands, m + n)
    decreases m
  {
    if m > 0 {
      EvictFirstSplit(Evict(s, cands[0].key), cands[1..], m - 1, n);
      assert cands[1..][m - 1..] == cands[m..];
    } else {
      assert cands[0..] == cands;
    }
  }

  lemma PressureTakes(s: State, cands: seq<Candidate>, m: nat, target: nat, v: State, p: nat)
    requires m <= |cands| && v == EvictFirst(s, cands, m) && v.accounted > target
    requires forall i :: 0 <= i < m ==> cands[i].key !in v.resident
    requires p == PressureCount(v, cands[m..], target)
    ensures m + p <= |cands| && PressurePass(v, cands, target) == EvictFirst(s, cands, m + p)
    ensures m + p == |cands| || EvictFirst(s, cands, m + p).accounted <= target
  {
    GonePassed(v, cands, m, target);
    PressureStops(v, cands[m..], target, 0);
    EvictFirstSplit(s, cands, m, p);
  }

  lemma PressureNeeded(s: State, cands: seq<Candidate>, m: nat, target: nat, v: State, p: nat)
    requires m <= |cands| && v == EvictFirst(s, cands, m) && p == PressureCount(v, cands[m..], target) && p > 0
    ensures m + p <= |cands| && EvictFirst(s, cands, m + p - 1).accounted > target
  {
    PressureStops(v, cands[m..], target, p - 1);
    EvictFirstSplit(s, cands, m, p - 1);
  }

  /** Under pressure, the candidates that went as idle are passed over and the next ones go. */
  lemma PressurePrefix(s: State, cands: seq<Candidate>, m: nat, target: nat, v: State)
    requires m <= |cands| && v == EvictFirst(s, cands, m) && v.accounted > target
    requires forall i :: 0 <= i < m ==> cands[i].key !in v.resident
    ensures var n := m + PressureCount(v, cands[m..], target);
      && PressurePass(v, cands, target) == EvictFirst(s, cands, n)
      && (n == |cands| || EvictFirst(s, cands, n).accounted <= target)
      && (n > m ==> EvictFirst(s, cands, n - 1).accounted > target)
  {
    var p := PressureCount(v, cands[m..], target);
    PressureTakes(s, cands, m, target, v, p);
    if p > 0 {
      PressureNeeded(s, cands, m, target, v, p);
    }
  }

  lemma PrefixGone(s: State, cands: seq<Candidate>, m: nat)
    requires Safe(s) && Waiting(s, cands) && m <= |cands|
    ensures forall i :: 0 <= i < m ==> cands[i].key !in EvictFirst(s, cands, m).resident
  {
    EvictFirstRemoves(s, cands, m);
    forall i | 0 <= i < m ensures cands[i].key in Keys(cands[..m]) {
      assert cands[..m][i] == cands[i];
    }
  }

  /** Both passes together evict one prefix of the candidates, as long as it has to be and no longer. */
  lemma SweepIsPrefix(s: State, cands: seq<Candidate>, now: int, ttl: int, hard: nat, target: nat)
    requires Safe(s) && Waiting(s, cands) && OldestFirst(cands) && target <= hard
    ensures var t, n := Passes(s, cands, now, ttl, hard, target), SweepCount(s, cands, now, ttl, hard, target);
      && t == EvictFirst(s, cands, n)
      && (t.accounted > hard ==> n == |cands|)
      && (n > IdleCount(cands, now, ttl) ==>
            EvictFirst(s, cands, IdleCount(cands, now, ttl)).accounted > hard && EvictFirst(s, cands, n - 1).accounted > target)
  {
    var m := IdleCount(cands, now, ttl);
    IdlePassIsPrefix(s, cands, now, ttl);
    PrefixGone(s, cands, m);
    if EvictFirst(s, cands, m).accounted > hard {
      PressurePrefix(s, cands, m, target, EvictFirst(s, cands, m));
    }
  }

  /**
   * The outcome of a sweep. Exactly a prefix of the oldest-first candidates goes, so nothing leased and nothing a
   * resident reply pins; every idle body goes; pressure sets in only above the hard limit and stops as soon as the
   * target is met; and if the hard limit is still exceeded, every candidate is gone.
   */
  lemma SweepOutcome(s: State, cands: seq<Candidate>, now: int, ttl: int, hard: nat, target: nat, k: Key)
    requires Safe(s) && Candidates(s, cands) && target <= hard
    ensures var t, n := Passes(s, cands, now, ttl, hard, target), SweepCount(s, cands, now, ttl, hard, target);
      && Safe(t)
      && t.resident == s.resident - Keys(cands[..n])
      && (k in s.resident && k !in t.resident ==> !Leased(s, k) && !Pinned(s.resident, k))
      && IdleCount(cands, now, ttl) <= n
      && (n > IdleCount(cands, now, ttl) ==>
            EvictFirst(s, cands, IdleCount(cands, now, ttl)).accounted > hard && EvictFirst(s, cands, n - 1).accounted > target)
      && (t.accounted > hard && k in t.resident ==> Leased(s, k) || Pinned(s.resident, k))
  {
    var n := SweepCount(s, cands, now, ttl, hard, target);
    SweepIsPrefix(s, cands, now, ttl, hard, target);
    EvictFirstRemoves(s, cands, n);
    SweptKeys(s, cands, n, k);
  }

  lemma SweptKeys(s: State, cands: seq<Candidate>, n: nat, k: Key)
    requires Candidates(s, cands) && n <= |cands|
    ensures k in Keys(cands[..n]) ==> Evictable(s, k)
    ensures n == |cands| && Evictable(s, k) ==> k in Keys(cands[..n])
  {
    if n == |cands| && Evictable(s, k) {
      var i :| 0 <= i < |cands| && cands[i].key == k;
      assert cands[..n][i].key == k;
    }
  }

  /** The idle time of a body starts when its last lease lets go, and only then. */
  lemma IdleStartsAtRelease(s: State, h: nat, now: int)
    requires Safe(s) && h in s.handles && s.handles[h] in s.tracked
    ensures var (k, t) := (s.handles[h], Reset(s, h, now));
      && k in t.tracked && t.tracked[k].bytes == s.tracked[k].bytes
      && (Holders(t.handles, k) == {} ==> t.tracked[k].touchedAt == now && !Leased(t, k))
      && (Holders(t.handles, k) != {} ==> t.tracked[k].touchedAt == s.tracked[k].touchedAt && Leased(t, k))
  {
    var k := s.handles[h];
    ResetSafe(s, h, now);
    HoldersRemove(s.handles, h, k);
    assert h in Holders(s.handles, k);
    assert Known(s.counts, k) == |Holders(s.handles, k)|;
    assert Known(Reset(s, h, now).counts, k) == |Holders(Reset(s, h, now).handles, k)|;
  }

  // ---------------------------------------------------------------- runs

  datatype Action =
    | Arrive(key: Key, body: Body)
    | Noting(key: Key, bytes: nat, now: int, force: bool, retain: bool)
    | Leasing(handle: nat, key: Key, now: int)
    | Resetting(handle: nat, now: int)
    | Moving(source: nat, target: nat, now: int)
    | Sweep(cands: seq<Candidate>, now: int, ttl: int, hard: nat, target: nat)

  /** A lease object holds one lease; a sweep looks at exactly the candidates, and its target is below its limit. */
  ghost predicate Enabled(s: State, a: Action) {
    match a
    case Leasing(h, _, _) => h !in s.handles
    case Sweep(cands, now, _, hard, target) => target <= hard && Candidates(Prepared(s, now), cands)
    case _ => true
  }

  ghost function Next(s: State, a: Action): State {
    match a
    case Arrive(k, body) => s.(resident := s.resident[k := body])
    case Noting(k, bytes, now, force, retain) => Note(s, k, bytes, now, force, retain)
    case Leasing(h, k, now) => Lease(s, h, k, now)
    case Resetting(h, now) => Reset(s, h, now)
    case Moving(source, target, now) => Move(s, source, target, now)
    case Sweep(cands, now, ttl, hard, target) => Passes(Prepared(s, now), cands, now, ttl, hard, target)
  }

  lemma NextSafe(s: State, a: Action, t: State)
    requires Safe(s) && Enabled(s, a) && t == Next(s, a)
    ensures Safe(t)
  {
    match a
    case Arrive(_, _) =>
    case Noting(k, bytes, now, force, retain) => NoteSafe(s, k, bytes, now, force, retain);
    case Leasing(h, k, now) => LeaseSafe(s, h, k, now);
    case Resetting(h, now) => ResetSafe(s, h, now);
    case Moving(source, target, now) => MoveSafe(s, source, target, now);
    case Sweep(cands, now, ttl, hard, target) =>
      PreparedSafe(s, now);
      SweepOutcome(Prepared(s, now), cands, now, ttl, hard, target, Key("", ""));
  }

  ghost predicate Step(s: State, a: Action, t: State) {
    Enabled(s, a) && t == Next(s, a)
  }

  ghost predicate IsRun(ss: seq<State>, acts: seq<Action>) {
    && |ss| == |acts| + 1 && ss[0] == State(ss[0].resident, map[], 0, map[], map[])
    && forall i :: 0 <= i < |acts| ==> Step(ss[i], acts[i], ss[i + 1])
  }

  /** Over every run the accounted bytes are those of the tracked bodies, and leases are counted as held. */
  lemma {:induction false} RunSafe(ss: seq<State>, acts: seq<Action>, i: nat)
    requires IsRun(ss, acts) && i < |ss|
    ensures Safe(ss[i])
  {
    if i == 0 {
      assert Sizes(map[]) == map[];
      assert forall k :: Holders(ss[0].handles, k) == {};
    } else {
      RunSafe(ss, acts, i - 1);
      assert Step(ss[i - 1], acts[i - 1], ss[i]);
      NextSafe(ss[i - 1], acts[i - 1], ss[i]);
    }
  }

  /** Over every run a body leaves only in a sweep, and only when nothing leases it and no resident reply needs it. */
  lemma OnlySweepsEvict(ss: seq<State>, acts: seq<Action>, i: nat, k: Key)
    requires IsRun(ss, acts) && i < |acts| && k in ss[i].resident && k !in ss[i + 1].resident
    ensures acts[i].Sweep? && Holders(ss[i].handles, k) == {} && !Pinned(ss[i].resident, k)
  {
    RunSafe(ss, acts, i);
    assert Step(ss[i], acts[i], ss[i + 1]);
    if acts[i].Sweep? {
      var a := acts[i];
      PreparedSafe(ss[i], a.now);
      SweepOutcome(Prepared(ss[i], a.now), a.cands, a.now, a.ttl, a.hard, a.target, k);
    }
  }

  /** Over every run a sweep leaves the bytes within the hard limit, or only bodies that are leased or needed. */
  lemma SweepMeetsTheCap(ss: seq<State>, acts: seq<Action>, i: nat, k: Key)
    requires IsRun(ss, acts) && i < |acts| && acts[i].Sweep? && k in ss[i + 1].resident
    ensures ss[i + 1].accounted <= acts[i].hard || Holders(ss[i].handles, k) != {} || Pinned(ss[i].resident, k)
  {
    RunSafe(ss, acts, i);
    assert Step(ss[i], acts[i], ss[i + 1]);
    var a := acts[i];
    PreparedSafe(ss[i], a.now);
    SweepOutcome(Prepared(ss[i], a.now), a.cands, a.now, a.ttl, a.hard, a.target, k);
  }

  /** Over every run the body a live lease holds is there. */
  lemma LeasedStaysResident(ss: seq<State>, acts: seq<Action>, i: nat, h: nat)
    requires IsRun(ss, acts) && i < |ss| && h in ss[i].handles
    ensures ss[i].handles[h] in ss[i].resident && Leased(ss[i], ss[i].handles[h])
  {
    RunSafe(ss, acts, i);
    assert h in Holders(ss[i].handles, ss[i].handles[h]);
  }
}
