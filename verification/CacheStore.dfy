/** The post cache store: batched eviction with hysteresis, coarse access times, tail windows that never close a hole. */
module CacheStore {
  import opened Prelude
  import opened PostOrder
  import opened CacheTable
  import opened Joins
  import opened CacheModel

  const BATCH: nat := 256

  // ---------------------------------------------------------------- facts for the loops

  lemma ExcessStep(t: seq<Row>, maxCount: nat, maxBytes: nat, r: nat)
    requires r < |t| && !Fits(t[r..], maxCount, maxBytes)
    ensures Excess(t[r..], maxCount, maxBytes) == 1 + Excess(t[r + 1..], maxCount, maxBytes)
    ensures Bytes(t[r..]) == t[r].size + Bytes(t[r + 1..])
  {
    assert t[r..][1..] == t[r + 1..];
  }

  // ---------------------------------------------------------------- the store

  class PostCacheStore {
    var table: seq<Row>
    var usage: map<(nat, Id), int>
    var windows: map<Thread, seq<Id>>
    var account: Option<nat>
    var maxPosts: nat
    var maxBytes: nat
    var maxThread: nat
    var maxIdle: nat
    var now: int

    ghost predicate Valid()
      reads this
    {
      Listed(table) && AllCoarse(table, now) && maxPosts >= 1 && maxBytes >= 1 && maxThread >= 1 && maxIdle >= 1
    }

    /** Both hard limits hold, and no thread has too many replies. */
    ghost predicate WithinLimits()
      reads this
    {
      Fits(table, maxPosts, maxBytes) && forall g: Thread :: g.root != "" ==> Count(table, g) <= maxThread
    }

    constructor (posts: nat, bytes: nat, thread: nat, idle: nat, start: int)
      ensures Valid() && table == [] && now == start
      ensures maxPosts == AtLeastOne(posts) && maxBytes == AtLeastOne(bytes)
      ensures maxThread == AtLeastOne(thread) && maxIdle == AtLeastOne(idle)
    {
      table, usage, windows, account, now := [], map[], map[], None, start;
      maxPosts, maxBytes := AtLeastOne(posts), AtLeastOne(bytes);
      maxThread, maxIdle := AtLeastOne(thread), AtLeastOne(idle);
    }

    method Tick(ms: nat)
      requires Valid()
      modifies this`now
      ensures Valid() && now == old(now) + ms
    {
      now := now + ms;
    }

    /** The store as a value. */
    ghost function View(): State
      reads this
      requires maxPosts >= 1 && maxBytes >= 1 && maxThread >= 1 && maxIdle >= 1
    {
      State(table, windows, usage, account, Limits(maxPosts, maxBytes, maxThread, maxIdle), now)
    }

    predicate IsOpen(a: nat, channel: Id)
      reads this`usage, this`now, this`maxIdle
    {
      Recent(usage, now - maxIdle, a, channel)
    }

    // -------------------------------------------------------------- limits

    method OverfullThreads() returns (gs: set<Thread>)
      ensures gs == Overfull(table, maxThread)
    {
      gs := {};
      var i := 0;
      while i < |table|
        invariant i <= |table|
        invariant gs == set x | x in table[..i] && x.root != "" && Count(table, ThreadOf(x)) > maxThread :: ThreadOf(x)
      {
        assert table[..i + 1] == table[..i] + [table[i]];
        if table[i].root != "" && Count(table, ThreadOf(table[i])) > maxThread {
          gs := gs + {ThreadOf(table[i])};
        }
        i := i + 1;
      }
      assert table[..i] == table;
    }

    /** Thread by thread, the least recently used replies beyond the limit go. */
    method PruneThreadLimits()
      modifies this`table
      ensures table == ThreadPruned(old(table), maxThread)
    {
      var overflows := OverfullThreads();
      TrimmedNothing(table, maxThread);
      ghost var done: set<Thread> := {};
      var left := overflows;
      while left != {}
        invariant left !! done && left + done == overflows
        invariant table == Trimmed(old(table), maxThread, done)
        decreases |left|
      {
        var g :| g in left;
        TrimThread(g, old(table), done);
        left, done := left - {g}, done + {g};
      }
      assert done == overflows;
    }

    method TrimThread(g: Thread, ghost before: seq<Row>, ghost done: set<Thread>)
      requires g !in done && table == Trimmed(before, maxThread, done)
      modifies this`table
      ensures table == Trimmed(before, maxThread, done + {g})
    {
      TrimmedCount(before, maxThread, done, g);
      var count := Count(table, g);
      var excess := if count > maxThread then count - maxThread else 0;
      DropOldestTrims(before, maxThread, done, g, excess);
      table := DropOldest(table, g, excess);
    }

    /** Batch by batch, the least recently used rows go until both targets are met. */
    method PruneGlobalLimits()
      requires Valid()
      modifies this`table
      ensures table == GlobalPruned(old(table), maxPosts, maxBytes)
    {
      var count, bytes := |table|, Bytes(table);
      if count <= maxPosts && bytes <= maxBytes {
        return;
      }
      var targetCount := if count > maxPosts then Max(1, maxPosts * 95 / 100) else maxPosts;
      var targetBytes := if bytes > maxBytes then Max(1, maxBytes * 95 / 100) else maxBytes;
      ghost var k := 0;
      ghost var all := Excess(table, targetCount, targetBytes);
      while count > targetCount || bytes > targetBytes
        invariant k <= all <= |old(table)| && table == old(table)[k..]
        invariant count == |table| && bytes == Bytes(table)
        invariant all == k + Excess(table, targetCount, targetBytes)
        decreases |table|
      {
        var candidates := if |table| <= BATCH then |table| else BATCH;
        if candidates == 0 {
          break;
        }
        var removed, removedBytes := EvictBatch(candidates, count, bytes, targetCount, targetBytes);
        if removed == 0 {
          break;
        }
        k := k + removed;
        count, bytes := count - removed, bytes - removedBytes;
      }
    }

    /** One batch: rows are removed from the front until the targets are met or the batch is used up. */
    method EvictBatch(candidates: nat, count: nat, bytes: nat, targetCount: nat, targetBytes: nat)
      returns (removed: nat, removedBytes: nat)
      requires 0 < candidates <= |table| && count == |table| && bytes == Bytes(table)
      requires !Fits(table, targetCount, targetBytes)
      modifies this`table
      ensures 0 < removed <= |old(table)| && table == old(table)[removed..] && removedBytes <= bytes
      ensures bytes - removedBytes == Bytes(table)
      ensures Excess(old(table), targetCount, targetBytes) == removed + Excess(table, targetCount, targetBytes)
    {
      removed, removedBytes := 0, 0;
      assert table[0..] == table;
      while removed < candidates && !(count - removed <= targetCount && bytes - removedBytes <= targetBytes)
        invariant removed <= candidates <= |table| && removedBytes <= bytes && table == old(table)
        invariant bytes - removedBytes == Bytes(table[removed..])
        invariant Excess(table, targetCount, targetBytes) == removed + Excess(table[removed..], targetCount, targetBytes)
      {
        ExcessStep(table, targetCount, targetBytes, removed);
        removedBytes := removedBytes + table[removed].size;
        removed := removed + 1;
      }
      table := table[removed..];
    }

    // -------------------------------------------------------------- storing

    method FilterPosts(posts: seq<Row>, a: nat) returns (rows: seq<Row>)
      ensures rows == Admitted(posts, a, usage, now - maxIdle, now)
    {
      rows := [];
      var i := 0;
      while i < |posts|
        invariant i <= |posts| && rows == Admitted(posts[..i], a, usage, now - maxIdle, now)
      {
        assert posts[..i + 1][..i] == posts[..i];
        if posts[i].id != "" && IsOpen(a, posts[i].channel) {
          rows := rows + [Fresh(posts[i], a, now)];
        }
        i := i + 1;
      }
      assert posts[..i] == posts;
    }

    /** `ok` says whether the transaction could be written; the limits hold again before the call returns. */
    method StorePosts(posts: seq<Row>, ok: bool) returns (stored: nat)
      requires Valid()
      modifies this`table
      ensures Valid()
      ensures stored == if account.Some? && ok then |Admitted(posts, account.value, usage, now - maxIdle, now)| else 0
      ensures View() == Stored(old(View()), posts, ok) && (stored > 0 ==> WithinLimits())
    {
      if account.None? {
        return 0;
      }
      var rows := FilterPosts(posts, account.value);
      if |rows| == 0 || !ok {
        return 0;
      }
      WriteAndPrune(posts, rows);
      stored := |rows|;
    }

    method WriteAndPrune(ghost posts: seq<Row>, rows: seq<Row>)
      requires Valid() && account.Some? && rows == Admitted(posts, account.value, usage, now - maxIdle, now)
      modifies this`table
      ensures Valid() && WithinLimits() && View() == Written(old(View()), rows)
    {
      AdmittedCoarse(posts, account.value, usage, now - maxIdle, now);
      UpsertAllOk(table, rows, now);
      WriteRows(rows);
      Prune();
    }

    /** Row eviction is synchronous: no call leaves the cache over its limits. */
    method Prune()
      requires Valid()
      modifies this`table
      ensures table == GlobalPruned(ThreadPruned(old(table), maxThread), maxPosts, maxBytes)
      ensures Valid() && WithinLimits()
    {
      TrimmedListed(table, maxThread, Overfull(table, maxThread));
      TrimmedMembers(table, maxThread, Overfull(table, maxThread));
      PruneThreadLimits();
      ghost var trimmed := table;
      PruneGlobalLimits();
      LimitsHold(old(table), trimmed);
    }

    method WriteRows(rows: seq<Row>)
      modifies this`table
      ensures table == UpsertAll(old(table), rows)
    {
      var i := 0;
      while i < |rows|
        invariant i <= |rows| && table == UpsertAll(old(table), rows[..i])
      {
        assert rows[..i + 1][..i] == rows[..i];
        table := Upsert(table, rows[i]);
        i := i + 1;
      }
      assert rows[..i] == rows;
    }

    lemma LimitsHold(written: seq<Row>, trimmed: seq<Row>)
      requires maxPosts >= 1 && maxBytes >= 1 && maxThread >= 1 && maxIdle >= 1 && trimmed == ThreadPruned(written, maxThread)
      requires Listed(trimmed) && AllCoarse(trimmed, now) && table == GlobalPruned(trimmed, maxPosts, maxBytes)
      ensures Valid() && WithinLimits()
    {
      GlobalBounds(trimmed, maxPosts, maxBytes);
      ghost var k := |trimmed| - |table|;
      assert trimmed[0..] == trimmed;
      assert k <= |trimmed| && table == trimmed[k..];
      SuffixListed(trimmed, k);
      forall g: Thread | g.root != "" ensures Count(table, g) <= maxThread {
        ThreadBounds(written, maxThread, g);
        SuffixCount(trimmed, k, g);
      }
    }

    /** Rows, windows and usage of channels not used within the idle time go together. */
    method PruneInactiveChannels()
      requires Valid()
      modifies this`table, this`windows, this`usage
      ensures Valid() && table == Active(old(table), old(usage), now - maxIdle)
      ensures windows == ActiveWindows(old(windows), old(usage), now - maxIdle)
      ensures usage == ActiveUsage(old(usage), now - maxIdle)
    {
      ActiveListed(table, usage, now - maxIdle);
      ActiveCoarse(table, usage, now - maxIdle, now);
      RemoveInactiveRows(now - maxIdle);
      RemoveInactiveChannels(now - maxIdle);
    }

    method RemoveInactiveChannels(cutoff: int)
      modifies this`windows, this`usage
      ensures windows == ActiveWindows(old(windows), old(usage), cutoff) && usage == ActiveUsage(old(usage), cutoff)
    {
      windows := ActiveWindows(windows, usage, cutoff);
      usage := ActiveUsage(usage, cutoff);
    }

    method RemoveInactiveRows(cutoff: int)
      modifies this`table
      ensures table == Active(old(table), usage, cutoff)
    {
      var kept := [];
      var i := 0;
      while i < |table|
        invariant i <= |table| && table == old(table)
        invariant kept + Active(table[i..], usage, cutoff) == Active(table, usage, cutoff)
      {
        var x := table[i];
        assert table[i..][1..] == table[i + 1..];
        if (x.account, x.channel) in usage && usage[(x.account, x.channel)] >= cutoff {
          kept := kept + [x];
        }
        i := i + 1;
      }
      table := kept;
    }

    method TakeLimits(posts: nat, bytes: nat, thread: nat, idle: nat)
      requires Valid()
      modifies this`maxPosts, this`maxBytes, this`maxThread, this`maxIdle
      ensures Valid() && maxPosts == AtLeastOne(posts) && maxBytes == AtLeastOne(bytes)
      ensures maxThread == AtLeastOne(thread) && maxIdle == AtLeastOne(idle)
    {
      maxPosts, maxBytes := AtLeastOne(posts), AtLeastOne(bytes);
      maxThread, maxIdle := AtLeastOne(thread), AtLeastOne(idle);
    }

    /** New limits take effect at once. */
    method SetLimits(posts: nat, bytes: nat, thread: nat, idle: nat)
      requires Valid()
      modifies this`maxPosts, this`maxBytes, this`maxThread, this`maxIdle, this`table, this`windows, this`usage
      ensures Valid() && WithinLimits()
      ensures maxPosts == AtLeastOne(posts) && maxBytes == AtLeastOne(bytes)
      ensures maxThread == AtLeastOne(thread) && maxIdle == AtLeastOne(idle)
      ensures table == GlobalPruned(ThreadPruned(Active(old(table), old(usage), now - maxIdle), maxThread), maxPosts, maxBytes)
      ensures windows == ActiveWindows(old(windows), old(usage), now - maxIdle)
      ensures usage == ActiveUsage(old(usage), now - maxIdle)
    {
      TakeLimits(posts, bytes, thread, idle);
      PruneInactiveChannels();
      Prune();
    }

    // -------------------------------------------------------------- reading

    /** Read one post: it is used now, and its stored access time follows at its own pace. */
    method LoadPost(a: nat, id: Id) returns (found: Option<Row>)
      requires Valid() && account == Some(a)
      modifies this`table
      ensures Valid()
      ensures old(Find(table, a, id)).None? || !old(Find(table, a, id)).value.readable ==>
        found == None && table == old(table)
      ensures old(Find(table, a, id)).Some? && old(Find(table, a, id)).value.readable ==>
        found == old(Find(table, a, id)) && table == Touch(old(table), a, id, now)
    {
      found := Find(table, a, id);
      if found.Some? && !found.value.readable {
        found := None;
      }
      if found.Some? {
        TouchListed(table, a, id, now);
        TouchCoarse(table, a, id, now, now);
        table := Touch(table, a, id, now);
      }
    }

    method StoreTailWindow(channel: Id, root: Id, ids: seq<Id>) returns (ok: bool)
      modifies this`windows
      ensures ok == (account.Some? && IsOpen(account.value, channel))
      ensures windows == if ok then old(windows)[Thread(account.value, channel, root) := FirstOccurrences(ids)]
                         else old(windows)
    {
      if account.None? || !IsOpen(account.value, channel) {
        return false;
      }
      var window := [];
      var i := 0;
      while i < |ids|
        invariant i <= |ids| && window == FirstOccurrences(ids[..i])
      {
        assert ids[..i + 1][..i] == ids[..i];
        if ids[i] != "" && ids[i] !in window {
          window := window + [ids[i]];
        }
        i := i + 1;
      }
      assert ids[..i] == ids;
      windows := windows[Thread(account.value, channel, root) := window];
      return true;
    }

    /** From the newest identifier backwards, as far as rows are there: a hole ends the window, it is never bridged. */
    method LoadTailWindow(channel: Id, root: Id, limit: nat) returns (ids: seq<Id>)
      requires Valid()
      modifies this`table
      ensures Valid() && ids == Shown(old(View()), channel, root, limit)
      ensures View() == Next(old(View()), Showing(channel, root, limit))
    {
      if account.None? || !IsOpen(account.value, channel) || Thread(account.value, channel, root) !in windows {
        return [];
      }
      var w := windows[Thread(account.value, channel, root)];
      assert w[..|w|] == w;
      BackFromEnds(table, account.value, w, |w|, channel, root, limit, now);
      var first := ReadWindow(account.value, w, channel, root, limit);
      ids := w[first..];
    }

    /** The loop from the newest identifier backwards; `first` is where the usable end begins. */
    method ReadWindow(a: nat, w: seq<Id>, channel: Id, root: Id, limit: nat) returns (first: nat)
      requires Valid() && account == Some(a)
      modifies this`table
      ensures Valid() && (table, first) == BackFrom(old(table), a, w, |w|, channel, root, limit, now)
    {
      first := |w|;
      var n := limit;
      while first > 0 && n > 0
        invariant Valid() && first <= |w|
        invariant BackFrom(old(table), a, w, |w|, channel, root, limit, now)
               == BackFrom(table, a, w, first, channel, root, n, now)
      {
        var usable := ReadUsable(a, w[first - 1], channel, root);
        if !usable {
          return;
        }
        first, n := first - 1, n - 1;
      }
    }

    /** Read one row of a window, and say whether it belongs there. */
    method ReadUsable(a: nat, id: Id, channel: Id, root: Id) returns (usable: bool)
      requires Valid() && account == Some(a)
      modifies this`table
      ensures Valid() && usable == Usable(old(table), a, id, channel, root) && table == Read(old(table), a, id, now)
    {
      var found := LoadPost(a, id);
      usable := found.Some? && found.value.channel == channel && found.value.root == root;
    }

    method RecordChannelOpened(channel: Id, at: int)
      modifies this`usage
      ensures usage == if account.None? || channel == "" then old(usage)
        else var (k, time) := ((account.value, channel), if at > 0 then at else now);
          old(usage)[k := if k in old(usage) then Max(old(usage)[k], time) else time]
    {
      if account.None? || channel == "" {
        return;
      }
      var k := (account.value, channel);
      var time := if at > 0 then at else now;
      usage := usage[k := if k in usage then Max(usage[k], time) else time];
    }

    /** What the maintenance timer does. */
    method Maintenance()
      requires Valid()
      modifies this`table, this`windows, this`usage
      ensures Valid() && WithinLimits() && View() == Cleaned(old(View()))
    {
      PruneInactiveChannels();
      Prune();
    }

    method RemovePost(id: Id)
      requires Valid()
      modifies this`table
      ensures Valid()
      ensures table == if account.Some? && id != "" then Delete(old(table), account.value, id) else old(table)
    {
      if account.Some? && id != "" {
        DeleteListed(table, account.value, id);
        DeleteMembers(table, account.value, id);
        table := Delete(table, account.value, id);
      }
    }

    /** Every call does what the model says, so everything proved of its runs holds of the store. */
    method Step(a: Action)
      requires Valid()
      modifies this
      ensures Valid() && View() == Next(old(View()), a)
    {
      match a
      case Opening(channel, at) => RecordChannelOpened(channel, at);
      case Selecting(selected) => account := selected;
      case Storing(posts, ok) => var _ := StorePosts(posts, ok);
      case Removing(id) => RemovePost(id);
      case Reading(id) =>
        if account.Some? && id != "" {
          var _ := LoadPost(account.value, id);
        }
      case Recording(channel, root, ids) => var _ := StoreTailWindow(channel, root, ids);
      case Showing(channel, root, limit) => var _ := LoadTailWindow(channel, root, limit);
      case Limiting(limits) => SetLimits(limits.posts, limits.bytes, limits.thread, limits.idle);
      case Maintaining => Maintenance();
      case Tick(ms) => Tick(ms);
    }
  }
}
