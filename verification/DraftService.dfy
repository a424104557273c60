/** The draft service as it runs: one map of entries edited in place, loops over snapshots and over all entries. */
module DraftServices {
  import opened Prelude
  import opened DraftModel
  import opened DraftSafety

  /** What the settling loop has done when the keys in `left` are still to be looked at. */
  ghost predicate SettledSoFar(entries: map<Key, Entry>, before: map<Key, Entry>, seen: set<Key>, left: set<Key>) {
    && (forall k :: k in entries <==> k in before && (k in left || Stays(k, before[k], seen)))
    && (forall k :: k in entries ==> entries[k] == if k in left then before[k] else Marked(k, before[k], seen))
  }

  ghost predicate SilencedSoFar(entries: map<Key, Entry>, before: map<Key, Entry>, left: set<Key>) {
    && (forall k :: k in entries <==> k in before && (k in left || !before[k].deleted))
    && (forall k :: k in entries ==> entries[k] == if k in left then before[k] else Silenced(before[k]))
  }

  ghost function SentSoFar(before: map<Key, Entry>, seen: set<Key>, left: set<Key>): set<Request> {
    set k | k in before && k !in left && Resent(k, before[k], seen) :: Save(k, Marked(k, before[k], seen))
  }

  /** One entry more is settled: it is marked, or gone. */
  lemma SettleStep(entries: map<Key, Entry>, before: map<Key, Entry>, seen: set<Key>, left: set<Key>, k: Key)
    requires SettledSoFar(entries, before, seen, left) && k in left && k in before
    ensures k in entries && entries[k] == before[k]
    ensures Stays(k, before[k], seen) ==>
      SettledSoFar(entries[k := Marked(k, before[k], seen)], before, seen, left - {k})
    ensures !Stays(k, before[k], seen) ==> SettledSoFar(entries - {k}, before, seen, left - {k})
    ensures SentSoFar(before, seen, left - {k})
      == SentSoFar(before, seen, left)
         + (if Resent(k, before[k], seen) then {Save(k, Marked(k, before[k], seen))} else {})
  {
  }

  class DraftService {
    var entries: map<Key, Entry>
    var disabled: bool
    var generation: nat
    var pending: nat
    var failed: bool
    var seen: set<Key>
    var wire: multiset<Request>
    var writable: bool
    var disk: map<Key, Entry>

    ghost function View(): State
      reads this
    {
      State(entries, disabled, generation, pending, failed, seen, wire, writable, disk)
    }

    method PersistNow() returns (ok: bool)
      modifies this`disk
      ensures ok == writable && disk == if writable then entries else old(disk)
    {
      ok := writable;
      if ok {
        disk := entries;
      }
    }

    method Store(k: Key, e: Entry)
      modifies this`entries, this`disk
      ensures View() == Insert(old(View()), k, e)
    {
      entries := entries[k := e];
      var _ := PersistNow();
    }

    method Discard(k: Key)
      modifies this`entries, this`disk
      ensures View() == Erase(old(View()), k)
    {
      entries := entries - {k};
      var _ := PersistNow();
    }

    method TimeAfter(k: Key, now: int) returns (at: int)
      ensures at == NextTime(View(), k, now)
    {
      at := now;
      if k in entries && entries[k].at + 1 > now {
        at := entries[k].at + 1;
      }
    }

    method UpdateDraft(channel: Id, root: Id, message: string, reply: Id, now: int)
      modifies this`entries, this`disk
      ensures View() == Update(old(View()), channel, root, message, reply, now)
    {
      if channel == "" {
        return;
      }
      var k := Ordinary(channel, root);
      var at := TimeAfter(k, now);
      if message == "" {
        if k !in entries {
          return;
        }
        var e := entries[k];
        if !e.remote && !e.requested {
          Discard(k);
          return;
        }
        if e.deleted && e.message == "" && e.reply == "" && !e.requested {
          return;
        }
        Store(k, e.(message := "", reply := "", at := at, dirty := true, deleted := true, requested := false));
        return;
      }
      if k in entries && !entries[k].deleted && entries[k].message == message && entries[k].reply == reply {
        return;
      }
      Store(k, Entry(message, reply, [], at, true, false, k in entries && entries[k].remote, false));
    }

    method SyncEntry(k: Key, e: Entry)
      modifies this`wire
      ensures View() == Sync(old(View()), k, e)
    {
      if k.recovery != "" || disabled || k.channel == "" || !e.requested {
        return;
      }
      wire := wire + multiset{Save(k, e)};
    }

    method FlushDraft(channel: Id, root: Id)
      modifies this`entries, this`disk, this`wire
      ensures View() == Flush(old(View()), channel, root)
    {
      var k := Ordinary(channel, root);
      if channel == "" || k !in entries {
        return;
      }
      var e := entries[k];
      if e.deleted && !e.remote && !e.requested {
        Discard(k);
        return;
      }
      if !e.dirty || disabled {
        return;
      }
      e := e.(requested := true);
      Store(k, e);
      SyncEntry(k, e);
    }

    method RemoveDraft(channel: Id, root: Id, now: int)
      modifies this`entries, this`disk, this`wire
      ensures View() == Remove(old(View()), channel, root, now)
    {
      var k := Ordinary(channel, root);
      if channel == "" || k !in entries {
        return;
      }
      var e := entries[k];
      if disabled || (!e.remote && !e.requested) {
        Discard(k);
        return;
      }
      var at := TimeAfter(k, now);
      e := e.(message := "", reply := "", at := at, dirty := true, deleted := true, requested := true);
      Store(k, e);
      SyncEntry(k, e);
    }

    /** The entry goes in first; if the draft file cannot be written it comes out again and nothing is kept. */
    method AddRecoveredDraft(k: Key, message: string, reply: Id, paths: seq<string>, now: int) returns (kept: bool)
      modifies this`entries, this`disk
      ensures (View(), kept) == AddRecovered(old(View()), k, message, reply, paths, now)
    {
      if k.channel == "" || k.recovery == "" || (message == "" && paths == []) {
        return false;
      }
      if k in entries && SameRecovered(entries[k], message, reply, paths) {
        return true;
      }
      ghost var before := entries;
      var at := TimeAfter(k, now);
      var had, previous := k in entries, if k in entries then entries[k] else Entry("", "", [], 0, false, false, false, false);
      entries := entries[k := Entry(message, reply, paths, at, false, false, false, false)];
      var ok := PersistNow();
      if !ok {
        if had {
          entries := entries[k := previous];
        } else {
          entries := entries - {k};
        }
        assert entries == before;
        return false;
      }
      return true;
    }

    method UpdateRecoveredDraft(k: Key, message: string, reply: Id, paths: seq<string>, now: int)
      modifies this`entries, this`disk
      ensures View() == UpdateRecovered(old(View()), k, message, reply, paths, now)
    {
      if k !in entries || entries[k].deleted || k.recovery == "" {
        return;
      }
      if message == "" && paths == [] {
        Discard(k);
        return;
      }
      if SameRecovered(entries[k], message, reply, paths) {
        return;
      }
      var at := TimeAfter(k, now);
      Store(k, entries[k].(message := message, reply := reply, paths := paths, at := at,
                           dirty := false, remote := false, requested := false));
    }

    method RemoveDraftByKey(k: Key, now: int)
      modifies this`entries, this`disk, this`wire
      ensures View() == RemoveByKey(old(View()), k, now)
    {
      if k !in entries || entries[k].deleted {
        return;
      }
      if k.recovery == "" {
        RemoveDraft(k.channel, k.root, now);
      } else {
        Discard(k);
      }
    }

    // -------------------------------------------------------------- the server

    method SaveAnswered(k: Key, snapshot: Entry, answer: Answer)
      modifies this
      ensures View() == Acked(old(View()), k, snapshot, answer)
    {
      if answer.Unsupported? {
        DisableRemoteSync();
        return;
      }
      if answer.Broken? || k !in entries {
        return;
      }
      var e := entries[k];
      if e.at != snapshot.at || e.message != snapshot.message || e.reply != snapshot.reply || e.deleted != snapshot.deleted {
        if !snapshot.deleted && e.deleted && e.requested {
          Store(k, e.(remote := true));
          SyncEntry(k, e.(remote := true));
        }
        return;
      }
      if snapshot.deleted {
        Discard(k);
        return;
      }
      e := e.(dirty := false, remote := true, requested := false);
      if answer.Done? && answer.serverAt > 0 {
        e := e.(at := answer.serverAt);
      }
      Store(k, e);
    }

    method DraftPushed(r: Remote, deleted: bool)
      modifies this`entries, this`disk
      ensures View() == Pushed(old(View()), r, deleted)
    {
      var k := Ordinary(r.channel, r.root);
      if disabled || r.channel == "" {
        return;
      }
      if deleted {
        if k !in entries {
          return;
        }
        if entries[k].dirty && !entries[k].deleted {
          Store(k, entries[k].(remote := false));
        } else {
          Discard(k);
        }
        return;
      }
      if r.at <= 0 || (r.message == "" && r.reply == "") {
        return;
      }
      if k in entries {
        var e := entries[k];
        if e.dirty {
          e := e.(remote := true);
          if e.requested && !e.deleted && e.message == r.message && e.reply == r.reply {
            e := e.(dirty := false, requested := false, at := Max(e.at, r.at));
          }
          Store(k, e);
          return;
        }
        if e.at > r.at {
          return;
        }
        if e.at == r.at && e.message == r.message && e.reply == r.reply && !e.deleted && e.remote {
          return;
        }
      }
      Store(k, RemoteEntry(r));
    }

    method SyncAllTeams(teams: seq<Id>)
      modifies this
      ensures View() == SyncTeams(old(View()), |teams|)
    {
      if disabled || |teams| == 0 {
        return;
      }
      generation := generation + 1;
      pending, failed, seen := |teams|, false, {};
      AskTeams(teams);
    }

    /** The loop over the teams: one request each, all of this round. */
    method AskTeams(teams: seq<Id>)
      modifies this`wire
      ensures wire == old(wire) + multiset{}[Team(generation) := |teams|]
    {
      var i := 0;
      while i < |teams|
        invariant i <= |teams|
        invariant wire == old(wire) + multiset{}[Team(generation) := i]
      {
        wire := wire + multiset{Team(generation)};
        i := i + 1;
      }
    }

    /** The loop over one team's listed drafts. */
    method AbsorbListing(rs: seq<Remote>)
      modifies this`entries, this`seen
      ensures entries == AbsorbAll(old(entries), rs) && seen == old(seen) + SeenIn(rs)
    {
      var i := 0;
      while i < |rs|
        invariant i <= |rs|
        invariant AbsorbAll(entries, rs[i..]) == AbsorbAll(old(entries), rs)
        invariant seen == old(seen) + SeenIn(rs[..i])
      {
        var r := rs[i];
        assert rs[i..][0] == r && rs[i..][1..] == rs[i + 1..];
        assert rs[..i + 1] == rs[..i] + [r];
        if Usable(r) {
          var k := Ordinary(r.channel, r.root);
          seen := seen + {k};
          if k in entries && entries[k].dirty {
            entries := entries[k := entries[k].(remote := true)];
          } else if k !in entries || r.at > entries[k].at {
            entries := entries[k := RemoteEntry(r)];
          }
        }
        i := i + 1;
      }
      assert rs[..i] == rs;
    }

    method TeamListed(round: nat, answer: Answer)
      modifies this
      ensures View() == TeamAnswered(old(View()), round, answer)
    {
      if round != generation {
        return;
      }
      if answer.Unsupported? {
        DisableRemoteSync();
        return;
      }
      NoteListing(answer);
      if pending == 1 {
        pending := 0;
        FinishTeamSync();
      } else if pending > 0 {
        pending := pending - 1;
      }
    }

    method NoteListing(answer: Answer)
      modifies this`entries, this`seen, this`disk, this`failed
      ensures View() == Listing(old(View()), answer)
    {
      if !answer.Listed? {
        failed := true;
        return;
      }
      var before := entries;
      AbsorbListing(answer.drafts);
      if entries != before {
        var _ := PersistNow();
      }
    }

    /** The loop over all entries that settles each against the completed snapshot and collects what to send. */
    method SettleEntries() returns (toSync: set<Request>)
      modifies this`entries
      ensures entries == Settled(old(entries), seen) && toSync == Resends(old(entries), seen)
    {
      var left := entries.Keys;
      toSync := {};
      while left != {}
        invariant left <= old(entries.Keys)
        invariant SettledSoFar(entries, old(entries), seen, left)
        invariant toSync == SentSoFar(old(entries), seen, left)
        decreases |left|
      {
        var k :| k in left;
        SettleStep(entries, old(entries), seen, left, k);
        left := left - {k};
        var e := entries[k];
        assert entries[k := e] == entries;
        if k.recovery == "" {
          var listed := k in seen;
          var marked := e.(remote := listed);
          if listed || (e.dirty && !e.deleted) {
            entries := entries[k := marked];
          } else {
            entries := entries - {k};
          }
          if k.channel != "" && e.dirty && e.requested && (listed || !e.deleted) {
            toSync := toSync + {Save(k, marked)};
          }
        }
      }
    }

    method FinishTeamSync()
      modifies this`entries, this`wire, this`disk
      ensures View() == Finish(old(View()))
    {
      if disabled || failed {
        return;
      }
      var before := entries;
      var toSync := SettleEntries();
      if entries != before {
        var _ := PersistNow();
      }
      wire := wire + multiset(toSync);
    }

    method SilenceEntries()
      modifies this`entries
      ensures entries == map k | k in old(entries) && !old(entries)[k].deleted :: Silenced(old(entries)[k])
    {
      var left := entries.Keys;
      while left != {}
        invariant left <= old(entries.Keys) && SilencedSoFar(entries, old(entries), left)
        decreases |left|
      {
        var k :| k in left;
        left := left - {k};
        if entries[k].deleted {
          entries := entries - {k};
        } else {
          entries := entries[k := entries[k].(requested := false, remote := false)];
        }
      }
    }

    method DisableRemoteSync()
      modifies this
      ensures View() == Disable(old(View()))
    {
      if disabled {
        return;
      }
      disabled, generation, pending, seen := true, generation + 1, 0, {};
      SilenceAndPersist();
    }

    method SilenceAndPersist()
      modifies this`entries, this`disk
      ensures entries == map k | k in old(entries) && !old(entries)[k].deleted :: Silenced(old(entries)[k])
      ensures disk == if entries != old(entries) && writable then entries else old(disk)
    {
      var before := entries;
      SilenceEntries();
      if entries != before {
        var _ := PersistNow();
      }
    }

    // -------------------------------------------------------------- one step

    /** The service takes exactly the steps of the model, and keeps its invariant. */
    method Step(a: Action)
      requires Safe(View()) && Enabled(View(), a)
      modifies this
      ensures View() == Next(old(View()), a) && Safe(View())
    {
      NextSafe(View(), a, Next(View(), a));
      match a
      case Edit(channel, root, message, reply, now) => UpdateDraft(channel, root, message, reply, now);
      case Flushing(channel, root) => FlushDraft(channel, root);
      case Removal(channel, root, now) => RemoveDraft(channel, root, now);
      case Recovery(k, message, reply, paths, now) => var _ := AddRecoveredDraft(k, message, reply, paths, now);
      case RecoveredEdit(k, message, reply, paths, now) => UpdateRecoveredDraft(k, message, reply, paths, now);
      case KeyRemoval(k, now) => RemoveDraftByKey(k, now);
      case TeamSync(teams) => SyncAllTeams(seq(teams, _ => ""));
      case Reply(Save(k, snapshot), answer) =>
        wire := wire - multiset{a.request};
        SaveAnswered(k, snapshot, answer);
      case Reply(Team(round), answer) =>
        wire := wire - multiset{a.request};
        TeamListed(round, answer);
      case Push(r, deleted) => DraftPushed(r, deleted);
      case Writable(on) => writable := on;
    }
  }
}
