/** What a draft says: the server's text when it comes from the server, the user's when it is typed. */
module DraftContent {
  import opened Prelude
  import opened DraftModel
  import opened DraftSafety

  /** The entry is the remote draft: its text, its quoted post, its time - clean, and known to the server. */
  predicate Shows(e: Entry, r: Remote) {
    && e.message == r.message && e.reply == r.reply && e.at == r.at && e.paths == []
    && !e.dirty && !e.deleted && !e.requested && e.remote
  }

  predicate HasContent(r: Remote) {
    r.channel != "" && r.at > 0 && (r.message != "" || r.reply != "")
  }

  // ---------------------------------------------------------------- pushed drafts

  /** The remote draft is newer than a clean entry, or as old and not what the entry says. */
  predicate Replaces(r: Remote, e: Entry) {
    r.at > e.at || (r.at == e.at && (r.message != e.message || r.reply != e.reply || e.deleted || !e.remote))
  }

  /** A pushed draft is shown where none is held, and in place of a clean one exactly when it replaces it. */
  lemma PushedShows(s: State, r: Remote, t: State)
    requires !s.disabled && HasContent(r) && t == Next(s, Push(r, false))
    ensures var k := Key(r.channel, r.root, "");
      && k in t.entries
      && (k !in s.entries ==> Shows(t.entries[k], r))
      && (k in s.entries && !s.entries[k].dirty ==>
            if Replaces(r, s.entries[k]) then Shows(t.entries[k], r) else t.entries[k] == s.entries[k])
  {
  }

  /** A pushed draft leaves unsent text alone; it marks it as saved exactly if it is the text that was asked to be saved. */
  lemma PushedSparesText(s: State, r: Remote, t: State)
    requires !s.disabled && HasContent(r) && t == Next(s, Push(r, false))
    requires Key(r.channel, r.root, "") in s.entries && s.entries[Key(r.channel, r.root, "")].dirty
    ensures var (k, e) := (Key(r.channel, r.root, ""), s.entries[Key(r.channel, r.root, "")]);
      var same := e.requested && !e.deleted && e.message == r.message && e.reply == r.reply;
      && k in t.entries && t.entries[k].message == e.message && t.entries[k].reply == e.reply
      && t.entries[k].paths == e.paths && t.entries[k].deleted == e.deleted && t.entries[k].remote
      && (t.entries[k].dirty <==> !same) && (t.entries[k].requested <==> e.requested && !same)
  {
  }

  /** A reported deletion erases the draft - but for unsent text, which stays and is no longer the server's. */
  lemma PushedDeletion(s: State, r: Remote, t: State)
    requires !s.disabled && r.channel != "" && t == Next(s, Push(r, true))
    ensures var k := Key(r.channel, r.root, "");
      if k in s.entries && s.entries[k].dirty && !s.entries[k].deleted
      then t.entries == s.entries[k := s.entries[k].(remote := false)]
      else t.entries == s.entries - {k}
  {
    var k := Key(r.channel, r.root, "");
    if k !in s.entries {
      assert s.entries - {k} == s.entries;
    }
  }

  // ---------------------------------------------------------------- listed drafts

  /** Draft n of the list is a usable one of this key. */
  predicate Lists(rs: seq<Remote>, n: nat, k: Key) {
    n < |rs| && HasContent(rs[n]) && Key(rs[n].channel, rs[n].root, "") == k
  }

  /** Draft n is the newest of its key in the list, and the first of that time. */
  ghost predicate Newest(rs: seq<Remote>, n: nat, k: Key) {
    Lists(rs, n, k)
    && forall m: nat :: Lists(rs, m, k) ==> rs[m].at <= rs[n].at && (m < n ==> rs[m].at < rs[n].at)
  }

  /** What a list makes of the entry of one key. */
  ghost predicate Absorbs(a: map<Key, Entry>, rs: seq<Remote>, b: map<Key, Entry>, k: Key) {
    if k in a && a[k].dirty then
      k in b && b[k] == if exists n: nat :: Lists(rs, n, k) then a[k].(remote := true) else a[k]
    else if exists n: nat :: Newest(rs, n, k) && (k in a ==> rs[n].at > a[k].at) then
      k in b && exists n: nat :: Newest(rs, n, k) && Shows(b[k], rs[n])
    else (k in b <==> k in a) && (k in a ==> b[k] == a[k])
  }

  lemma ListsTail(rs: seq<Remote>, k: Key)
    requires rs != []
    ensures forall n: nat :: Lists(rs[1..], n, k) <==> Lists(rs, n + 1, k)
  {
  }

  /** Where one is listed there is a newest one. */
  lemma {:induction false} NewestExists(rs: seq<Remote>, m: nat, k: Key) returns (n: nat)
    requires Lists(rs, m, k)
    ensures Newest(rs, n, k)
    decreases |rs|
  {
    ListsTail(rs, k);
    if l: nat :| Lists(rs[1..], l, k) {
      var t := NewestExists(rs[1..], l, k);
      if Lists(rs, 0, k) && rs[0].at >= rs[1..][t].at {
        n := 0;
        HeadIsNewest(rs, t, k);
      } else {
        n := t + 1;
        TailIsNewest(rs, t, k);
      }
    } else {
      n := 0;
      forall x: nat | Lists(rs, x, k) ensures x == 0 {
        if x > 0 {
          assert Lists(rs[1..], x - 1, k);
        }
      }
    }
  }

  lemma HeadIsNewest(rs: seq<Remote>, t: nat, k: Key)
    requires rs != [] && Newest(rs[1..], t, k) && Lists(rs, 0, k) && rs[0].at >= rs[1..][t].at
    ensures Newest(rs, 0, k)
  {
    forall m: nat | Lists(rs, m, k) ensures rs[m].at <= rs[0].at {
      if m > 0 {
        assert Lists(rs[1..], m - 1, k);
      }
    }
  }

  lemma TailIsNewest(rs: seq<Remote>, t: nat, k: Key)
    requires rs != [] && Newest(rs[1..], t, k) && (Lists(rs, 0, k) ==> rs[0].at < rs[1..][t].at)
    ensures Newest(rs, t + 1, k)
  {
    forall m: nat | Lists(rs, m, k) ensures rs[m].at <= rs[t + 1].at && (m < t + 1 ==> rs[m].at < rs[t + 1].at) {
      if m > 0 {
        assert Lists(rs[1..], m - 1, k);
      }
    }
    assert Lists(rs[1..], t, k);
  }

  /** Only one can be the newest and the first of its time. */
  lemma OneNewest(rs: seq<Remote>, m: nat, n: nat, k: Key)
    requires Newest(rs, m, k) && Newest(rs, n, k)
    ensures m == n
  {
  }

  /** One draft more in front of the list. */
  lemma AbsorbsOneMore(a: map<Key, Entry>, rs: seq<Remote>, b: map<Key, Entry>, k: Key)
    requires rs != [] && Absorbs(Absorbed(a, rs[0]), rs[1..], b, k)
    ensures Absorbs(a, rs, b, k)
  {
    ListsTail(rs, k);
    if k in a && a[k].dirty {
      DirtyOneMore(a, rs, b, k);
    } else if n: nat :| Lists(rs[1..], n, k) {
      var t := NewestExists(rs[1..], n, k);
      CleanOneMore(a, rs, b, k, t);
    } else {
      CleanLast(a, rs, b, k);
    }
  }

  lemma NoneListed(rs: seq<Remote>, k: Key)
    requires rs != [] && !Lists(rs, 0, k) && forall n: nat :: !Lists(rs[1..], n, k)
    ensures forall n: nat :: !Lists(rs, n, k)
  {
    forall n: nat ensures !Lists(rs, n, k) {
      if n > 0 {
        assert Lists(rs, n, k) <==> Lists(rs[1..], n - 1, k);
      }
    }
  }

  lemma DirtyOneMore(a: map<Key, Entry>, rs: seq<Remote>, b: map<Key, Entry>, k: Key)
    requires rs != [] && Absorbs(Absorbed(a, rs[0]), rs[1..], b, k) && k in a && a[k].dirty
    ensures Absorbs(a, rs, b, k)
  {
    ListsTail(rs, k);
    var here := exists n: nat :: Lists(rs, n, k);
    if n: nat :| Lists(rs[1..], n, k) {
      assert Lists(rs, n + 1, k);
      assert here && b[k] == a[k].(remote := true);
    } else if Lists(rs, 0, k) {
      assert here && b[k] == a[k].(remote := true);
    } else {
      NoneListed(rs, k);
      assert !here && b[k] == a[k];
    }
  }

  /** Nothing of this key is in the rest of the list. */
  lemma CleanLast(a: map<Key, Entry>, rs: seq<Remote>, b: map<Key, Entry>, k: Key)
    requires rs != [] && Absorbs(Absorbed(a, rs[0]), rs[1..], b, k) && !(k in a && a[k].dirty)
    requires forall n: nat :: !Lists(rs[1..], n, k)
    ensures Absorbs(a, rs, b, k)
  {
    ListsTail(rs, k);
    forall n: nat | Lists(rs, n, k) ensures n == 0 {
      if n > 0 {
        assert Lists(rs[1..], n - 1, k);
      }
    }
    if Lists(rs, 0, k) {
      assert Newest(rs, 0, k);
    }
  }

  lemma CleanOneMore(a: map<Key, Entry>, rs: seq<Remote>, b: map<Key, Entry>, k: Key, t: nat)
    requires rs != [] && Absorbs(Absorbed(a, rs[0]), rs[1..], b, k) && !(k in a && a[k].dirty)
    requires Newest(rs[1..], t, k)
    ensures Absorbs(a, rs, b, k)
  {
    ListsTail(rs, k);
    assert Lists(rs[1..], t, k);
    if Lists(rs, 0, k) && rs[0].at >= rs[1..][t].at {
      HeadIsNewest(rs, t, k);
      HeadShows(a, rs, b, k, t);
    } else {
      TailIsNewest(rs, t, k);
      TailShows(a, rs, b, k, t);
    }
  }

  lemma HeadShows(a: map<Key, Entry>, rs: seq<Remote>, b: map<Key, Entry>, k: Key, t: nat)
    requires rs != [] && Absorbs(Absorbed(a, rs[0]), rs[1..], b, k) && !(k in a && a[k].dirty)
    requires Newest(rs[1..], t, k) && Newest(rs, 0, k) && rs[0].at >= rs[1..][t].at
    ensures Absorbs(a, rs, b, k)
  {
    var c := Absorbed(a, rs[0]);
    assert k in c && !c[k].dirty && c[k].at >= rs[1..][t].at;
    forall n: nat | Newest(rs[1..], n, k) ensures n == t {
      OneNewest(rs[1..], n, t, k);
    }
    assert b[k] == c[k];
    forall n: nat | Newest(rs, n, k) ensures n == 0 {
      OneNewest(rs, n, 0, k);
    }
  }

  lemma TailShows(a: map<Key, Entry>, rs: seq<Remote>, b: map<Key, Entry>, k: Key, t: nat)
    requires rs != [] && Absorbs(Absorbed(a, rs[0]), rs[1..], b, k) && !(k in a && a[k].dirty)
    requires Newest(rs[1..], t, k) && Newest(rs, t + 1, k) && (Lists(rs, 0, k) ==> rs[0].at < rs[1..][t].at)
    ensures Absorbs(a, rs, b, k)
  {
    var c := Absorbed(a, rs[0]);
    forall n: nat | Newest(rs[1..], n, k) ensures n == t {
      OneNewest(rs[1..], n, t, k);
    }
    forall n: nat | Newest(rs, n, k) ensures n == t + 1 {
      OneNewest(rs, n, t + 1, k);
    }
    assert rs[1..][t] == rs[t + 1];
  }

  /**
   * A listed draft is shown where no unsent text stands and no entry as new: of several of one conversation the
   * newest. Unsent text and entries at least as new stay as they are.
   */
  lemma {:induction false} ListShows(a: map<Key, Entry>, rs: seq<Remote>, k: Key)
    ensures Absorbs(a, rs, AbsorbAll(a, rs), k)
    decreases |rs|
  {
    if rs != [] {
      ListShows(Absorbed(a, rs[0]), rs[1..], k);
      AbsorbsOneMore(a, rs, AbsorbAll(a, rs), k);
    }
  }

  lemma {:induction false} SeenListed(rs: seq<Remote>, n: nat, k: Key)
    requires Lists(rs, n, k)
    ensures k in SeenIn(rs)
  {
    assert rs[n] in rs && Usable(rs[n]) && RemoteKey(rs[n]) == k;
  }

  /** The answer of the current round shows what it lists - be it the last answer of the round or not. */
  lemma AnswerShows(s: State, drafts: seq<Remote>, t: State, n: nat, k: Key)
    requires Safe(s) && Team(s.generation) in s.wire && !s.disabled && Newest(drafts, n, k)
    requires k in s.entries ==> !s.entries[k].dirty && s.entries[k].at < drafts[n].at
    requires t == Next(s, Reply(Team(s.generation), Listed(drafts)))
    ensures k in t.entries && Shows(t.entries[k], drafts[n])
  {
    CountedDown(s, s.generation);
    var v := Taken(s, Team(s.generation));
    AnsweredForm(v, s.generation, Listed(drafts));
    ListShows(s.entries, drafts, k);
    SeenListed(drafts, n, k);
    forall m: nat | Newest(drafts, m, k) ensures m == n {
      OneNewest(drafts, m, n, k);
    }
    CountedShows(Listing(v.(pending := v.pending - 1), Listed(drafts)), k);
  }

  /** The end of a round leaves an entry that was listed as it is. */
  lemma CountedShows(u: State, k: Key)
    requires k in u.entries && k in u.seen && u.entries[k].remote
    ensures k in Counted(u).entries && Counted(u).entries[k] == u.entries[k]
  {
  }

  // ---------------------------------------------------------------- what the user does

  /** Text that is typed is what the draft says, unsent until it is saved, and later than what was there. */
  lemma TypedShows(s: State, channel: Id, root: Id, message: string, reply: Id, now: int, t: State)
    requires channel != "" && message != "" && t == Next(s, Edit(channel, root, message, reply, now))
    ensures var k := Key(channel, root, "");
      && k in t.entries && t.entries[k].message == message && t.entries[k].reply == reply && !t.entries[k].deleted
      && (k !in s.entries || t.entries[k] != s.entries[k] ==>
            t.entries[k].dirty && !t.entries[k].requested && t.entries[k].paths == [] && t.entries[k].at >= now)
      && (k in s.entries ==> t.entries[k].remote == s.entries[k].remote)
  {
  }

  /** Emptied text is a deletion the server has to hear of, if it may know the draft; otherwise the draft is gone. */
  lemma EmptiedIsDeleted(s: State, channel: Id, root: Id, reply: Id, now: int, t: State)
    requires channel != "" && t == Next(s, Edit(channel, root, "", reply, now))
    ensures var k := Key(channel, root, "");
      if k !in s.entries then t == s
      else if !s.entries[k].remote && !s.entries[k].requested then t.entries == s.entries - {k}
      else k in t.entries && t.entries[k].deleted && t.entries[k].message == "" && t.entries[k].reply == ""
           && (t.entries[k] != s.entries[k] ==> t.entries[k].dirty && !t.entries[k].requested && t.entries[k].at >= now)
  {
  }

  /** A flush asks for the unsent text to be saved, as it is now. */
  lemma FlushSends(s: State, channel: Id, root: Id, t: State)
    requires channel != "" && !s.disabled && Key(channel, root, "") in s.entries && t == Next(s, Flushing(channel, root))
    requires s.entries[Key(channel, root, "")].dirty
    requires var e := s.entries[Key(channel, root, "")]; !(e.deleted && !e.remote && !e.requested)
    ensures var (k, e) := (Key(channel, root, ""), s.entries[Key(channel, root, "")]);
      && t.entries == s.entries[k := e.(requested := true)]
      && t.wire == s.wire + multiset{Save(k, e.(requested := true))}
  {
  }

  /** The answer to a save of what the entry still says marks it as saved, at the server's time; its text stays. */
  lemma AnswerMarksSaved(s: State, k: Key, snapshot: Entry, at: int, t: State)
    requires Save(k, snapshot) in s.wire && t == Next(s, Reply(Save(k, snapshot), Done(at)))
    requires k in s.entries && s.entries[k].at == snapshot.at && s.entries[k].message == snapshot.message
    requires s.entries[k].reply == snapshot.reply && s.entries[k].deleted == snapshot.deleted
    ensures if snapshot.deleted then t.entries == s.entries - {k}
      else t.entries == s.entries[k := s.entries[k].(dirty := false, remote := true, requested := false,
                                                     at := if at > 0 then at else s.entries[k].at)]
  {
  }

  /** The answer to a save of anything else changes no draft - but sends a deletion that was asked for meanwhile. */
  lemma AnswerToOther(s: State, k: Key, snapshot: Entry, at: int, t: State)
    requires Save(k, snapshot) in s.wire && t == Next(s, Reply(Save(k, snapshot), Done(at))) && k in s.entries
    requires s.entries[k].at != snapshot.at || s.entries[k].message != snapshot.message
      || s.entries[k].reply != snapshot.reply || s.entries[k].deleted != snapshot.deleted
    ensures var e := s.entries[k];
      if !snapshot.deleted && e.deleted && e.requested then
        t.entries == s.entries[k := e.(remote := true)]
        && t.wire == s.wire - multiset{Save(k, snapshot)}
             + if Recovered(k) || s.disabled || k.channel == "" then multiset{} else multiset{Save(k, e.(remote := true))}
      else t.entries == s.entries && t.wire == s.wire - multiset{Save(k, snapshot)}
  {
  }

  /** A message that is recovered becomes a draft of its own, with its text, quoted post and files, in memory and in the file. */
  lemma RecoveredShows(s: State, k: Key, message: string, reply: Id, paths: seq<string>, now: int, t: State)
    requires t == AddRecovered(s, k, message, reply, paths, now).0 && AddRecovered(s, k, message, reply, paths, now).1
    ensures k in t.entries && t.entries[k].message == message && t.entries[k].reply == reply && t.entries[k].paths == paths
    ensures !t.entries[k].deleted && (k !in s.entries || t.entries[k] != s.entries[k] ==>
      !t.entries[k].dirty && !t.entries[k].remote && !t.entries[k].requested && k in t.disk && t.disk[k] == t.entries[k])
  {
  }

  /** An edit of a recovered draft is what it says then, still outside synchronisation; without text and files it is gone. */
  lemma RecoveredEditShows(s: State, k: Key, message: string, reply: Id, paths: seq<string>, now: int, t: State)
    requires t == UpdateRecovered(s, k, message, reply, paths, now) && k in s.entries && k.recovery != "" && !s.entries[k].deleted
    ensures if message == "" && paths == [] then t.entries == s.entries - {k}
      else k in t.entries && t.entries[k].message == message && t.entries[k].reply == reply && t.entries[k].paths == paths
           && !t.entries[k].deleted && t.entries == s.entries[k := t.entries[k]]
    ensures k in t.entries && t.entries[k] != s.entries[k] ==>
      t.entries[k].at > s.entries[k].at && !t.entries[k].dirty && !t.entries[k].remote && !t.entries[k].requested
  {
  }

  // ---------------------------------------------------------------- what is written

  /** All drafts are in the file as they are, or neither a draft nor the file has changed. */
  predicate Kept(s: State, t: State) {
    t.disk == t.entries || (t.entries == s.entries && t.disk == s.disk)
  }

  lemma ListingKept(s: State, answer: Answer, pending: nat)
    requires s.writable
    ensures Kept(s, Listing(s, answer).(pending := pending)) && Listing(s, answer).writable
  {
  }

  lemma FinishKept(s: State)
    requires s.writable
    ensures Kept(s, Finish(s))
  {
  }

  lemma TeamKept(s: State, generation: nat, answer: Answer)
    requires s.writable
    ensures Kept(s, TeamAnswered(s, generation, answer))
  {
    if generation == s.generation && !answer.Unsupported? {
      var t := Listing(s, answer);
      var n := if t.pending > 0 then t.pending - 1 else 0;
      ListingKept(s, answer, n);
      FinishKept(t.(pending := n));
    }
  }

  lemma UpdateKept(s: State, channel: Id, root: Id, message: string, reply: Id, now: int)
    requires s.writable
    ensures Kept(s, Update(s, channel, root, message, reply, now))
  {
  }

  lemma FlushKept(s: State, channel: Id, root: Id)
    requires s.writable
    ensures Kept(s, Flush(s, channel, root))
  {
  }

  lemma RemoveKept(s: State, channel: Id, root: Id, now: int)
    requires s.writable
    ensures Kept(s, Remove(s, channel, root, now))
  {
  }

  lemma RecoveredKept(s: State, k: Key, message: string, reply: Id, paths: seq<string>, now: int)
    requires s.writable
    ensures Kept(s, AddRecovered(s, k, message, reply, paths, now).0)
    ensures Kept(s, UpdateRecovered(s, k, message, reply, paths, now))
  {
  }

  lemma KeyKept(s: State, k: Key, now: int)
    requires s.writable
    ensures Kept(s, RemoveByKey(s, k, now))
  {
    RemoveKept(s, k.channel, k.root, now);
  }

  lemma SavedKept(s: State, k: Key, snapshot: Entry, answer: Answer)
    requires s.writable
    ensures Kept(s, Acked(s, k, snapshot, answer))
  {
  }

  lemma PushedKept(s: State, r: Remote, deleted: bool)
    requires s.writable
    ensures Kept(s, Pushed(s, r, deleted))
  {
  }

  /** While the draft file can be written, whatever changes a draft - user, server, round - puts it into the file. */
  lemma ChangesAreWritten(s: State, a: Action, t: State)
    requires s.writable && t == Next(s, a)
    ensures Kept(s, t)
  {
    match a
    case Edit(channel, root, message, reply, now) => UpdateKept(s, channel, root, message, reply, now);
    case Flushing(channel, root) => FlushKept(s, channel, root);
    case Removal(channel, root, now) => RemoveKept(s, channel, root, now);
    case Recovery(k, message, reply, paths, now) => RecoveredKept(s, k, message, reply, paths, now);
    case RecoveredEdit(k, message, reply, paths, now) => RecoveredKept(s, k, message, reply, paths, now);
    case KeyRemoval(k, now) => KeyKept(s, k, now);
    case TeamSync(_) =>
    case Reply(Save(k, snapshot), answer) => SavedKept(Taken(s, a.request), k, snapshot, answer);
    case Reply(Team(generation), answer) => TeamKept(Taken(s, a.request), generation, answer);
    case Push(r, deleted) => PushedKept(s, r, deleted);
    case Writable(_) =>
  }
}
