/** What no remote step may do to local text, and what ends a local edit's protection. */
module DraftSafety {
  import opened Prelude
  import opened DraftModel

  /** Everything that comes from the server: answers, pushed events, team snapshots, and with them disabling. */
  predicate FromServer(a: Action) {
    a.Reply? || a.Push?
  }

  /** An undeleted edit of the user that the server has not confirmed. */
  predicate Unsent(s: State, k: Key) {
    k in s.entries && s.entries[k].dirty && !s.entries[k].deleted
  }

  predicate DirtyTombstone(s: State, k: Key) {
    k in s.entries && s.entries[k].dirty && s.entries[k].deleted
  }

  predicate SameText(a: Entry, b: Entry) {
    a.message == b.message && a.reply == b.reply && a.paths == b.paths && a.deleted == b.deleted
  }

  /** The server confirmed exactly this entry: it acknowledged the very edit, or reported the requested content. */
  predicate Confirms(a: Action, k: Key, e: Entry) {
    match a
    case Reply(Save(key, snapshot), answer) =>
      key == k && !answer.Unsupported? && !answer.Broken? && Acknowledges(snapshot, e)
    case Push(r, deleted) =>
      RemoteKey(r) == k && !deleted && e.requested && r.message == e.message && r.reply == e.reply
    case _ => false
  }

  // ---------------------------------------------------------------- the invariant

  ghost predicate EntriesOk(entries: map<Key, Entry>) {
    forall k :: k in entries && Recovered(k) ==>
      var e := entries[k]; !e.dirty && !e.deleted && !e.remote && !e.requested
  }

  ghost predicate WireOk(s: State) {
    && (forall k, e :: Save(k, e) in s.wire ==> !Recovered(k) && e.requested)
    && (forall g: nat :: Team(g) in s.wire ==> g <= s.generation)
    && s.wire[Team(s.generation)] == s.pending
    && (s.disabled ==> s.pending == 0)
  }

  /** Recovered drafts stay outside synchronisation; the counter counts the answers of the current round. */
  ghost predicate Safe(s: State) {
    EntriesOk(s.entries) && WireOk(s)
  }

  predicate Initial(s: State) {
    s.wire == multiset{} && s.pending == 0 && s.generation == 0 && !s.disabled
  }

  /** One entry of a snapshot either is left alone, learns of the server's copy, or is replaced while clean. */
  lemma {:induction false} AbsorbEffect(entries: map<Key, Entry>, rs: seq<Remote>, k: Key)
    ensures k in entries && (entries[k].dirty || Recovered(k)) ==>
      && k in AbsorbAll(entries, rs)
      && (AbsorbAll(entries, rs)[k] == entries[k]
          || (!Recovered(k) && AbsorbAll(entries, rs)[k] == entries[k].(remote := true)))
    ensures k !in entries && Recovered(k) ==> k !in AbsorbAll(entries, rs)
    decreases |rs|
  {
    if rs != [] {
      AbsorbEffect(Absorbed(entries, rs[0]), rs[1..], k);
    }
  }

  lemma AbsorbOk(entries: map<Key, Entry>, rs: seq<Remote>)
    requires EntriesOk(entries)
    ensures EntriesOk(AbsorbAll(entries, rs))
  {
    forall k | k in AbsorbAll(entries, rs) && Recovered(k)
      ensures k in entries && AbsorbAll(entries, rs)[k] == entries[k]
    {
      AbsorbEffect(entries, rs, k);
    }
  }

  lemma FinishSafe(s: State)
    requires Safe(s)
    ensures Safe(Finish(s))
  {
    if !s.disabled && !s.failed {
      var sent := multiset(Resends(s.entries, s.seen));
      assert Team(s.generation) !in sent;
    }
  }

  lemma ListingSafe(s: State, answer: Answer)
    requires Safe(s)
    ensures Safe(Listing(s, answer))
  {
    if answer.Listed? {
      AbsorbOk(s.entries, answer.drafts);
    }
  }

  lemma DisableSafe(s: State)
    requires EntriesOk(s.entries) && (forall k, e :: Save(k, e) in s.wire ==> !Recovered(k) && e.requested)
    requires forall g: nat :: Team(g) in s.wire ==> g <= s.generation
    requires s.disabled ==> Safe(s)
    ensures Safe(Disable(s))
  {
    if !s.disabled {
      assert Team(s.generation + 1) !in s.wire;
    }
  }

  /** The last answer but for the counting. */
  function Counted(s: State): State {
    if s.pending == 0 then Finish(s) else s
  }

  lemma AnsweredForm(s: State, g: nat, answer: Answer)
    requires s.pending > 0 && g == s.generation && !answer.Unsupported?
    ensures TeamAnswered(s, g, answer) == Counted(Listing(s.(pending := s.pending - 1), answer))
  {
    ListingPending(s, answer, s.pending - 1);
  }

  /** Listing neither looks at the counter nor changes it. */
  lemma ListingPending(s: State, answer: Answer, n: nat)
    ensures Listing(s, answer).pending == s.pending
    ensures Listing(s.(pending := n), answer) == Listing(s, answer).(pending := n)
  {
  }

  lemma TeamSafe(s: State, g: nat, answer: Answer, t: State)
    requires Safe(s) && Team(g) in s.wire && t == TeamAnswered(Taken(s, Team(g)), g, answer)
    ensures Safe(t)
  {
    var v := Taken(s, Team(g));
    if g != s.generation {
      assert Safe(v);
    } else if answer.Unsupported? {
      DisableSafe(v);
    } else {
      CountedDown(s, g);
      AnsweredForm(v, g, answer);
      ListingSafe(v.(pending := s.pending - 1), answer);
      FinishSafe(Listing(v.(pending := s.pending - 1), answer));
    }
  }

  lemma CountedDown(s: State, g: nat)
    requires Safe(s) && Team(g) in s.wire && g == s.generation
    ensures s.pending > 0 && Safe(Taken(s, Team(g)).(pending := s.pending - 1))
  {
  }

  lemma InsertSafe(s: State, k: Key, e: Entry)
    requires Safe(s) && (Recovered(k) ==> !e.dirty && !e.deleted && !e.remote && !e.requested)
    ensures Safe(Insert(s, k, e))
  {
  }

  lemma EraseSafe(s: State, k: Key)
    requires Safe(s)
    ensures Safe(Erase(s, k))
  {
  }

  lemma SyncSafe(s: State, k: Key, e: Entry)
    requires Safe(s)
    ensures Safe(Sync(s, k, e))
  {
  }

  lemma AckSafe(v: State, k: Key, snapshot: Entry, answer: Answer, t: State)
    requires Safe(v) && !Recovered(k) && t == Acked(v, k, snapshot, answer)
    ensures Safe(t)
  {
    if answer.Unsupported? {
      DisableSafe(v);
    } else if !answer.Broken? && k in v.entries {
      var e := v.entries[k];
      InsertSafe(v, k, e.(remote := true));
      SyncSafe(Insert(v, k, e.(remote := true)), k, e.(remote := true));
      EraseSafe(v, k);
      if Acknowledges(snapshot, e) && !snapshot.deleted {
        var at := if answer.Done? && answer.serverAt > 0 then answer.serverAt else e.at;
        InsertSafe(v, k, e.(dirty := false, remote := true, requested := false, at := at));
      }
    }
  }

  lemma PushSafe(s: State, r: Remote, deleted: bool, t: State)
    requires Safe(s) && t == Pushed(s, r, deleted)
    ensures Safe(t)
  {
    var k := RemoteKey(r);
    EraseSafe(s, k);
    InsertSafe(s, k, RemoteEntry(r));
    if k in s.entries {
      InsertSafe(s, k, s.entries[k].(remote := false));
      InsertSafe(s, k, Noted(s.entries[k], r));
    }
  }

  lemma RemoveSafe(s: State, channel: Id, root: Id, now: int, t: State)
    requires Safe(s) && t == Remove(s, channel, root, now)
    ensures Safe(t)
  {
    var k := Ordinary(channel, root);
    if k in s.entries {
      var e := Tombstone(s.entries[k], NextTime(s, k, now), true);
      EraseSafe(s, k);
      InsertSafe(s, k, e);
      SyncSafe(Insert(s, k, e), k, e);
    }
  }

  lemma UpdateSafe(s: State, channel: Id, root: Id, message: string, reply: Id, now: int, t: State)
    requires Safe(s) && t == Update(s, channel, root, message, reply, now)
    ensures Safe(t)
  {
    var k := Ordinary(channel, root);
    EraseSafe(s, k);
    InsertSafe(s, k, Entry(message, reply, [], NextTime(s, k, now), true, false, k in s.entries && s.entries[k].remote, false));
    if k in s.entries {
      InsertSafe(s, k, Tombstone(s.entries[k], NextTime(s, k, now), false));
    }
  }

  lemma FlushSafe(s: State, channel: Id, root: Id, t: State)
    requires Safe(s) && t == Flush(s, channel, root)
    ensures Safe(t)
  {
    var k := Ordinary(channel, root);
    if k in s.entries {
      var e := s.entries[k].(requested := true);
      EraseSafe(s, k);
      InsertSafe(s, k, e);
      SyncSafe(Insert(s, k, e), k, e);
    }
  }

  lemma RecoveredSafe(s: State, a: Action, t: State)
    requires Safe(s) && (a.Recovery? || a.RecoveredEdit?) && t == Next(s, a)
    ensures Safe(t)
  {
    match a
    case Recovery(k, message, reply, paths, now) =>
      InsertSafe(s, k, Entry(message, reply, paths, NextTime(s, k, now), false, false, false, false));
    case RecoveredEdit(k, message, reply, paths, now) =>
      EraseSafe(s, k);
      if k in s.entries {
        var e := s.entries[k].(message := message, reply := reply, paths := paths, at := NextTime(s, k, now),
                               dirty := false, remote := false, requested := false);
        if !e.deleted {
          InsertSafe(s, k, e);
        }
      }
  }

  lemma RoundSafe(s: State, teams: nat, t: State)
    requires Safe(s) && t == SyncTeams(s, teams)
    ensures Safe(t)
  {
    assert Team(s.generation + 1) !in s.wire;
  }

  lemma TakenSafe(s: State, k: Key, e: Entry)
    requires Safe(s)
    ensures Safe(Taken(s, Save(k, e)))
  {
  }

  lemma NextSafe(s: State, a: Action, t: State)
    requires Safe(s) && Enabled(s, a) && t == Next(s, a)
    ensures Safe(t)
  {
    match a
    case Reply(Save(k, snapshot), answer) =>
      TakenSafe(s, k, snapshot);
      AckSafe(Taken(s, a.request), k, snapshot, answer, t);
    case Reply(Team(g), answer) => TeamSafe(s, g, answer, t);
    case Push(r, deleted) => PushSafe(s, r, deleted, t);
    case Edit(channel, root, message, reply, now) => UpdateSafe(s, channel, root, message, reply, now, t);
    case Flushing(channel, root) => FlushSafe(s, channel, root, t);
    case Removal(channel, root, now) => RemoveSafe(s, channel, root, now, t);
    case Recovery(_, _, _, _, _) => RecoveredSafe(s, a, t);
    case RecoveredEdit(_, _, _, _, _) => RecoveredSafe(s, a, t);
    case KeyRemoval(k, now) => EraseSafe(s, k); RemoveSafe(s, k.channel, k.root, now, Remove(s, k.channel, k.root, now));
    case TeamSync(teams) => RoundSafe(s, teams, t);
    case Writable(on) =>
  }

  lemma {:induction false} RunSafe(ss: seq<State>, acts: seq<Action>, i: nat)
    requires IsRun(ss, acts) && EntriesOk(ss[0].entries) && Initial(ss[0]) && i < |ss|
    ensures Safe(ss[i])
  {
    if i > 0 {
      RunSafe(ss, acts, i - 1);
      NextSafe(ss[i - 1], acts[i - 1], ss[i]);
    }
  }

  // ---------------------------------------------------------------- unsent text

  /** Why a deletion that was not yet confirmed may be forgotten. */
  predicate Settles(s: State, a: Action, k: Key)
    requires k in s.entries
  {
    match a
    case Reply(Save(key, snapshot), answer) =>
      (key == k && !answer.Broken? && Acknowledges(snapshot, s.entries[k]))
      || (answer.Unsupported? && !s.disabled)
    case Reply(Team(g), answer) => g == s.generation && (answer.Unsupported? || s.pending == 1)
    case Push(r, deleted) => RemoteKey(r) == k && deleted && !s.disabled
    case _ => false
  }

  /** What a server step may do to one unsent edit, one unconfirmed deletion, one recovered draft. */
  ghost predicate Spares(s: State, a: Action, t: State, k: Key) {
    && (Unsent(s, k) ==>
          && k in t.entries && SameText(s.entries[k], t.entries[k])
          && (t.entries[k].dirty || Confirms(a, k, s.entries[k])))
    && (DirtyTombstone(s, k) ==>
          if k in t.entries then DirtyTombstone(t, k) && SameText(s.entries[k], t.entries[k]) else Settles(s, a, k))
    && (Recovered(k) ==>
          (k in t.entries <==> k in s.entries) && (k in s.entries ==> t.entries[k] == s.entries[k]))
  }

  /** Entry by entry, disabling drops deletions and the server's copies, and nothing else. */
  lemma DisableEntry(s: State, k: Key)
    requires !s.disabled
    ensures k in Disable(s).entries <==> k in s.entries && !s.entries[k].deleted
    ensures k in Disable(s).entries ==> Disable(s).entries[k] == Silenced(s.entries[k])
  {
  }

  lemma AckElsewhere(v: State, key: Key, snapshot: Entry, answer: Answer, k: Key)
    requires !answer.Unsupported? && k != key
    ensures var t := Acked(v, key, snapshot, answer);
      (k in t.entries <==> k in v.entries) && (k in v.entries ==> t.entries[k] == v.entries[k])
  {
  }

  lemma AckHere(v: State, k: Key, snapshot: Entry, answer: Answer)
    requires !answer.Unsupported? && k in v.entries
    ensures var (e, t) := (v.entries[k], Acked(v, k, snapshot, answer));
      if k in t.entries
      then SameText(e, t.entries[k]) && (t.entries[k].dirty != e.dirty ==>
             !answer.Broken? && Acknowledges(snapshot, e) && !snapshot.deleted)
      else !answer.Broken? && Acknowledges(snapshot, e) && snapshot.deleted
  {
  }

  lemma AckSpares(s: State, key: Key, snapshot: Entry, answer: Answer, t: State, k: Key)
    requires Safe(s) && !Recovered(key) && t == Acked(Taken(s, Save(key, snapshot)), key, snapshot, answer)
    ensures Spares(s, Reply(Save(key, snapshot), answer), t, k)
  {
    var v := Taken(s, Save(key, snapshot));
    if answer.Unsupported? {
      if !s.disabled {
        DisableEntry(v, k);
      }
    } else if k != key {
      AckElsewhere(v, key, snapshot, answer, k);
    } else if k in s.entries {
      AckHere(v, k, snapshot, answer);
    }
  }

  lemma PushSpares(s: State, r: Remote, deleted: bool, t: State, k: Key)
    requires t == Pushed(s, r, deleted)
    ensures Spares(s, Push(r, deleted), t, k)
  {
    PushForm(s, r, deleted, t);
    if k == RemoteKey(r) {
      PushHere(s, r, deleted, t);
    }
  }

  /** Only the one entry is concerned. */
  predicate OnlyAt(a: map<Key, Entry>, b: map<Key, Entry>, x: Key) {
    b == a || b == a - {x} || (x in b && b == a[x := b[x]])
  }

  lemma PushForm(s: State, r: Remote, deleted: bool, t: State)
    requires t == Pushed(s, r, deleted)
    ensures OnlyAt(s.entries, t.entries, RemoteKey(r))
  {
  }

  lemma PushHere(s: State, r: Remote, deleted: bool, t: State)
    requires t == Pushed(s, r, deleted)
    ensures Spares(s, Push(r, deleted), t, RemoteKey(r))
  {
  }

  lemma FinishEntry(s: State, k: Key)
    ensures var t := Counted(s);
      if s.pending > 0 || s.disabled || s.failed
      then t.entries == s.entries
      else (k in t.entries <==> k in s.entries && Stays(k, s.entries[k], s.seen))
           && (k in t.entries ==> t.entries[k] == Marked(k, s.entries[k], s.seen))
  {
  }

  lemma TeamSpares(s: State, g: nat, answer: Answer, t: State, k: Key)
    requires Safe(s) && Team(g) in s.wire && t == TeamAnswered(Taken(s, Team(g)), g, answer)
    ensures Spares(s, Reply(Team(g), answer), t, k)
  {
    var v := Taken(s, Team(g));
    if g == s.generation {
      if answer.Unsupported? {
        if !s.disabled {
          DisableEntry(v, k);
        }
      } else {
        AnsweredForm(v, g, answer);
        AnswerSpares(s, v.(pending := v.pending - 1), answer, t, k);
      }
    }
  }

  lemma AnswerSpares(s: State, u: State, answer: Answer, t: State, k: Key)
    requires u.entries == s.entries && u.pending == s.pending - 1 && EntriesOk(s.entries) && !answer.Unsupported?
    requires t == Counted(Listing(u, answer))
    ensures Spares(s, Reply(Team(s.generation), answer), t, k)
  {
    var l := Listing(u, answer);
    FinishEntry(l, k);
    ListedEntry(u, answer, l, k);
    CountedSpares(s, l, answer, t, k);
  }

  /** What a listing makes of an entry that is not the server's to change. */
  ghost predicate Listable(e: Entry, f: Entry, recovered: bool) {
    f == e || (!recovered && f == e.(remote := true))
  }

  lemma ListedEntry(u: State, answer: Answer, l: State, k: Key)
    requires l == Listing(u, answer)
    ensures l.pending == u.pending
    ensures k in u.entries && (u.entries[k].dirty || Recovered(k)) ==>
      k in l.entries && Listable(u.entries[k], l.entries[k], Recovered(k))
    ensures k !in u.entries && Recovered(k) ==> k !in l.entries
  {
    if answer.Listed? {
      AbsorbEffect(u.entries, answer.drafts, k);
    }
  }

  lemma CountedSpares(s: State, l: State, answer: Answer, t: State, k: Key)
    requires l.pending == s.pending - 1 && EntriesOk(s.entries) && !answer.Unsupported?
    requires k in s.entries && (s.entries[k].dirty || Recovered(k)) ==>
      k in l.entries && Listable(s.entries[k], l.entries[k], Recovered(k))
    requires k !in s.entries && Recovered(k) ==> k !in l.entries
    requires if l.pending > 0 || l.disabled || l.failed then t.entries == l.entries
      else (k in t.entries <==> k in l.entries && Stays(k, l.entries[k], l.seen))
           && (k in t.entries ==> t.entries[k] == Marked(k, l.entries[k], l.seen))
    ensures Spares(s, Reply(Team(s.generation), answer), t, k)
  {
  }

  /** Every step of the server spares every unsent edit, unconfirmed deletion and recovered draft. */
  lemma ServerSpares(s: State, a: Action, t: State, k: Key)
    requires Safe(s) && Enabled(s, a) && FromServer(a) && t == Next(s, a)
    ensures Spares(s, a, t, k)
  {
    match a
    case Reply(Save(key, snapshot), answer) => AckSpares(s, key, snapshot, answer, t, k);
    case Reply(Team(g), answer) => TeamSpares(s, g, answer, t, k);
    case Push(r, deleted) => PushSpares(s, r, deleted, t, k);
  }

  predicate LocalOn(a: Action, k: Key) {
    match a
    case Edit(channel, root, _, _, _) => Ordinary(channel, root) == k
    case Removal(channel, root, _) => Ordinary(channel, root) == k
    case KeyRemoval(key, _) => key == k || Ordinary(key.channel, key.root) == k
    case _ => false
  }

  lemma EditElsewhere(s: State, channel: Id, root: Id, message: string, reply: Id, now: int, k: Key)
    requires k in s.entries && k != Ordinary(channel, root)
    ensures var t := Update(s, channel, root, message, reply, now); k in t.entries && t.entries[k] == s.entries[k]
  {
    EditForm(s, channel, root, message, reply, now);
  }

  lemma EditForm(s: State, channel: Id, root: Id, message: string, reply: Id, now: int)
    ensures OnlyAt(s.entries, Update(s, channel, root, message, reply, now).entries, Ordinary(channel, root))
  {
  }

  lemma RemoveElsewhere(s: State, channel: Id, root: Id, now: int, k: Key)
    requires k in s.entries && k != Ordinary(channel, root)
    ensures var t := Remove(s, channel, root, now); k in t.entries && t.entries[k] == s.entries[k]
  {
  }

  lemma FlushKeeps(s: State, channel: Id, root: Id, k: Key)
    requires Unsent(s, k)
    ensures var t := Flush(s, channel, root); Unsent(t, k) && SameText(s.entries[k], t.entries[k])
  {
  }

  lemma RecoveryElsewhere(s: State, key: Key, message: string, reply: Id, paths: seq<string>, now: int, k: Key)
    requires Unsent(s, k) && !Recovered(k)
    ensures var t := AddRecovered(s, key, message, reply, paths, now).0; k in t.entries && t.entries[k] == s.entries[k]
    ensures var t := UpdateRecovered(s, key, message, reply, paths, now); k in t.entries && t.entries[k] == s.entries[k]
  {
  }

  /** Local work on other drafts, and flushing this one, leave it unsent. */
  lemma LocalKeepsText(s: State, a: Action, t: State, k: Key)
    requires Safe(s) && !FromServer(a) && !LocalOn(a, k) && Unsent(s, k) && t == Next(s, a)
    ensures Unsent(t, k) && SameText(s.entries[k], t.entries[k])
  {
    match a
    case Edit(channel, root, message, reply, now) => EditElsewhere(s, channel, root, message, reply, now, k);
    case Flushing(channel, root) => FlushKeeps(s, channel, root, k);
    case Removal(channel, root, now) => RemoveElsewhere(s, channel, root, now, k);
    case _ => OtherKeepsText(s, a, t, k);
  }

  lemma OtherKeepsText(s: State, a: Action, t: State, k: Key)
    requires Safe(s) && !FromServer(a) && !LocalOn(a, k) && Unsent(s, k) && t == Next(s, a)
    requires !a.Edit? && !a.Flushing? && !a.Removal?
    ensures Unsent(t, k) && SameText(s.entries[k], t.entries[k])
  {
    match a
    case Recovery(key, message, reply, paths, now) => RecoveryElsewhere(s, key, message, reply, paths, now, k);
    case RecoveredEdit(key, message, reply, paths, now) => RecoveryElsewhere(s, key, message, reply, paths, now, k);
    case KeyRemoval(key, now) => RemoveElsewhere(s, key.channel, key.root, now, k);
    case _ =>
  }

  /** The edit of state i is still there, unsent, in state j. */
  ghost predicate Kept(ss: seq<State>, k: Key, i: nat, j: nat)
    requires i < |ss| && j < |ss| && k in ss[i].entries
  {
    Unsent(ss[j], k) && SameText(ss[i].entries[k], ss[j].entries[k])
  }

  /** Some step from i on confirmed the edit of state i while it was still there. */
  ghost predicate Confirmed(ss: seq<State>, acts: seq<Action>, k: Key, i: nat, j: nat)
    requires i <= j < |ss| == |acts| + 1 && k in ss[i].entries
  {
    exists m :: i <= m < j && Kept(ss, k, i, m) && Confirms(acts[m], k, ss[m].entries[k])
  }

  /**
   * Over any run without a local change of that draft, an unsent edit keeps its text until the server has
   * confirmed exactly that text, however acknowledgements, events and snapshots interleave.
   */
  lemma {:induction false} UnsentTextSurvives(ss: seq<State>, acts: seq<Action>, k: Key, i: nat, j: nat)
    requires IsRun(ss, acts) && EntriesOk(ss[0].entries) && Initial(ss[0]) && i <= j < |ss|
    requires Unsent(ss[i], k) && forall m :: i <= m < j ==> !LocalOn(acts[m], k)
    ensures Kept(ss, k, i, j) || Confirmed(ss, acts, k, i, j)
  {
    if i < j {
      UnsentTextSurvives(ss, acts, k, i, j - 1);
      if Kept(ss, k, i, j - 1) {
        KeptAt(ss, acts, k, i, j - 1);
      }
    }
  }

  lemma KeptAt(ss: seq<State>, acts: seq<Action>, k: Key, i: nat, j: nat)
    requires IsRun(ss, acts) && EntriesOk(ss[0].entries) && Initial(ss[0]) && i <= j < |acts|
    requires k in ss[i].entries && Kept(ss, k, i, j) && !LocalOn(acts[j], k)
    ensures Kept(ss, k, i, j + 1) || Confirms(acts[j], k, ss[j].entries[k])
  {
    RunSafe(ss, acts, j);
    KeptStep(ss[j], acts[j], ss[j + 1], k);
  }

  lemma KeptStep(s: State, a: Action, t: State, k: Key)
    requires Safe(s) && Enabled(s, a) && !LocalOn(a, k) && Unsent(s, k) && t == Next(s, a)
    ensures k in t.entries && SameText(s.entries[k], t.entries[k])
    ensures Unsent(t, k) || Confirms(a, k, s.entries[k])
  {
    if FromServer(a) {
      ServerSpares(s, a, t, k);
    } else {
      LocalKeepsText(s, a, t, k);
    }
  }

  /** An acknowledgement of the very edit, or a report of the requested text, clears it: it is not sent again. */
  lemma ConfirmationClears(s: State, a: Action, t: State, k: Key)
    requires Safe(s) && Enabled(s, a) && Unsent(s, k) && Confirms(a, k, s.entries[k]) && t == Next(s, a)
    requires a.Push? ==> !s.disabled && Usable(a.draft)
    ensures k in t.entries && !t.entries[k].dirty && !t.entries[k].requested
  {
    match a
    case Reply(Save(key, snapshot), answer) =>
      assert t == Acked(Taken(s, a.request), key, snapshot, answer);
    case Push(r, deleted) =>
      assert t == Pushed(s, r, deleted);
  }

  // ---------------------------------------------------------------- snapshots

  /** An answer of an earlier round changes nothing. */
  lemma StaleRoundIgnored(s: State, g: nat, answer: Answer)
    requires Safe(s) && Team(g) in s.wire && g != s.generation
    ensures Next(s, Reply(Team(g), answer)) == Taken(s, Team(g))
  {
  }

  /**
   * Each answer of the current round is counted once, when the counter reaches zero none is outstanding, and an answer
   * of an earlier round leaves counter, drafts and the outstanding answers of the current one alone.
   */
  lemma RoundsFinishOnce(s: State, g: nat, answer: Answer, t: State)
    requires Safe(s) && Team(g) in s.wire && !answer.Unsupported? && t == Next(s, Reply(Team(g), answer))
    ensures t.generation == s.generation && t.pending == s.pending - (if g == s.generation then 1 else 0)
    ensures g == s.generation ==> (t.pending == 0 <==> Team(g) !in t.wire)
    ensures g != s.generation ==> t.entries == s.entries && t.wire[Team(s.generation)] == s.wire[Team(s.generation)]
  {
    if g == s.generation {
      RoundCounts(s, answer, t);
    } else {
      StaleRoundIgnored(s, g, answer);
    }
  }

  lemma RoundCounts(s: State, answer: Answer, t: State)
    requires Safe(s) && Team(s.generation) in s.wire && !answer.Unsupported?
    requires t == TeamAnswered(Taken(s, Team(s.generation)), s.generation, answer)
    ensures t.generation == s.generation && t.pending == s.pending - 1
    ensures t.pending == 0 <==> Team(s.generation) !in t.wire
  {
    var v := Taken(s, Team(s.generation));
    AnsweredForm(v, s.generation, answer);
    TeamSafe(s, s.generation, answer, t);
    CountedFields(Listing(v.(pending := v.pending - 1), answer));
  }

  lemma CountedFields(u: State)
    ensures Counted(u).generation == u.generation && Counted(u).pending == u.pending
  {
  }

  /** The entries that are sent again at the end of a round. */
  predicate Outgoing(k: Key, e: Entry) {
    !Recovered(k) && k.channel != "" && e.dirty && e.requested
  }

  lemma FinishReconciles(u: State, k: Key, e: Entry)
    requires !u.disabled && !u.failed
    ensures var t := Finish(u);
      && (k in t.entries && !Recovered(k) ==>
            (k in u.seen || Unsent(t, k)) && (t.entries[k].remote <==> k in u.seen))
      && (Save(k, e) in Resends(u.entries, u.seen) <==> k in t.entries && t.entries[k] == e && Outgoing(k, e))
      && t.wire == u.wire + multiset(Resends(u.entries, u.seen))
  {
    assert k in u.entries && Resent(k, u.entries[k], u.seen) ==>
      Save(k, Marked(k, u.entries[k], u.seen)) in Resends(u.entries, u.seen);
  }

  /**
   * When the last answer of a round arrives and none failed, every ordinary draft is one the server listed or
   * text it has not seen yet, each knows whether the server has it, and the unsent, requested ones - no others -
   * are on their way again.
   */
  lemma RoundReconciles(s: State, drafts: seq<Remote>, t: State, k: Key, e: Entry)
    requires Safe(s) && s.pending == 1 && Team(s.generation) in s.wire && !s.failed
    requires t == TeamAnswered(Taken(s, Team(s.generation)), s.generation, Listed(drafts))
    ensures k in t.entries && !Recovered(k) ==>
      && (k in s.seen + SeenIn(drafts) || Unsent(t, k))
      && (t.entries[k].remote <==> k in s.seen + SeenIn(drafts))
    ensures s.wire - multiset{Team(s.generation)} <= t.wire
    ensures Save(k, e) in t.wire - (s.wire - multiset{Team(s.generation)})
            <==> k in t.entries && t.entries[k] == e && Outgoing(k, e)
  {
    var u := LastListing(s, drafts, t);
    FinishReconciles(u, k, e);
    assert t.wire - u.wire == multiset(Resends(u.entries, u.seen));
  }

  lemma LastListing(s: State, drafts: seq<Remote>, t: State) returns (u: State)
    requires Safe(s) && s.pending == 1 && Team(s.generation) in s.wire && !s.failed
    requires t == TeamAnswered(Taken(s, Team(s.generation)), s.generation, Listed(drafts))
    ensures t == Finish(u) && u.seen == s.seen + SeenIn(drafts) && !u.failed && !u.disabled
    ensures u.wire == s.wire - multiset{Team(s.generation)}
  {
    var v := Taken(s, Team(s.generation));
    u := Listing(v.(pending := v.pending - 1), Listed(drafts));
    AnsweredForm(v, s.generation, Listed(drafts));
    ListingFields(v.(pending := v.pending - 1), drafts);
  }

  lemma ListingFields(v: State, drafts: seq<Remote>)
    ensures var u := Listing(v, Listed(drafts));
      && u.seen == v.seen + SeenIn(drafts) && u.failed == v.failed && u.disabled == v.disabled
      && u.wire == v.wire && u.pending == v.pending
  {
  }

  /** Every draft the server listed is there afterwards, unless a local entry of it is at least as new. */
  lemma {:induction false} ListedArrive(entries: map<Key, Entry>, rs: seq<Remote>, r: Remote)
    requires r in rs && Usable(r)
    ensures RemoteKey(r) in AbsorbAll(entries, rs)
    ensures AbsorbAll(entries, rs)[RemoteKey(r)].dirty || r.at <= AbsorbAll(entries, rs)[RemoteKey(r)].at
    decreases |rs|
  {
    if r == rs[0] {
      LaterStays(Absorbed(entries, r), rs[1..], RemoteKey(r));
    } else {
      ListedArrive(Absorbed(entries, rs[0]), rs[1..], r);
    }
  }

  lemma {:induction false} LaterStays(entries: map<Key, Entry>, rs: seq<Remote>, k: Key)
    requires k in entries
    ensures k in AbsorbAll(entries, rs)
    ensures AbsorbAll(entries, rs)[k].dirty == entries[k].dirty
    ensures entries[k].at <= AbsorbAll(entries, rs)[k].at
    decreases |rs|
  {
    if rs != [] {
      LaterStays(Absorbed(entries, rs[0]), rs[1..], k);
    }
  }

  // ---------------------------------------------------------------- removals

  /** Removing a draft the server may know leaves a deletion behind and sends it; any other draft is simply gone. */
  lemma RemovalIsSent(s: State, channel: Id, root: Id, now: int)
    requires channel != "" && Ordinary(channel, root) in s.entries
    ensures var (k, t) := (Ordinary(channel, root), Remove(s, channel, root, now));
      if s.disabled || (!s.entries[k].remote && !s.entries[k].requested) then k !in t.entries && t.wire == s.wire
      else DirtyTombstone(t, k) && t.wire == s.wire + multiset{Save(k, t.entries[k])}
           && t.entries[k].at > s.entries[k].at
  {
  }
}
