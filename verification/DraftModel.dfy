/** Draft synchronisation: local edits merged with acknowledgements, pushed events and team snapshots in any order. */
module DraftModel {
  import opened Prelude

  /** Ordinary drafts are unique per conversation; a recovered one also carries the post it came from. */
  datatype Key = Key(channel: Id, root: Id, recovery: Id)

  predicate Recovered(k: Key) {
    k.recovery != ""
  }

  datatype Entry = Entry(message: string, reply: Id, paths: seq<string>, at: int,
                         dirty: bool, deleted: bool, remote: bool, requested: bool)

  /** A draft as the server describes it. */
  datatype Remote = Remote(channel: Id, root: Id, message: string, reply: Id, at: int)

  /** Requests whose answer is outstanding, with what they captured. */
  datatype Request = Save(key: Key, snapshot: Entry) | Team(generation: nat)

  datatype Answer = Unsupported | Broken | Done(serverAt: int) | Listed(drafts: seq<Remote>)

  datatype State = State(entries: map<Key, Entry>, disabled: bool, generation: nat, pending: nat, failed: bool,
                         seen: set<Key>, wire: multiset<Request>, writable: bool, disk: map<Key, Entry>)

  function Ordinary(channel: Id, root: Id): Key {
    Key(channel, root, "")
  }

  function RemoteKey(r: Remote): Key {
    Ordinary(r.channel, r.root)
  }

  function RemoteEntry(r: Remote): Entry {
    Entry(r.message, r.reply, [], r.at, false, false, true, false)
  }

  predicate Usable(r: Remote) {
    r.channel != "" && r.at > 0 && (r.message != "" || r.reply != "")
  }

  /** Same content, whatever is known about the server's copy. */
  predicate SameContent(a: Entry, b: Entry) {
    a.message == b.message && a.reply == b.reply && a.deleted == b.deleted
  }

  /** Every edit of an entry is later than what it replaces. */
  function NextTime(s: State, k: Key, now: int): int {
    if k in s.entries then Max(now, s.entries[k].at + 1) else now
  }

  function Persist(s: State): State {
    if s.writable then s.(disk := s.entries) else s
  }

  function Insert(s: State, k: Key, e: Entry): State {
    Persist(s.(entries := s.entries[k := e]))
  }

  function Erase(s: State, k: Key): State {
    Persist(s.(entries := s.entries - {k}))
  }

  function Tombstone(e: Entry, at: int, requested: bool): Entry {
    e.(message := "", reply := "", at := at, dirty := true, deleted := true, requested := requested)
  }

  // ---------------------------------------------------------------- what the user does

  function Update(s: State, channel: Id, root: Id, message: string, reply: Id, now: int): State {
    var k := Ordinary(channel, root);
    if channel == "" then s
    else if message == "" then
      if k !in s.entries then s
      else if !s.entries[k].remote && !s.entries[k].requested then Erase(s, k)
      else if s.entries[k].deleted && s.entries[k].message == "" && s.entries[k].reply == ""
              && !s.entries[k].requested then s
      else Insert(s, k, Tombstone(s.entries[k], NextTime(s, k, now), false))
    else if k in s.entries && !s.entries[k].deleted && s.entries[k].message == message && s.entries[k].reply == reply
    then s
    else Insert(s, k, Entry(message, reply, [], NextTime(s, k, now), true, false,
                            k in s.entries && s.entries[k].remote, false))
  }

  /** Put one save request on the wire, if the entry takes part in synchronisation at all. */
  function Sync(s: State, k: Key, e: Entry): State {
    if Recovered(k) || s.disabled || k.channel == "" || !e.requested then s
    else s.(wire := s.wire + multiset{Save(k, e)})
  }

  function Flush(s: State, channel: Id, root: Id): State {
    var k := Ordinary(channel, root);
    if channel == "" || k !in s.entries then s
    else
      var e := s.entries[k];
      if e.deleted && !e.remote && !e.requested then Erase(s, k)
      else if !e.dirty || s.disabled then s
      else Sync(Insert(s, k, e.(requested := true)), k, e.(requested := true))
  }

  function Remove(s: State, channel: Id, root: Id, now: int): State {
    var k := Ordinary(channel, root);
    if channel == "" || k !in s.entries then s
    else if s.disabled || (!s.entries[k].remote && !s.entries[k].requested) then Erase(s, k)
    else
      var t := Tombstone(s.entries[k], NextTime(s, k, now), true);
      Sync(Insert(s, k, t), k, t)
  }

  function SameRecovered(e: Entry, message: string, reply: Id, paths: seq<string>): bool {
    !e.deleted && e.message == message && e.reply == reply && e.paths == paths
  }

  /** Keep an unsent message as a draft; the answer says whether the draft file now holds it. */
  function AddRecovered(s: State, k: Key, message: string, reply: Id, paths: seq<string>, now: int): (State, bool) {
    if k.channel == "" || k.recovery == "" || (message == "" && paths == []) then (s, false)
    else if k in s.entries && SameRecovered(s.entries[k], message, reply, paths) then (s, true)
    else if !s.writable then (s, false)
    else (Insert(s, k, Entry(message, reply, paths, NextTime(s, k, now), false, false, false, false)), true)
  }

  function UpdateRecovered(s: State, k: Key, message: string, reply: Id, paths: seq<string>, now: int): State {
    if k !in s.entries || s.entries[k].deleted || !Recovered(k) then s
    else if message == "" && paths == [] then Erase(s, k)
    else if SameRecovered(s.entries[k], message, reply, paths) then s
    else Insert(s, k, s.entries[k].(message := message, reply := reply, paths := paths, at := NextTime(s, k, now),
                                    dirty := false, remote := false, requested := false))
  }

  function RemoveByKey(s: State, k: Key, now: int): State {
    if k !in s.entries || s.entries[k].deleted then s
    else if Recovered(k) then Erase(s, k)
    else Remove(s, k.channel, k.root, now)
  }

  // ---------------------------------------------------------------- what the server does

  function Silenced(e: Entry): Entry {
    e.(requested := false, remote := false)
  }

  function Disable(s: State): State {
    if s.disabled then s
    else
      var entries := map k | k in s.entries && !s.entries[k].deleted :: Silenced(s.entries[k]);
      var t := s.(disabled := true, generation := s.generation + 1, pending := 0, seen := {}, entries := entries);
      if entries != s.entries then Persist(t) else t
  }

  /** The acknowledged entry is the one that was sent: nothing was edited in between. */
  predicate Acknowledges(snapshot: Entry, e: Entry) {
    e.at == snapshot.at && SameContent(e, snapshot)
  }

  function Acked(s: State, k: Key, snapshot: Entry, answer: Answer): State {
    if answer.Unsupported? then Disable(s)
    else if answer.Broken? || k !in s.entries then s
    else
      var e := s.entries[k];
      if !Acknowledges(snapshot, e) then
        if !snapshot.deleted && e.deleted && e.requested
        then Sync(Insert(s, k, e.(remote := true)), k, e.(remote := true))
        else s
      else if snapshot.deleted then Erase(s, k)
      else
        var at := if answer.Done? && answer.serverAt > 0 then answer.serverAt else e.at;
        Insert(s, k, e.(dirty := false, remote := true, requested := false, at := at))
  }

  /** A pushed event about one of the user's own drafts. */
  function Pushed(s: State, r: Remote, deleted: bool): State {
    var k := RemoteKey(r);
    if s.disabled || r.channel == "" then s
    else if deleted then
      if k !in s.entries then s
      else if s.entries[k].dirty && !s.entries[k].deleted then Insert(s, k, s.entries[k].(remote := false))
      else Erase(s, k)
    else if !Usable(r) then s
    else if k in s.entries && s.entries[k].dirty then Insert(s, k, Noted(s.entries[k], r))
    else if k in s.entries && !Newer(s.entries[k], r) then s
    else Insert(s, k, RemoteEntry(r))
  }

  /** A dirty entry learns that the server has a copy, and that the copy is the requested one if it is. */
  function Noted(e: Entry, r: Remote): Entry {
    if e.requested && !e.deleted && e.message == r.message && e.reply == r.reply
    then e.(remote := true, dirty := false, requested := false, at := Max(e.at, r.at))
    else e.(remote := true)
  }

  predicate Newer(e: Entry, r: Remote) {
    e.at < r.at
    || (e.at == r.at && !(e.message == r.message && e.reply == r.reply && !e.deleted && e.remote))
  }

  function SyncTeams(s: State, teams: nat): State {
    if s.disabled || teams == 0 then s
    else s.(generation := s.generation + 1, pending := teams, failed := false, seen := {},
            wire := s.wire + multiset{}[Team(s.generation + 1) := teams])
  }

  /** One listed draft of a team snapshot. */
  function Absorbed(entries: map<Key, Entry>, r: Remote): map<Key, Entry> {
    var k := RemoteKey(r);
    if !Usable(r) then entries
    else if k in entries && entries[k].dirty then entries[k := entries[k].(remote := true)]
    else if k in entries && r.at <= entries[k].at then entries
    else entries[k := RemoteEntry(r)]
  }

  function AbsorbAll(entries: map<Key, Entry>, rs: seq<Remote>): map<Key, Entry>
    decreases |rs|
  {
    if rs == [] then entries else AbsorbAll(Absorbed(entries, rs[0]), rs[1..])
  }

  function SeenIn(rs: seq<Remote>): set<Key> {
    set r | r in rs && Usable(r) :: RemoteKey(r)
  }

  function Listing(s: State, answer: Answer): State {
    match answer
    case Listed(rs) =>
      var t := s.(entries := AbsorbAll(s.entries, rs), seen := s.seen + SeenIn(rs));
      if t.entries != s.entries then Persist(t) else t
    case _ => s.(failed := true)
  }

  function TeamAnswered(s: State, generation: nat, answer: Answer): State {
    if generation != s.generation then s
    else if answer.Unsupported? then Disable(s)
    else
      var t := Listing(s, answer);
      var u := t.(pending := if t.pending > 0 then t.pending - 1 else 0);
      if t.pending == 1 then Finish(u) else u
  }

  /** After a complete snapshot an entry stays if it is local, if the server has it, or if it holds unsent text. */
  predicate Stays(k: Key, e: Entry, seen: set<Key>) {
    Recovered(k) || k in seen || (e.dirty && !e.deleted)
  }

  function Marked(k: Key, e: Entry, seen: set<Key>): Entry {
    if Recovered(k) then e else e.(remote := k in seen)
  }

  function Settled(entries: map<Key, Entry>, seen: set<Key>): map<Key, Entry> {
    map k | k in entries && Stays(k, entries[k], seen) :: Marked(k, entries[k], seen)
  }

  /** Which entries are sent again: unsent ones whose sending was asked for, unless there is nothing to delete. */
  predicate Resent(k: Key, e: Entry, seen: set<Key>) {
    !Recovered(k) && k.channel != "" && e.dirty && e.requested && (k in seen || !e.deleted)
  }

  function Resends(entries: map<Key, Entry>, seen: set<Key>): set<Request> {
    set k | k in entries && Resent(k, entries[k], seen) :: Save(k, Marked(k, entries[k], seen))
  }

  function Finish(s: State): State {
    if s.disabled || s.failed then s
    else
      var t := s.(entries := Settled(s.entries, s.seen), wire := s.wire + multiset(Resends(s.entries, s.seen)));
      if t.entries != s.entries then Persist(t) else t
  }

  // ---------------------------------------------------------------- runs

  datatype Action =
    | Edit(channel: Id, root: Id, message: string, reply: Id, now: int)
    | Flushing(channel: Id, root: Id)
    | Removal(channel: Id, root: Id, now: int)
    | Recovery(key: Key, message: string, reply: Id, paths: seq<string>, now: int)
    | RecoveredEdit(key: Key, message: string, reply: Id, paths: seq<string>, now: int)
    | KeyRemoval(key: Key, now: int)
    | TeamSync(teams: nat)
    | Reply(request: Request, answer: Answer)
    | Push(draft: Remote, deleted: bool)
    | Writable(on: bool)

  predicate Enabled(s: State, a: Action) {
    a.Reply? ==> a.request in s.wire
  }

  function Taken(s: State, r: Request): State {
    s.(wire := s.wire - multiset{r})
  }

  function Next(s: State, a: Action): State {
    match a
    case Edit(channel, root, message, reply, now) => Update(s, channel, root, message, reply, now)
    case Flushing(channel, root) => Flush(s, channel, root)
    case Removal(channel, root, now) => Remove(s, channel, root, now)
    case Recovery(k, message, reply, paths, now) => AddRecovered(s, k, message, reply, paths, now).0
    case RecoveredEdit(k, message, reply, paths, now) => UpdateRecovered(s, k, message, reply, paths, now)
    case KeyRemoval(k, now) => RemoveByKey(s, k, now)
    case TeamSync(teams) => SyncTeams(s, teams)
    case Reply(Save(k, snapshot), answer) => Acked(Taken(s, a.request), k, snapshot, answer)
    case Reply(Team(generation), answer) => TeamAnswered(Taken(s, a.request), generation, answer)
    case Push(r, deleted) => Pushed(s, r, deleted)
    case Writable(on) => s.(writable := on)
  }

  ghost predicate IsRun(ss: seq<State>, acts: seq<Action>) {
    && |ss| == |acts| + 1
    && forall i :: 0 <= i < |acts| ==> Enabled(ss[i], acts[i]) && ss[i + 1] == Next(ss[i], acts[i])
  }
}
