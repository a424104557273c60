/** The cache store as a value: what each call does to rows, windows, usage and limits. */
module CacheModel {
  import opened Prelude
  import opened PostOrder
  import opened CacheTable
  import opened Joins

  /** Rows taken over from a reply: written now, under this account. */
  function Fresh(x: Row, account: nat, now: int): Row {
    x.(account := account, lastAccess := now, used := now, readable := true)
  }

  function UpsertAll(t: seq<Row>, xs: seq<Row>): seq<Row> {
    if xs == [] then t else Upsert(UpsertAll(t, xs[..|xs| - 1]), xs[|xs| - 1])
  }

  lemma {:induction false} UpsertAllOk(t: seq<Row>, xs: seq<Row>, now: int)
    requires Listed(t) && AllCoarse(t, now) && forall x :: x in xs ==> Coarse(x, now)
    ensures Listed(UpsertAll(t, xs)) && AllCoarse(UpsertAll(t, xs), now)
  {
    if xs != [] {
      UpsertAllOk(t, xs[..|xs| - 1], now);
      UpsertListed(UpsertAll(t, xs[..|xs| - 1]), xs[|xs| - 1]);
    }
  }

  // ---------------------------------------------------------------- tail windows

  /** The row is there, readable, and belongs to this timeline. */
  predicate Usable(t: seq<Row>, account: nat, id: Id, channel: Id, root: Id) {
    match Find(t, account, id)
    case None => false
    case Some(x) => x.readable && x.channel == channel && x.root == root
  }

  /** How many identifiers at the end of the window are usable without a gap, up to the limit. */
  function SuffixLength(t: seq<Row>, account: nat, ids: seq<Id>, channel: Id, root: Id, limit: nat): (n: nat)
    ensures n <= |ids| && n <= limit
  {
    if limit == 0 || ids == [] || !Usable(t, account, ids[|ids| - 1], channel, root) then 0
    else 1 + SuffixLength(t, account, ids[..|ids| - 1], channel, root, limit - 1)
  }

  /** Everything in the suffix is usable, and it could not be longer. */
  lemma {:induction false} SuffixIsLongest(t: seq<Row>, account: nat, ids: seq<Id>, channel: Id, root: Id, limit: nat)
    ensures var n := SuffixLength(t, account, ids, channel, root, limit);
      && (forall i :: |ids| - n <= i < |ids| ==> Usable(t, account, ids[i], channel, root))
      && (n < limit && n < |ids| ==> !Usable(t, account, ids[|ids| - n - 1], channel, root))
  {
    if !(limit == 0 || ids == [] || !Usable(t, account, ids[|ids| - 1], channel, root)) {
      SuffixIsLongest(t, account, ids[..|ids| - 1], channel, root, limit - 1);
      var m := SuffixLength(t, account, ids[..|ids| - 1], channel, root, limit - 1);
      forall i | |ids| - m - 1 <= i < |ids| ensures Usable(t, account, ids[i], channel, root) {
        if i < |ids| - 1 {
          assert ids[..|ids| - 1][i] == ids[i];
        }
      }
    }
  }

  /** Reading a row makes no row usable or unusable. */
  lemma TouchKeepsUsable(t: seq<Row>, account: nat, id: Id, now: int, other: Id, channel: Id, root: Id)
    requires Listed(t)
    ensures Usable(Touch(t, account, id, now), account, other, channel, root) == Usable(t, account, other, channel, root)
  {
    var t' := Touch(t, account, id, now);
    TouchListed(t, account, id, now);
    FindIs(t, account, id);
    FindIs(t, account, other);
    FindIs(t', account, other);
    match Find(t, account, id)
    case None =>
    case Some(x) =>
      UpsertListed(t, Touched(x, now));
      if Find(t, account, other).Some? && other != id {
        OneRow(t', Find(t, account, other).value, Find(t', account, other));
      }
      if other == id {
        OneRow(t', Touched(x, now), Find(t', account, other));
      }
  }

  lemma OneRow(t: seq<Row>, x: Row, found: Option<Row>)
    requires Listed(t) && x in t && found == Find(t, x.account, x.id)
    ensures found == Some(x)
  {
    FindIs(t, x.account, x.id);
    var i :| 0 <= i < |t| && t[i] == x;
    var j :| 0 <= j < |t| && t[j] == found.value;
    assert !(i < j) && !(j < i);
  }

  /** What a tail window shows is a contiguous, gap-free end of what was recorded, as long as it can be. */
  lemma WindowNeverBridges(t: seq<Row>, account: nat, w: seq<Id>, channel: Id, root: Id, limit: nat)
    ensures var n := SuffixLength(t, account, w, channel, root, limit);
      var shown := w[|w| - n..];
      && (forall id :: id in shown ==> Usable(t, account, id, channel, root) && id in w)
      && w == w[..|w| - n] + shown
      && (|shown| == limit || |shown| == |w| || !Usable(t, account, w[|w| - n - 1], channel, root))
  {
    SuffixIsLongest(t, account, w, channel, root, limit);
  }

  // ---------------------------------------------------------------- limits and channels

  function AtLeastOne(n: nat): nat {
    if n >= 1 then n else 1
  }

  /** The channels used within the idle time. */
  function ActiveUsage(usage: map<(nat, Id), int>, cutoff: int): map<(nat, Id), int> {
    map c | c in usage && usage[c] >= cutoff :: usage[c]
  }

  /** The windows of those channels. */
  function ActiveWindows(windows: map<Thread, seq<Id>>, usage: map<(nat, Id), int>, cutoff: int): map<Thread, seq<Id>> {
    map g | g in windows && (g.account, g.channel) in ActiveUsage(usage, cutoff) :: windows[g]
  }

  // ---------------------------------------------------------------- the state and its steps

  type Positive = n: nat | 1 <= n witness 1

  datatype Limits = Limits(posts: Positive, bytes: Positive, thread: Positive, idle: Positive)

  datatype State = State(table: seq<Row>, windows: map<Thread, seq<Id>>, usage: map<(nat, Id), int>,
                         account: Option<nat>, limits: Limits, now: int)

  /** Was the channel opened recently enough? */
  predicate Recent(usage: map<(nat, Id), int>, cutoff: int, a: nat, channel: Id) {
    channel != "" && (a, channel) in usage && usage[(a, channel)] >= cutoff
  }

  predicate Eligible(s: State, channel: Id) {
    s.account.Some? && Recent(s.usage, s.now - s.limits.idle, s.account.value, channel)
  }

  /** Which rows of a reply may be cached: named ones of channels opened recently. */
  function Admitted(posts: seq<Row>, a: nat, usage: map<(nat, Id), int>, cutoff: int, now: int): seq<Row> {
    if posts == [] then []
    else
      var rest := Admitted(posts[..|posts| - 1], a, usage, cutoff, now);
      var x := posts[|posts| - 1];
      if x.id == "" || !Recent(usage, cutoff, a, x.channel) then rest else rest + [Fresh(x, a, now)]
  }

  lemma {:induction false} AdmittedCoarse(posts: seq<Row>, a: nat, usage: map<(nat, Id), int>, cutoff: int, now: int)
    ensures forall x :: x in Admitted(posts, a, usage, cutoff, now) ==> Coarse(x, now)
  {
    if posts != [] {
      AdmittedCoarse(posts[..|posts| - 1], a, usage, cutoff, now);
    }
  }

  function Pruned(t: seq<Row>, l: Limits): seq<Row> {
    GlobalPruned(ThreadPruned(t, l.thread), l.posts, l.bytes)
  }

  /** Rows are written, and the limits hold again. */
  function Written(s: State, rows: seq<Row>): State {
    s.(table := Pruned(UpsertAll(s.table, rows), s.limits))
  }

  /** A reply is stored; `ok` says whether the transaction could be written. */
  function Stored(s: State, posts: seq<Row>, ok: bool): State {
    if s.account.None? then s
    else
      var rows := Admitted(posts, s.account.value, s.usage, s.now - s.limits.idle, s.now);
      if rows == [] || !ok then s else Written(s, rows)
  }

  /** Channels nobody opens any more go, then what exceeds the limits. */
  function Cleaned(s: State): State {
    var cutoff := s.now - s.limits.idle;
    s.(table := Pruned(Active(s.table, s.usage, cutoff), s.limits),
       windows := ActiveWindows(s.windows, s.usage, cutoff), usage := ActiveUsage(s.usage, cutoff))
  }

  function Readable(t: seq<Row>, a: nat, id: Id): Option<Row> {
    match Find(t, a, id)
    case None => None
    case Some(x) => if x.readable then Some(x) else None
  }

  /** Reading a row uses it, if it can be read. */
  function Read(t: seq<Row>, a: nat, id: Id, now: int): seq<Row> {
    if Readable(t, a, id).Some? then Touch(t, a, id, now) else t
  }

  /** The recorded window of a timeline, if it may be read now. */
  function Window(s: State, channel: Id, root: Id): seq<Id> {
    if Eligible(s, channel) && Thread(s.account.value, channel, root) in s.windows
    then s.windows[Thread(s.account.value, channel, root)] else []
  }

  /** What a tail window shows. */
  function Shown(s: State, channel: Id, root: Id, limit: nat): seq<Id> {
    var w := Window(s, channel, root);
    if s.account.None? then [] else w[|w| - SuffixLength(s.table, s.account.value, w, channel, root, limit)..]
  }

  /** Reading back from a position of the window, n rows at most: the table afterwards, and where the reading ended. */
  function BackFrom(t: seq<Row>, a: nat, w: seq<Id>, first: nat, channel: Id, root: Id, n: nat, now: int): (seq<Row>, nat)
    requires first <= |w|
    decreases first
  {
    if first == 0 || n == 0 then (t, first)
    else
      var t' := Read(t, a, w[first - 1], now);
      if Usable(t, a, w[first - 1], channel, root) then BackFrom(t', a, w, first - 1, channel, root, n - 1, now)
      else (t', first)
  }

  function Opened(s: State, channel: Id, at: int): State {
    if s.account.None? || channel == "" then s
    else
      var (k, time) := ((s.account.value, channel), if at > 0 then at else s.now);
      s.(usage := s.usage[k := if k in s.usage then Max(s.usage[k], time) else time])
  }

  datatype Action =
    | Opening(channel: Id, at: int)
    | Selecting(account: Option<nat>)
    | Storing(posts: seq<Row>, ok: bool)
    | Removing(id: Id)
    | Reading(id: Id)
    | Recording(channel: Id, root: Id, ids: seq<Id>)
    | Showing(channel: Id, root: Id, limit: nat)
    | Limiting(limits: Limits)
    | Maintaining
    | Tick(ms: nat)

  function Next(s: State, a: Action): State {
    match a
    case Opening(channel, at) => Opened(s, channel, at)
    case Selecting(account) => s.(account := account)
    case Storing(posts, ok) => Stored(s, posts, ok)
    case Removing(id) =>
      if s.account.None? || id == "" then s else s.(table := Delete(s.table, s.account.value, id))
    case Reading(id) =>
      if s.account.None? || id == "" then s else s.(table := Read(s.table, s.account.value, id, s.now))
    case Recording(channel, root, ids) =>
      if !Eligible(s, channel) then s
      else s.(windows := s.windows[Thread(s.account.value, channel, root) := FirstOccurrences(ids)])
    case Showing(channel, root, limit) =>
      if s.account.None? then s
      else
        var w := Window(s, channel, root);
        s.(table := BackFrom(s.table, s.account.value, w, |w|, channel, root, limit, s.now).0)
    case Limiting(limits) => Cleaned(s.(limits := limits))
    case Maintaining => Cleaned(s)
    case Tick(ms) => s.(now := s.now + ms)
  }

  // ---------------------------------------------------------------- facts for the loops

  lemma ReadKeepsUsable(t: seq<Row>, a: nat, id: Id, now: int, channel: Id, root: Id)
    requires Listed(t)
    ensures Listed(Read(t, a, id, now))
    ensures forall other :: Usable(Read(t, a, id, now), a, other, channel, root) == Usable(t, a, other, channel, root)
  {
    TouchListed(t, a, id, now);
    forall other ensures Usable(Read(t, a, id, now), a, other, channel, root) == Usable(t, a, other, channel, root) {
      TouchKeepsUsable(t, a, id, now, other, channel, root);
    }
  }

  lemma {:induction false} SameSuffix(t: seq<Row>, u: seq<Row>, a: nat, ids: seq<Id>, channel: Id, root: Id, limit: nat)
    requires forall id :: Usable(u, a, id, channel, root) == Usable(t, a, id, channel, root)
    ensures SuffixLength(u, a, ids, channel, root, limit) == SuffixLength(t, a, ids, channel, root, limit)
  {
    if limit > 0 && ids != [] && Usable(t, a, ids[|ids| - 1], channel, root) {
      SameSuffix(t, u, a, ids[..|ids| - 1], channel, root, limit - 1);
    }
  }

  /** The reading ends where the usable end of the window begins. */
  lemma {:induction false} BackFromEnds(t: seq<Row>, a: nat, w: seq<Id>, first: nat, channel: Id, root: Id, n: nat, now: int)
    requires first <= |w| && Listed(t)
    ensures BackFrom(t, a, w, first, channel, root, n, now).1 == first - SuffixLength(t, a, w[..first], channel, root, n)
    decreases first
  {
    if first > 0 && n > 0 {
      var (t', front) := (Read(t, a, w[first - 1], now), w[..first]);
      assert front[..first - 1] == w[..first - 1] && front[first - 1] == w[first - 1];
      if Usable(t, a, w[first - 1], channel, root) {
        ReadKeepsUsable(t, a, w[first - 1], now, channel, root);
        BackFromEnds(t', a, w, first - 1, channel, root, n - 1, now);
        SameSuffix(t, t', a, w[..first - 1], channel, root, n - 1);
      }
    }
  }
}
