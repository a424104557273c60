/** The cache worker: one queue of commands for several accounts, and a fence against replies older than a deletion. */
module DiskFence {
  import opened Prelude

  // ---------------------------------------------------------------- identities

  predicate Blank(c: char) {
    c == ' ' || '\t' <= c <= '\r'
  }

  function TrimLeft(s: string): string {
    if s != "" && Blank(s[0]) then TrimLeft(s[1..]) else s
  }

  function TrimRight(s: string): string {
    if s != "" && Blank(s[|s| - 1]) then TrimRight(s[..|s| - 1]) else s
  }

  function Trimmed(s: string): string {
    TrimRight(TrimLeft(s))
  }

  function ChopSlashes(s: string): string {
    if s != "" && s[|s| - 1] == '/' then ChopSlashes(s[..|s| - 1]) else s
  }

  function Normalized(server: string): string {
    ChopSlashes(Trimmed(server))
  }

  datatype Identity = Identity(server: string, user: string)

  function IdentityOf(server: string, user: string): Identity {
    Identity(Normalized(server), Trimmed(user))
  }

  lemma {:induction false} TrimLeftKeepsEnd(s: string, c: char)
    requires !Blank(c)
    ensures TrimLeft(s + [c]) == TrimLeft(s) + [c] && TrimRight(s + [c]) == s + [c]
  {
    if s != "" && Blank(s[0]) {
      assert (s + [c])[1..] == s[1..] + [c];
      TrimLeftKeepsEnd(s[1..], c);
    }
  }

  lemma {:induction false} ChopShortens(s: string)
    ensures |ChopSlashes(s)| <= |s|
  {
    if s != "" && s[|s| - 1] == '/' {
      ChopShortens(s[..|s| - 1]);
    }
  }

  lemma {:induction false} TrimShortens(s: string)
    ensures |TrimRight(s)| < |s| || TrimRight(s) == s
  {
    if s != "" && Blank(s[|s| - 1]) {
      TrimShortens(s[..|s| - 1]);
    }
  }

  /** With a slash appended a server is the same server exactly when no blanks end it. */
  lemma SlashExactly(server: string)
    ensures Normalized(server + "/") == Normalized(server) <==> TrimRight(TrimLeft(server)) == TrimLeft(server)
  {
    var t := TrimLeft(server);
    TrimLeftKeepsEnd(server, '/');
    TrimLeftKeepsEnd(t, '/');
    assert server + "/" == server + ['/'] && (t + ['/'])[..|t|] == t;
    assert Normalized(server + "/") == ChopSlashes(t);
    TrimShortens(t);
    ChopShortens(TrimRight(t));
  }

  /** A blank before the slash: the two name different servers, and so different accounts. */
  lemma BlankBeforeSlash()
    ensures Normalized("a /") == "a " && Normalized("a ") == "a"
    ensures IdentityOf("a /", "u") != IdentityOf("a ", "u")
  {
    assert "a /"[..2] == "a " && "a "[..1] == "a";
  }

  // ---------------------------------------------------------------- the worker

  type Key = (Identity, Id)

  datatype Post = Post(id: Id, body: string)

  datatype Command =
    | Store(server: string, user: string, posts: seq<Post>, observation: nat)
    | Remove(server: string, user: string, id: Id, observation: nat)
    | Load(server: string, user: string, id: Id)

  /** `origin` and `observation` are history: under which identity and with which reply the row was written. */
  datatype Row = Row(body: string, origin: Identity, observation: nat)

  datatype Answer = Answer(identity: Identity, id: Id, row: Option<Row>)

  /** The table of accounts, and the account the store is set to. */
  datatype Accounts = Accounts(table: map<Identity, nat>, next: nat, selected: Option<(Identity, nat)>)

  /**
   * History: `fence` and `cleared` are the newest deletions executed (`cleared`: with the row really deleted),
   * `flights` the observations still on their way, `answers` what reads returned.
   */
  datatype World = World(queue: seq<Command>, marks: map<Key, nat>, accounts: Accounts, rows: map<(nat, Id), Row>,
                         observation: nat, flights: set<nat>, fence: map<Key, nat>, cleared: map<Key, nat>,
                         answers: seq<Answer>)

  function Known(m: map<Key, nat>, k: Key): nat {
    if k in m then m[k] else 0
  }

  function RaiseTo(m: map<Key, nat>, k: Key, s: nat): map<Key, nat> {
    m[k := Max(Known(m, k), s)]
  }

  /** Whether the store can be set to an account: not at all, only to none, or to that of a complete identity. */
  datatype Access = Closed | Nobody | Ready

  function AccessTo(server: string, user: string, open: bool): Access {
    if Trimmed(server) == "" || Trimmed(user) == "" || !open then Closed
    else if Normalized(server) == "" then Nobody
    else Ready
  }

  /** The account of an identity is selected, and created when it is new. */
  function Select(t: Accounts, i: Identity, access: Access): (Accounts, Option<nat>) {
    match access
    case Closed => (t, None)
    case Nobody => (t.(selected := None), None)
    case Ready =>
      if t.selected.Some? && t.selected.value.0 == i then (t, Some(t.selected.value.1))
      else if i in t.table then (t.(selected := Some((i, t.table[i]))), Some(t.table[i]))
      else (Accounts(t.table[i := t.next], t.next + 1, Some((i, t.next))), Some(t.next))
  }

  predicate Fenced(marks: map<Key, nat>, k: Key, s: nat) {
    k in marks && marks[k] >= s
  }

  /** What of a reply may be written: posts with a name that no deletion at or after it fences. */
  function Eligible(posts: seq<Post>, i: Identity, marks: map<Key, nat>, s: nat): map<Id, Post> {
    if posts == [] then map[]
    else
      var (rest, p) := (Eligible(posts[..|posts| - 1], i, marks, s), posts[|posts| - 1]);
      if p.id == "" || Fenced(marks, (i, p.id), s) then rest else rest[p.id := p]
  }

  /** Rows written under an account; the store may admit only some (`admitted`). */
  function Written(rows: map<(nat, Id), Row>, a: nat, i: Identity, posts: map<Id, Post>, admitted: set<Id>, s: nat)
    : map<(nat, Id), Row>
  {
    rows + map k | k in (set id | id in posts && id in admitted :: (a, id)) :: Row(posts[k.1].body, i, s)
  }

  function ExecuteStore(w: World, i: Identity, access: Access, posts: seq<Post>, s: nat, admitted: set<Id>): World {
    var eligible := Eligible(posts, i, w.marks, s);
    if eligible == map[] then w
    else
      var (t, a) := Select(w.accounts, i, access);
      if a.None? then w.(accounts := t)
      else w.(accounts := t, rows := Written(w.rows, a.value, i, eligible, admitted, s))
  }

  function ExecuteRemove(w: World, i: Identity, access: Access, id: Id, s: nat): World {
    if id == "" then w
    else
      var v := w.(marks := RaiseTo(w.marks, (i, id), s), fence := RaiseTo(w.fence, (i, id), s));
      var (t, a) := Select(w.accounts, i, access);
      if a.None? then v.(accounts := t)
      else v.(accounts := t, rows := w.rows - {(a.value, id)}, cleared := RaiseTo(w.cleared, (i, id), s))
  }

  function ReadRow(rows: map<(nat, Id), Row>, a: nat, id: Id): Option<Row> {
    if (a, id) in rows then Some(rows[(a, id)]) else None
  }

  function ExecuteLoad(w: World, i: Identity, access: Access, id: Id): World {
    if id == "" then w.(answers := w.answers + [Answer(i, id, None)])
    else
      var (t, a) := Select(w.accounts, i, access);
      w.(accounts := t, answers := w.answers + [Answer(i, id, if a.None? then None else ReadRow(w.rows, a.value, id))])
  }

  function Execute(w: World, c: Command, open: bool, admitted: set<Id>): World {
    var (i, access) := (IdentityOf(c.server, c.user), AccessTo(c.server, c.user, open));
    match c
    case Store(_, _, posts, s) => ExecuteStore(w, i, access, posts, s, admitted)
    case Remove(_, _, id, s) => ExecuteRemove(w, i, access, id, s)
    case Load(_, _, id) => ExecuteLoad(w, i, access, id)
  }

  datatype Action =
    | Dispatch
    | Issue(command: Command)
    | Invalidate(server: string, user: string, id: Id)
    | Work(open: bool, admitted: set<Id>)
    | Evict(keys: set<(nat, Id)>)
    | Land(observation: nat)
    | Prune(drop: set<Key>)

  /** Stores carry the observation of a request on its way; fences are dropped only when nothing they fence is. */
  ghost predicate Enabled(w: World, a: Action) {
    match a
    case Issue(c) => !c.Remove? && (c.Store? ==> c.observation in w.flights)
    case Work(_, _) => w.queue != []
    case Land(s) => forall i :: 0 <= i < |w.queue| && w.queue[i].Store? ==> w.queue[i].observation != s
    case Prune(drop) => forall k, f :: k in drop && k in w.marks && f in w.flights ==> f > w.marks[k]
    case _ => true
  }

  function Next(w: World, a: Action): World {
    match a
    case Dispatch => w.(observation := w.observation + 1, flights := w.flights + {w.observation + 1})
    case Issue(c) => w.(queue := w.queue + [c])
    case Invalidate(server, user, id) =>
      w.(observation := w.observation + 1, queue := w.queue + [Remove(server, user, id, w.observation + 1)])
    case Work(open, admitted) =>
      if w.queue == [] then w else Execute(w.(queue := w.queue[1..]), w.queue[0], open, admitted)
    case Evict(keys) => w.(rows := w.rows - keys)
    case Land(s) => w.(flights := w.flights - {s})
    case Prune(drop) => w.(marks := w.marks - drop)
  }

  // ---------------------------------------------------------------- the invariant

  /** Whatever is on its way and no newer than an executed deletion is fenced. */
  ghost predicate FencesHold(marks: map<Key, nat>, fence: map<Key, nat>, flights: set<nat>) {
    forall k, f :: k in fence && f in flights && f <= fence[k] ==> Fenced(marks, k, f)
  }

  ghost predicate InTime(queue: seq<Command>, observation: nat, flights: set<nat>, fence: map<Key, nat>) {
    && (forall f :: f in flights ==> 0 < f <= observation)
    && (forall k :: k in fence ==> fence[k] <= observation)
    && (forall i :: 0 <= i < |queue| && queue[i].Store? ==> queue[i].observation in flights)
    && (forall i :: 0 <= i < |queue| && queue[i].Remove? ==> queue[i].observation <= observation)
  }

  ghost predicate AccountsOk(t: Accounts) {
    && (forall i :: i in t.table ==> t.table[i] < t.next)
    && (forall i, j :: i in t.table && j in t.table && t.table[i] == t.table[j] ==> i == j)
    && (t.selected.Some? ==> t.selected.value.0 in t.table && t.table[t.selected.value.0] == t.selected.value.1)
  }

  /** Every row was written under the identity its account belongs to, after the last deletion there. */
  ghost predicate RowsOk(rows: map<(nat, Id), Row>, table: map<Identity, nat>, cleared: map<Key, nat>) {
    forall k :: k in rows ==>
      && rows[k].origin in table && table[rows[k].origin] == k.0
      && rows[k].observation > Known(cleared, (rows[k].origin, k.1))
  }

  ghost predicate AnswersOk(answers: seq<Answer>) {
    forall i :: 0 <= i < |answers| && answers[i].row.Some? ==> answers[i].row.value.origin == answers[i].identity
  }

  ghost predicate ClearedOk(cleared: map<Key, nat>, fence: map<Key, nat>) {
    forall k :: k in cleared ==> k in fence && cleared[k] <= fence[k]
  }

  ghost predicate Safe(w: World) {
    && FencesHold(w.marks, w.fence, w.flights) && InTime(w.queue, w.observation, w.flights, w.fence)
    && AccountsOk(w.accounts) && RowsOk(w.rows, w.accounts.table, w.cleared) && AnswersOk(w.answers)
    && ClearedOk(w.cleared, w.fence)
  }

  predicate Initial(w: World) {
    w == World([], map[], Accounts(map[], 0, None), map[], 0, {}, map[], map[], [])
  }

  /** A later table of accounts: nobody lost theirs, and `account` is that of this identity, if any. */
  ghost predicate Selected(t: Accounts, t': Accounts, i: Identity, account: Option<nat>) {
    && AccountsOk(t')
    && (forall j :: j in t.table ==> j in t'.table && t'.table[j] == t.table[j])
    && (account.Some? ==> i in t'.table && t'.table[i] == account.value)
  }

  lemma SelectOk(t: Accounts, i: Identity, access: Access)
    requires AccountsOk(t)
    ensures Selected(t, Select(t, i, access).0, i, Select(t, i, access).1)
  {
  }

  lemma RowsGrow(rows: map<(nat, Id), Row>, cleared: map<Key, nat>, t: Accounts, t': Accounts, i: Identity, account: Option<nat>)
    requires RowsOk(rows, t.table, cleared) && Selected(t, t', i, account)
    ensures RowsOk(rows, t'.table, cleared)
  {
  }

  lemma {:induction false} EligibleIsNew(posts: seq<Post>, i: Identity, marks: map<Key, nat>, s: nat, id: Id)
    requires id in Eligible(posts, i, marks, s)
    ensures id != "" && !Fenced(marks, (i, id), s)
  {
    var (front, p) := (posts[..|posts| - 1], posts[|posts| - 1]);
    if id in Eligible(front, i, marks, s) {
      EligibleIsNew(front, i, marks, s, id);
    }
  }

  /** A post that may be written is newer than every deletion of it executed so far. */
  lemma WrittenIsNew(w: World, posts: seq<Post>, i: Identity, s: nat, id: Id)
    requires FencesHold(w.marks, w.fence, w.flights) && ClearedOk(w.cleared, w.fence) && s in w.flights && s > 0
    requires id in Eligible(posts, i, w.marks, s)
    ensures s > Known(w.fence, (i, id)) && s > Known(w.cleared, (i, id))
  {
    EligibleIsNew(posts, i, w.marks, s, id);
  }

  lemma WrittenOk(rows: map<(nat, Id), Row>, table: map<Identity, nat>, cleared: map<Key, nat>, a: nat, i: Identity,
                  posts: map<Id, Post>, admitted: set<Id>, s: nat)
    requires RowsOk(rows, table, cleared) && i in table && table[i] == a
    requires forall id :: id in posts ==> s > Known(cleared, (i, id))
    ensures RowsOk(Written(rows, a, i, posts, admitted, s), table, cleared)
  {
  }

  lemma StoreOk(w: World, i: Identity, access: Access, posts: seq<Post>, s: nat, admitted: set<Id>, v: World)
    requires Safe(w) && s in w.flights && v == ExecuteStore(w, i, access, posts, s, admitted)
    ensures Safe(v)
  {
    var eligible := Eligible(posts, i, w.marks, s);
    if eligible != map[] {
      SelectOk(w.accounts, i, access);
      forall id | id in eligible ensures s > Known(w.cleared, (i, id)) {
        WrittenIsNew(w, posts, i, s, id);
      }
      var (t, account) := Select(w.accounts, i, access);
      StoredOk(w, i, t, account, eligible, s, admitted, v.rows);
    }
  }

  lemma StoredOk(w: World, i: Identity, t: Accounts, account: Option<nat>, posts: map<Id, Post>, s: nat,
                 admitted: set<Id>, rows: map<(nat, Id), Row>)
    requires Safe(w) && Selected(w.accounts, t, i, account)
    requires forall id :: id in posts ==> s > Known(w.cleared, (i, id))
    requires rows == if account.None? then w.rows else Written(w.rows, account.value, i, posts, admitted, s)
    ensures Safe(w.(accounts := t, rows := rows))
  {
    RowsGrow(w.rows, w.cleared, w.accounts, t, i, account);
    if account.Some? {
      WrittenOk(w.rows, t.table, w.cleared, account.value, i, posts, admitted, s);
    }
  }

  lemma FenceRaised(w: World, k: Key, s: nat)
    requires FencesHold(w.marks, w.fence, w.flights) && InTime(w.queue, w.observation, w.flights, w.fence)
    requires s <= w.observation && ClearedOk(w.cleared, w.fence)
    ensures FencesHold(RaiseTo(w.marks, k, s), RaiseTo(w.fence, k, s), w.flights)
    ensures InTime(w.queue, w.observation, w.flights, RaiseTo(w.fence, k, s))
    ensures ClearedOk(w.cleared, RaiseTo(w.fence, k, s)) && ClearedOk(RaiseTo(w.cleared, k, s), RaiseTo(w.fence, k, s))
  {
  }

  lemma RowCleared(rows: map<(nat, Id), Row>, t: Accounts, cleared: map<Key, nat>, i: Identity, id: Id, s: nat)
    requires RowsOk(rows, t.table, cleared) && i in t.table
    ensures RowsOk(rows - {(t.table[i], id)}, t.table, RaiseTo(cleared, (i, id), s))
  {
  }

  lemma RemoveOk(w: World, i: Identity, access: Access, id: Id, s: nat, v: World)
    requires Safe(w) && s <= w.observation && v == ExecuteRemove(w, i, access, id, s)
    ensures Safe(v)
  {
    if id != "" {
      SelectOk(w.accounts, i, access);
      var (t, account) := Select(w.accounts, i, access);
      RemovedOk(w, i, t, account, id, s);
    }
  }

  lemma RemovedOk(w: World, i: Identity, t: Accounts, account: Option<nat>, id: Id, s: nat)
    requires Safe(w) && s <= w.observation && Selected(w.accounts, t, i, account)
    ensures var u := w.(marks := RaiseTo(w.marks, (i, id), s), fence := RaiseTo(w.fence, (i, id), s), accounts := t);
      && Safe(u)
      && (account.Some? ==>
            Safe(u.(rows := w.rows - {(account.value, id)}, cleared := RaiseTo(w.cleared, (i, id), s))))
  {
    FenceRaised(w, (i, id), s);
    RowsGrow(w.rows, w.cleared, w.accounts, t, i, account);
    if account.Some? {
      RowCleared(w.rows, t, w.cleared, i, id, s);
    }
  }

  lemma LoadOk(w: World, i: Identity, access: Access, id: Id, v: World)
    requires Safe(w) && v == ExecuteLoad(w, i, access, id)
    ensures Safe(v)
  {
    SelectOk(w.accounts, i, access);
    var (t, account) := Select(w.accounts, i, access);
    LoadedOk(w, i, t, account, id);
  }

  lemma LoadedOk(w: World, i: Identity, t: Accounts, account: Option<nat>, id: Id)
    requires Safe(w) && Selected(w.accounts, t, i, account)
    ensures Safe(w.(answers := w.answers + [Answer(i, id, None)]))
    ensures Safe(w.(accounts := t, answers := w.answers + [Answer(i, id,
      if account.None? then None else ReadRow(w.rows, account.value, id))]))
  {
    RowsGrow(w.rows, w.cleared, w.accounts, t, i, account);
    var row := if account.None? then None else ReadRow(w.rows, account.value, id);
    if row.Some? {
      SameOwner(t, row.value.origin, i);
    }
    AnswerAdded(w.answers, Answer(i, id, row));
    AnswerAdded(w.answers, Answer(i, id, None));
  }

  lemma AnswerAdded(answers: seq<Answer>, x: Answer)
    requires AnswersOk(answers) && (x.row.Some? ==> x.row.value.origin == x.identity)
    ensures AnswersOk(answers + [x])
  {
  }

  /** Accounts are told apart: one number belongs to one identity. */
  lemma SameOwner(t: Accounts, i: Identity, j: Identity)
    requires AccountsOk(t) && i in t.table && j in t.table && t.table[i] == t.table[j]
    ensures i == j
  {
  }

  lemma WorkOk(w: World, open: bool, admitted: set<Id>, v: World)
    requires Safe(w) && w.queue != [] && v == Next(w, Work(open, admitted))
    ensures Safe(v)
  {
    var (u, c) := (w.(queue := w.queue[1..]), w.queue[0]);
    assert Safe(u) by {
      assert forall i :: 0 <= i < |u.queue| ==> u.queue[i] == w.queue[i + 1];
    }
    var (i, access) := (IdentityOf(c.server, c.user), AccessTo(c.server, c.user, open));
    match c
    case Store(_, _, posts, s) => StoreOk(u, i, access, posts, s, admitted, v);
    case Remove(_, _, id, s) => RemoveOk(u, i, access, id, s, v);
    case Load(_, _, id) => LoadOk(u, i, access, id, v);
  }

  lemma NextSafe(w: World, a: Action, v: World)
    requires Safe(w) && Enabled(w, a) && v == Next(w, a)
    ensures Safe(v)
  {
    match a
    case Work(open, admitted) => WorkOk(w, open, admitted, v);
    case _ =>
  }

  ghost predicate Step(w: World, a: Action, v: World) {
    Enabled(w, a) && v == Next(w, a)
  }

  ghost predicate IsRun(ws: seq<World>, acts: seq<Action>) {
    && |ws| == |acts| + 1 && Initial(ws[0])
    && forall i :: 0 <= i < |acts| ==> Step(ws[i], acts[i], ws[i + 1])
  }

  lemma {:induction false} RunSafe(ws: seq<World>, acts: seq<Action>, i: nat)
    requires IsRun(ws, acts) && i < |ws|
    ensures Safe(ws[i])
  {
    if i > 0 {
      RunSafe(ws, acts, i - 1);
      StepSafe(ws[i - 1], acts[i - 1], ws[i]);
    }
  }

  lemma StepSafe(w: World, a: Action, v: World)
    requires Safe(w) && Step(w, a, v)
    ensures Safe(v)
  {
    NextSafe(w, a, v);
  }

  // ---------------------------------------------------------------- what it achieves

  lemma StoreWrites(w: World, i: Identity, access: Access, posts: seq<Post>, s: nat, admitted: set<Id>, k: (nat, Id))
    ensures var v := ExecuteStore(w, i, access, posts, s, admitted);
      k in v.rows && (k !in w.rows || v.rows[k] != w.rows[k]) ==>
        && v.rows[k].origin == i && v.rows[k].observation == s && k.1 in Eligible(posts, i, w.marks, s)
  {
  }

  /** A store writes a post only if it is newer than every deletion of that post executed under that identity. */
  lemma StaleStoreWritesNothing(w: World, open: bool, admitted: set<Id>, k: (nat, Id), v: World)
    requires Safe(w) && w.queue != [] && v == Next(w, Work(open, admitted))
    requires k in v.rows && (k !in w.rows || v.rows[k] != w.rows[k])
    ensures w.queue[0].Store? && v.rows[k].origin == IdentityOf(w.queue[0].server, w.queue[0].user)
    ensures v.rows[k].observation == w.queue[0].observation > Known(w.fence, (v.rows[k].origin, k.1))
  {
    var (u, c) := (w.(queue := w.queue[1..]), w.queue[0]);
    if c.Store? {
      var (i, access) := (IdentityOf(c.server, c.user), AccessTo(c.server, c.user, open));
      StoreWrites(u, i, access, c.posts, c.observation, admitted, k);
      WrittenIsNew(u, c.posts, i, c.observation, k.1);
    }
  }

  /** However commands of several accounts interleave, a read returns only rows stored under its own identity. */
  lemma ReadsStayInTheirAccount(ws: seq<World>, acts: seq<Action>, i: nat)
    requires IsRun(ws, acts) && i < |ws[|acts|].answers| && ws[|acts|].answers[i].row.Some?
    ensures ws[|acts|].answers[i].row.value.origin == ws[|acts|].answers[i].identity
  {
    RunSafe(ws, acts, |acts|);
  }

  /** A row that is there is newer than the last deletion that was carried out there. */
  lemma RowsSurviveNoDeletion(ws: seq<World>, acts: seq<Action>, k: (nat, Id))
    requires IsRun(ws, acts) && k in ws[|acts|].rows
    ensures var w := ws[|acts|]; w.rows[k].observation > Known(w.cleared, (w.rows[k].origin, k.1))
  {
    RunSafe(ws, acts, |acts|);
  }

  // ---------------------------------------------------------------- the queue keeps the order of the commands

  function Added(w: World, a: Action): seq<Command> {
    match a
    case Issue(c) => [c]
    case Invalidate(server, user, id) => [Remove(server, user, id, w.observation + 1)]
    case _ => []
  }

  function AllAdded(ws: seq<World>, acts: seq<Action>, i: nat, m: nat): seq<Command>
    requires |ws| == |acts| + 1 && i <= m <= |acts|
  {
    if i == m then [] else AllAdded(ws, acts, i, m - 1) + Added(ws[m - 1], acts[m - 1])
  }

  function Worked(acts: seq<Action>, i: nat, m: nat): nat
    requires i <= m <= |acts|
  {
    if i == m then 0 else Worked(acts, i, m - 1) + (if acts[m - 1].Work? then 1 else 0)
  }

  lemma ExecuteQueue(w: World, c: Command, open: bool, admitted: set<Id>)
    ensures Execute(w, c, open, admitted).queue == w.queue
  {
  }

  lemma StepQueue(w: World, a: Action, v: World)
    requires Step(w, a, v)
    ensures a.Work? ==> w.queue != [] && v.queue == w.queue[1..]
    ensures !a.Work? ==> v.queue == w.queue + Added(w, a)
  {
    if a.Work? {
      ExecuteQueue(w.(queue := w.queue[1..]), w.queue[0], a.open, a.admitted);
    }
  }

  lemma StepAt(ws: seq<World>, acts: seq<Action>, i: nat)
    requires IsRun(ws, acts) && i < |acts|
    ensures Step(ws[i], acts[i], ws[i + 1])
  {
  }

  /** What was queued, in order, without the first n commands. */
  predicate Remains(queue: seq<Command>, all: seq<Command>, n: nat) {
    n <= |all| && queue == all[n..]
  }

  lemma RemainsStep(w: World, a: Action, v: World, all: seq<Command>, n: nat)
    requires Step(w, a, v) && Remains(w.queue, all, n)
    ensures Remains(v.queue, all + Added(w, a), n + (if a.Work? then 1 else 0))
  {
    StepQueue(w, a, v);
  }

  /** First in, first out: the queue is what was in it and what came since, without what has been carried out. */
  lemma {:induction false} QueueIsFifo(ws: seq<World>, acts: seq<Action>, i: nat, m: nat)
    requires IsRun(ws, acts) && i <= m <= |acts|
    ensures Remains(ws[m].queue, ws[i].queue + AllAdded(ws, acts, i, m), Worked(acts, i, m))
    decreases m
  {
    if i < m {
      QueueIsFifo(ws, acts, i, m - 1);
      StepAt(ws, acts, m - 1);
      var before := ws[i].queue + AllAdded(ws, acts, i, m - 1);
      RemainsStep(ws[m - 1], acts[m - 1], ws[m], before, Worked(acts, i, m - 1));
      assert before + Added(ws[m - 1], acts[m - 1]) == ws[i].queue + AllAdded(ws, acts, i, m);
    }
  }

  /** Every count up to the last one was reached, by a step that carried a command out. */
  lemma {:induction false} WorkedReaches(acts: seq<Action>, i: nat, m: nat, n: nat) returns (j: nat)
    requires i <= m <= |acts| && n < Worked(acts, i, m)
    ensures i <= j < m && acts[j].Work? && Worked(acts, i, j) == n
    decreases m
  {
    if acts[m - 1].Work? && Worked(acts, i, m - 1) == n {
      j := m - 1;
    } else {
      j := WorkedReaches(acts, i, m - 1, n);
    }
  }

  /** A command in the queue at step i is the one carried out when as many as stand before it have been. */
  lemma CarriedOut(ws: seq<World>, acts: seq<Action>, i: nat, n: nat, j: nat)
    requires IsRun(ws, acts) && i <= j < |acts| && n < |ws[i].queue| && Worked(acts, i, j) == n && acts[j].Work?
    ensures ws[j].queue != [] && ws[j].queue[0] == ws[i].queue[n]
  {
    QueueIsFifo(ws, acts, i, j);
  }

  // ---------------------------------------------------------------- a read after a deletion

  lemma ClearedGrows(w: World, a: Action, v: World, k: Key)
    requires Step(w, a, v)
    ensures Known(w.cleared, k) <= Known(v.cleared, k)
  {
  }

  lemma {:induction false} ClearedGrowsOver(ws: seq<World>, acts: seq<Action>, i: nat, m: nat, k: Key)
    requires IsRun(ws, acts) && i <= m < |ws|
    ensures Known(ws[i].cleared, k) <= Known(ws[m].cleared, k)
    decreases m
  {
    if i < m {
      ClearedGrowsOver(ws, acts, i, m - 1, k);
      StepAt(ws, acts, m - 1);
      ClearedGrows(ws[m - 1], acts[m - 1], ws[m], k);
    }
  }

  /** The deletion is carried out with its account open, so that the row goes with it. */
  predicate Deletes(w: World, a: Action, i: Identity, id: Id, s: nat) {
    && a.Work? && w.queue != [] && w.queue[0].Remove? && id != "" && w.queue[0].id == id
    && w.queue[0].observation == s
    && IdentityOf(w.queue[0].server, w.queue[0].user) == i
    && AccessTo(w.queue[0].server, w.queue[0].user, a.open) == Ready
  }

  predicate Reads(w: World, a: Action, i: Identity, id: Id) {
    && a.Work? && w.queue != [] && w.queue[0].Load? && w.queue[0].id == id
    && IdentityOf(w.queue[0].server, w.queue[0].user) == i
  }

  lemma DeletionClears(w: World, a: Action, v: World, i: Identity, id: Id, s: nat)
    requires Step(w, a, v) && Deletes(w, a, i, id, s)
    ensures Known(v.cleared, (i, id)) >= s
  {
  }

  /** The last answer holds no row, or one from a reply newer than this observation. */
  predicate AnswersNewer(answers: seq<Answer>, s: nat) {
    answers != [] && (answers[|answers| - 1].row.Some? ==> answers[|answers| - 1].row.value.observation > s)
  }

  lemma ReadIsNew(w: World, a: Action, v: World, i: Identity, id: Id)
    requires Safe(w) && Step(w, a, v) && Reads(w, a, i, id)
    ensures AnswersNewer(v.answers, Known(w.cleared, (i, id)))
  {
    var c := w.queue[0];
    var access := AccessTo(c.server, c.user, a.open);
    LoadAnswers(w.(queue := w.queue[1..]), i, access, id);
    LoadIsNew(w.rows, w.cleared, w.accounts, i, access, id);
  }

  function Answered(rows: map<(nat, Id), Row>, account: Option<nat>, id: Id): Option<Row> {
    if id == "" || account.None? then None else ReadRow(rows, account.value, id)
  }

  lemma LoadAnswers(w: World, i: Identity, access: Access, id: Id)
    ensures ExecuteLoad(w, i, access, id).answers
      == w.answers + [Answer(i, id, Answered(w.rows, Select(w.accounts, i, access).1, id))]
  {
  }

  lemma LoadIsNew(rows: map<(nat, Id), Row>, cleared: map<Key, nat>, t: Accounts, i: Identity, access: Access, id: Id)
    requires AccountsOk(t) && RowsOk(rows, t.table, cleared)
    ensures var row := Answered(rows, Select(t, i, access).1, id);
      row.Some? ==> row.value.observation > Known(cleared, (i, id))
  {
    SelectOk(t, i, access);
    var (t', account) := Select(t, i, access);
    if account.Some? {
      RowIsNew(rows, cleared, t, t', i, account, id);
    }
  }

  lemma RowIsNew(rows: map<(nat, Id), Row>, cleared: map<Key, nat>, t: Accounts, t': Accounts, i: Identity,
                 account: Option<nat>, id: Id)
    requires RowsOk(rows, t.table, cleared) && Selected(t, t', i, account) && account.Some?
    ensures (account.value, id) in rows ==> rows[(account.value, id)].observation > Known(cleared, (i, id))
  {
    if (account.value, id) in rows {
      SameOwner(t', rows[(account.value, id)].origin, i);
    }
  }

  /** A read carried out after a deletion answers with no row that the deletion was newer than. */
  lemma ReadAfterDeletion(ws: seq<World>, acts: seq<Action>, j: nat, m: nat, i: Identity, id: Id, s: nat)
    requires IsRun(ws, acts) && j < m < |acts|
    requires Deletes(ws[j], acts[j], i, id, s) && Reads(ws[m], acts[m], i, id)
    ensures AnswersNewer(ws[m + 1].answers, s)
  {
    StepAt(ws, acts, j);
    StepAt(ws, acts, m);
    DeletionClears(ws[j], acts[j], ws[j + 1], i, id, s);
    ClearedGrowsOver(ws, acts, j + 1, m, (i, id));
    RunSafe(ws, acts, m);
    ReadIsNew(ws[m], acts[m], ws[m + 1], i, id);
  }

  lemma {:induction false} WorkedSplit(acts: seq<Action>, i: nat, j: nat, m: nat)
    requires i <= j <= m <= |acts|
    ensures Worked(acts, i, m) == Worked(acts, i, j) + Worked(acts, j, m)
    decreases m
  {
    if j < m {
      WorkedSplit(acts, i, j, m - 1);
    }
  }

  /** The read at the end of the queue comes up after the deletion reported before it. */
  lemma DeletionComesFirst(ws: seq<World>, acts: seq<Action>, d: nat, q: nat, m: nat) returns (j: nat)
    requires IsRun(ws, acts) && d < q < m < |acts| && acts[d].Invalidate? && acts[q].Issue?
    requires Worked(acts, q + 1, m) == |ws[q].queue|
    ensures d < j < m && acts[j].Work? && ws[j].queue != []
    ensures ws[j].queue[0] == Remove(acts[d].server, acts[d].user, acts[d].id, ws[d].observation + 1)
  {
    StepAt(ws, acts, d);
    StepQueue(ws[d], acts[d], ws[d + 1]);
    DeletionBefore(ws, acts, d, q, m);
    j := WorkedReaches(acts, d + 1, m, |ws[d].queue|);
    CarriedOut(ws, acts, d + 1, |ws[d].queue|, j);
  }

  lemma DeletionBefore(ws: seq<World>, acts: seq<Action>, d: nat, q: nat, m: nat)
    requires IsRun(ws, acts) && d < q < m < |acts| && acts[q].Issue? && Worked(acts, q + 1, m) == |ws[q].queue|
    requires |ws[d + 1].queue| > |ws[d].queue|
    ensures |ws[d].queue| < Worked(acts, d + 1, m)
  {
    QueueIsFifo(ws, acts, d + 1, q);
    WorkedSplit(acts, d + 1, q, q + 1);
    WorkedSplit(acts, d + 1, q + 1, m);
  }

  /** The command at the end of the queue is the one that was asked for last. */
  lemma AskedIsCarriedOut(ws: seq<World>, acts: seq<Action>, q: nat, m: nat)
    requires IsRun(ws, acts) && q < m < |acts| && acts[q].Issue? && acts[m].Work?
    requires Worked(acts, q + 1, m) == |ws[q].queue|
    ensures ws[m].queue != [] && ws[m].queue[0] == acts[q].command
  {
    StepAt(ws, acts, q);
    StepQueue(ws[q], acts[q], ws[q + 1]);
    CarriedOut(ws, acts, q + 1, |ws[q].queue|, m);
  }

  /**
   * A cached read asked for after a deletion was reported cannot bring the post back: the deletion is carried out
   * before the read, and if its account is open then, whatever row the read finds is newer than the deletion.
   */
  lemma ReadAskedAfterDeletion(ws: seq<World>, acts: seq<Action>, d: nat, q: nat, m: nat,
                               server: string, user: string, id: Id) returns (j: nat)
    requires IsRun(ws, acts) && d < q < m < |acts| && id != ""
    requires acts[d] == Invalidate(server, user, id) && acts[q].Issue? && acts[m].Work?
    requires acts[q].command.Load? && acts[q].command.id == id
    requires IdentityOf(acts[q].command.server, acts[q].command.user) == IdentityOf(server, user)
    requires Worked(acts, q + 1, m) == |ws[q].queue|
    ensures d < j < m && acts[j].Work? && ws[j].queue != []
    ensures ws[j].queue[0] == Remove(server, user, id, ws[d].observation + 1)
    ensures AccessTo(server, user, acts[j].open) == Ready ==>
      AnswersNewer(ws[m + 1].answers, ws[d].observation + 1)
  {
    AskedIsCarriedOut(ws, acts, q, m);
    j := DeletionComesFirst(ws, acts, d, q, m);
    if AccessTo(server, user, acts[j].open) == Ready {
      ReadAfterDeletion(ws, acts, j, m, IdentityOf(server, user), id, ws[d].observation + 1);
    }
  }

  // ---------------------------------------------------------------- a deletion while the account is closed

  /** A deletion removes the cached row exactly when its account can be opened at that moment. */
  lemma DeletionRemovesExactly(w: World, a: Action, v: World, i: Identity, id: Id)
    requires Safe(w) && Step(w, a, v) && a.Work? && w.queue[0].Remove? && w.queue[0].id == id != ""
    requires i == IdentityOf(w.queue[0].server, w.queue[0].user) && i in w.accounts.table
    requires (w.accounts.table[i], id) in w.rows
    ensures (w.accounts.table[i], id) !in v.rows <==> AccessTo(w.queue[0].server, w.queue[0].user, a.open) == Ready
  {
    var u := w.(queue := w.queue[1..]);
    RemovalRows(u, i, AccessTo(w.queue[0].server, w.queue[0].user, a.open), id, w.queue[0].observation);
  }

  lemma RemovalRows(w: World, i: Identity, access: Access, id: Id, s: nat)
    requires AccountsOk(w.accounts) && id != "" && i in w.accounts.table
    ensures ExecuteRemove(w, i, access, id, s).rows
      == if access == Ready then w.rows - {(w.accounts.table[i], id)} else w.rows
  {
  }

  lemma Extend(ws: seq<World>, acts: seq<Action>, a: Action, v: World) returns (ws': seq<World>, acts': seq<Action>)
    requires IsRun(ws, acts) && Step(ws[|acts|], a, v)
    ensures IsRun(ws', acts') && ws' == ws + [v] && acts' == acts + [a]
  {
    ws', acts' := ws + [v], acts + [a];
  }

  /** A world in which one row was stored; then it was deleted while the account was closed, and then read. */
  function OneRow(server: string, user: string, id: Id, queue: seq<Command>, observation: nat, closed: bool,
                  answers: seq<Answer>): World
  {
    var i := IdentityOf(server, user);
    var marks := if closed then map[(i, id) := 2 as nat] else map[];
    World(queue, marks, Accounts(map[i := 0], 1, Some((i, 0))), map[(0, id) := Row("", i, 1)], observation, {1},
          marks, map[], answers)
  }

  lemma StoredOpen(server: string, user: string, id: Id)
    requires AccessTo(server, user, true) == Ready && id != ""
    ensures var w := World([Store(server, user, [Post(id, "")], 1)], map[], Accounts(map[], 0, None), map[], 1, {1},
                           map[], map[], []);
      Step(w, Work(true, {id}), OneRow(server, user, id, [], 1, false, []))
  {
    var i := IdentityOf(server, user);
    assert [Post(id, "")][..0] == [];
    assert Eligible([Post(id, "")], i, map[], 1) == map[id := Post(id, "")];
    assert Written(map[], 0, i, map[id := Post(id, "")], {id}, 1) == map[(0, id) := Row("", i, 1)];
  }

  lemma DeletedClosed(server: string, user: string, id: Id)
    requires id != ""
    ensures Step(OneRow(server, user, id, [Remove(server, user, id, 2)], 2, false, []), Work(false, {}),
                 OneRow(server, user, id, [], 2, true, []))
  {
  }

  lemma LoadedOpen(server: string, user: string, id: Id)
    requires AccessTo(server, user, true) == Ready && id != ""
    ensures var i := IdentityOf(server, user);
      Step(OneRow(server, user, id, [Load(server, user, id)], 2, true, []), Work(true, {}),
           OneRow(server, user, id, [], 2, true, [Answer(i, id, Some(Row("", i, 1)))]))
  {
  }

  /**
   * It matters: a row stored at observation 1 and deleted at observation 2 while the account was closed is still
   * answered by a read that is asked for afterwards.
   */
  lemma ClosedDeletionIsRead(server: string, user: string, id: Id) returns (ws: seq<World>, acts: seq<Action>)
    requires AccessTo(server, user, true) == Ready && id != ""
    ensures IsRun(ws, acts) && |acts| == 7
    ensures acts[3] == Invalidate(server, user, id) && ws[3].observation + 1 == 2
    ensures acts[5] == Issue(Load(server, user, id)) && acts[6].Work? && Worked(acts, 6, 6) == |ws[5].queue|
    ensures !AnswersNewer(ws[7].answers, 2)
  {
    StoredOpen(server, user, id);
    DeletedClosed(server, user, id);
    LoadedOpen(server, user, id);
    var w0 := World([], map[], Accounts(map[], 0, None), map[], 0, {}, map[], map[], []);
    var w1 := w0.(observation := 1, flights := {1});
    var c := Store(server, user, [Post(id, "")], 1);
    ws, acts := [w0], [];
    ws, acts := Extend(ws, acts, Dispatch, w1);
    ws, acts := Extend(ws, acts, Issue(c), w1.(queue := [c]));
    ws, acts := Extend(ws, acts, Work(true, {id}), OneRow(server, user, id, [], 1, false, []));
    ws, acts := Extend(ws, acts, Invalidate(server, user, id),
                       OneRow(server, user, id, [Remove(server, user, id, 2)], 2, false, []));
    ws, acts := Extend(ws, acts, Work(false, {}), OneRow(server, user, id, [], 2, true, []));
    ws, acts := Extend(ws, acts, Issue(Load(server, user, id)),
                       OneRow(server, user, id, [Load(server, user, id)], 2, true, []));
    var i := IdentityOf(server, user);
    ws, acts := Extend(ws, acts, Work(true, {}), OneRow(server, user, id, [], 2, true, [Answer(i, id, Some(Row("", i, 1)))]));
  }

  // ---------------------------------------------------------------- as the worker does it

  class PostCacheWorker {
    var queue: seq<Command>
    var marks: map<Key, nat>
    var accounts: Accounts
    var rows: map<(nat, Id), Row>
    ghost var observation: nat
    ghost var flights: set<nat>
    ghost var fence: map<Key, nat>
    ghost var cleared: map<Key, nat>
    var answers: seq<Answer>

    ghost function View(): World
      reads this
    {
      World(queue, marks, accounts, rows, observation, flights, fence, cleared, answers)
    }

    method SelectAccount(server: string, user: string, open: bool) returns (account: Option<nat>)
      modifies this`accounts
      ensures (accounts, account) == Select(old(accounts), IdentityOf(server, user), AccessTo(server, user, open))
    {
      var s, u := Trimmed(server), Trimmed(user);
      if s == "" || u == "" || !open {
        return None;
      }
      var i := Identity(ChopSlashes(s), u);
      if i.server == "" {
        accounts := accounts.(selected := None);
        return None;
      }
      if accounts.selected.Some? && accounts.selected.value.0 == i {
        return Some(accounts.selected.value.1);
      }
      if i !in accounts.table {
        accounts := accounts.(table := accounts.table[i := accounts.next], next := accounts.next + 1);
      }
      accounts := accounts.(selected := Some((i, accounts.table[i])));
      return Some(accounts.table[i]);
    }

    /** The loop that keeps what no deletion fences. */
    method FilterPosts(posts: seq<Post>, i: Identity, s: nat) returns (eligible: map<Id, Post>)
      ensures eligible == Eligible(posts, i, marks, s)
    {
      eligible := map[];
      var n := 0;
      while n < |posts|
        invariant n <= |posts| && eligible == Eligible(posts[..n], i, marks, s)
      {
        assert posts[..n + 1][..n] == posts[..n];
        var p := posts[n];
        if p.id != "" && !((i, p.id) in marks && marks[(i, p.id)] >= s) {
          eligible := eligible[p.id := p];
        }
        n := n + 1;
      }
      assert posts[..n] == posts;
    }

    method StorePosts(c: Command, open: bool, admitted: set<Id>)
      requires c.Store?
      modifies this`accounts, this`rows
      ensures View() == Execute(old(View()), c, open, admitted)
    {
      var i := IdentityOf(c.server, c.user);
      var eligible := FilterPosts(c.posts, i, c.observation);
      if eligible == map[] {
        return;
      }
      var account := SelectAccount(c.server, c.user, open);
      if account.Some? {
        rows := Written(rows, account.value, i, eligible, admitted, c.observation);
      }
    }

    method RemovePost(c: Command, open: bool)
      requires c.Remove?
      modifies this`marks, this`accounts, this`rows, this`fence, this`cleared
      ensures View() == Execute(old(View()), c, open, {})
    {
      if c.id == "" {
        return;
      }
      var k := (IdentityOf(c.server, c.user), c.id);
      marks := marks[k := Max(if k in marks then marks[k] else 0, c.observation)];
      fence := RaiseTo(fence, k, c.observation);
      var account := SelectAccount(c.server, c.user, open);
      if account.Some? {
        rows := rows - {(account.value, c.id)};
        cleared := RaiseTo(cleared, k, c.observation);
      }
    }

    method LoadPost(c: Command, open: bool)
      requires c.Load?
      modifies this`accounts, this`answers
      ensures View() == Execute(old(View()), c, open, {})
    {
      var row := None;
      if c.id != "" {
        var account := SelectAccount(c.server, c.user, open);
        if account.Some? && (account.value, c.id) in rows {
          row := Some(rows[(account.value, c.id)]);
        }
      }
      answers := answers + [Answer(IdentityOf(c.server, c.user), c.id, row)];
    }

    /** Commands run one at a time, in the order in which they were queued. */
    method WorkOne(open: bool, admitted: set<Id>)
      requires queue != []
      modifies this
      ensures View() == Next(old(View()), Work(open, admitted))
    {
      var c := queue[0];
      queue := queue[1..];
      match c
      case Store(_, _, _, _) => StorePosts(c, open, admitted);
      case Remove(_, _, _, _) => RemovePost(c, open);
      case Load(_, _, _) => LoadPost(c, open);
    }
  }
}
