/** What the commands of the cache worker leave behind and answer, and where answered rows come from. */
module DiskContent {
  import opened Prelude
  import opened DiskFence

  // ---------------------------------------------------------------- one command

  /** The next command is this one, and its account can be opened now. */
  predicate Executes(w: World, c: Command, open: bool) {
    w.queue != [] && w.queue[0] == c && AccessTo(c.server, c.user, open) == Ready
  }

  /** The n-th post of a reply is the last of its name. */
  ghost predicate LastOf(posts: seq<Post>, n: nat) {
    n < |posts| && posts[n].id != "" && forall m :: n < m < |posts| ==> posts[m].id != posts[n].id
  }

  /** No deletion is known that this observation does not outdate. */
  predicate Newer(marks: map<Key, nat>, k: Key, s: nat) {
    k in marks ==> marks[k] < s
  }

  lemma {:induction false} EligibleLast(posts: seq<Post>, i: Identity, marks: map<Key, nat>, s: nat, n: nat)
    requires LastOf(posts, n) && Newer(marks, (i, posts[n].id), s)
    ensures posts[n].id in Eligible(posts, i, marks, s) && Eligible(posts, i, marks, s)[posts[n].id] == posts[n]
  {
    if n < |posts| - 1 {
      var front := posts[..|posts| - 1];
      assert forall m :: 0 <= m < |front| ==> front[m] == posts[m];
      EligibleLast(front, i, marks, s, n);
    }
  }

  lemma {:induction false} EligibleNamed(posts: seq<Post>, i: Identity, marks: map<Key, nat>, s: nat, id: Id) returns (n: nat)
    requires id in Eligible(posts, i, marks, s)
    ensures LastOf(posts, n) && posts[n].id == id && Newer(marks, (i, id), s)
  {
    EligibleIsNew(posts, i, marks, s, id);
    n := |posts| - 1;
    if posts[n].id != id {
      var front := posts[..n];
      assert forall m :: 0 <= m < n ==> front[m] == posts[m];
      n := EligibleNamed(front, i, marks, s, id);
    }
  }

  /** The n-th post of the reply is written under its name. */
  ghost predicate Writes(w: World, c: Command, admitted: set<Id>, n: nat)
    requires c.Store?
  {
    LastOf(c.posts, n) && c.posts[n].id in admitted
    && Newer(w.marks, (IdentityOf(c.server, c.user), c.posts[n].id), c.observation)
  }

  lemma WrittenAt(rows: map<(nat, Id), Row>, a: nat, i: Identity, posts: map<Id, Post>, admitted: set<Id>, s: nat, k: (nat, Id))
    ensures var v := Written(rows, a, i, posts, admitted, s);
      if k.0 == a && k.1 in posts && k.1 in admitted then k in v && v[k] == Row(posts[k.1].body, i, s)
      else (k in v <==> k in rows) && (k in v ==> v[k] == rows[k])
  {
  }

  lemma StoreRows(w: World, i: Identity, access: Access, posts: seq<Post>, s: nat, admitted: set<Id>, v: World, a: nat,
                  eligible: map<Id, Post>)
    requires access == Ready && v == ExecuteStore(w, i, access, posts, s, admitted) && eligible == Eligible(posts, i, w.marks, s)
    requires eligible != map[] && a == Select(w.accounts, i, access).1.value
    ensures v.rows == Written(w.rows, a, i, eligible, admitted, s) && v.accounts == Select(w.accounts, i, access).0
  {
  }

  /** A store that is carried out leaves the text of each unfenced post under its name, in the account of its identity. */
  lemma StoredLands(w: World, c: Command, open: bool, admitted: set<Id>, v: World, n: nat)
    requires Safe(w) && c.Store? && Executes(w, c, open) && v == Next(w, Work(open, admitted)) && Writes(w, c, admitted, n)
    ensures var i := IdentityOf(c.server, c.user);
      i in v.accounts.table
      && (v.accounts.table[i], c.posts[n].id) in v.rows
      && v.rows[(v.accounts.table[i], c.posts[n].id)] == Row(c.posts[n].body, i, c.observation)
  {
    var (u, i) := (w.(queue := w.queue[1..]), IdentityOf(c.server, c.user));
    EligibleLast(c.posts, i, w.marks, c.observation, n);
    SelectOk(w.accounts, i, Ready);
    var (a, eligible) := (Select(w.accounts, i, Ready).1.value, Eligible(c.posts, i, w.marks, c.observation));
    StoreRows(u, i, Ready, c.posts, c.observation, admitted, v, a, eligible);
    WrittenAt(w.rows, a, i, eligible, admitted, c.observation, (a, c.posts[n].id));
  }

  /** The row holds what the n-th post of the reply said. */
  predicate RowOf(c: Command, n: nat, id: Id, x: Row) {
    && c.Store? && n < |c.posts| && c.posts[n].id == id && x.body == c.posts[n].body
    && x.origin == IdentityOf(c.server, c.user) && x.observation == c.observation
  }

  /** A row that is new or other than before holds what the store that was carried out said. */
  lemma ChangedRow(w: World, a: Action, v: World, k: (nat, Id)) returns (n: nat)
    requires Step(w, a, v) && k in v.rows && (k !in w.rows || v.rows[k] != w.rows[k])
    ensures a.Work? && w.queue != [] && RowOf(w.queue[0], n, k.1, v.rows[k])
  {
    var c := w.queue[0];
    var (u, i) := (w.(queue := w.queue[1..]), IdentityOf(c.server, c.user));
    n := ChangedBy(u, i, AccessTo(c.server, c.user, a.open), c, a.admitted, v, k);
  }

  lemma ChangedBy(w: World, i: Identity, access: Access, c: Command, admitted: set<Id>, v: World, k: (nat, Id)) returns (n: nat)
    requires c.Store? && i == IdentityOf(c.server, c.user)
    requires v == ExecuteStore(w, i, access, c.posts, c.observation, admitted)
    requires k in v.rows && (k !in w.rows || v.rows[k] != w.rows[k])
    ensures RowOf(c, n, k.1, v.rows[k])
  {
    var eligible := Eligible(c.posts, i, w.marks, c.observation);
    var a := Select(w.accounts, i, access).1.value;
    StoreRows(w, i, access, c.posts, c.observation, admitted, v, a, eligible);
    WrittenAt(w.rows, a, i, eligible, admitted, c.observation, k);
    n := EligibleNamed(c.posts, i, w.marks, c.observation, k.1);
    EligibleLast(c.posts, i, w.marks, c.observation, n);
  }

  /** A deletion fences its post from then on, whether or not its account can be opened, and no other post. */
  lemma RemovedFences(w: World, c: Command, open: bool, admitted: set<Id>, v: World, k: Key, s: nat)
    requires c.Remove? && c.id != "" && w.queue != [] && w.queue[0] == c && v == Next(w, Work(open, admitted))
    ensures Newer(v.marks, k, s)
      <==> Newer(w.marks, k, s) && (k == (IdentityOf(c.server, c.user), c.id) ==> c.observation < s)
  {
  }

  lemma AnsweredRow(rows: map<(nat, Id), Row>, t: Accounts, cleared: map<Key, nat>, i: Identity, access: Access, id: Id, row: Option<Row>)
    requires AccountsOk(t) && RowsOk(rows, t.table, cleared) && row == Answered(rows, Select(t, i, access).1, id)
    ensures row.Some? <==> access == Ready && id != "" && i in t.table && (t.table[i], id) in rows
    ensures row.Some? ==> row.value == rows[(t.table[i], id)]
  {
    SelectOk(t, i, access);
  }

  /** What a read answers: the row of its account as it stands. */
  ghost predicate Answers(w: World, c: Command, open: bool, x: Answer)
    requires c.Load?
  {
    var i := IdentityOf(c.server, c.user);
    && x.identity == i && x.id == c.id
    && (x.row.Some? <==> Executes(w, c, open) && c.id != "" && i in w.accounts.table && (w.accounts.table[i], c.id) in w.rows)
    && (x.row.Some? ==> x.row.value == w.rows[(w.accounts.table[i], c.id)])
  }

  /** A read answers the row of its account, or nothing if there is none or the account cannot be opened. */
  lemma LoadedIsRow(w: World, c: Command, open: bool, admitted: set<Id>, v: World) returns (x: Answer)
    requires Safe(w) && c.Load? && w.queue != [] && w.queue[0] == c && v == Next(w, Work(open, admitted))
    ensures v.answers == w.answers + [x] && Answers(w, c, open, x)
    ensures v.rows == w.rows && v.marks == w.marks
  {
    var (i, access) := (IdentityOf(c.server, c.user), AccessTo(c.server, c.user, open));
    LoadAnswers(w.(queue := w.queue[1..]), i, access, c.id);
    x := Answer(i, c.id, Answered(w.rows, Select(w.accounts, i, access).1, c.id));
    AnsweredRow(w.rows, w.accounts, w.cleared, i, access, c.id, x.row);
  }

  // ---------------------------------------------------------------- over runs

  /** The store that was asked for at step q was carried out at step j, and said this. */
  ghost predicate StoredBy(ws: seq<World>, acts: seq<Action>, q: nat, j: nat, m: nat, id: Id, x: Row)
    requires |ws| == |acts| + 1 && m <= |acts|
  {
    && q < j < m && acts[q].Issue? && acts[j].Work? && ws[j].queue != [] && ws[j].queue[0] == acts[q].command
    && exists n: nat :: RowOf(acts[q].command, n, id, x)
  }

  lemma QueueFrom(w: World, a: Action, v: World, n: nat)
    requires Step(w, a, v) && n < |v.queue| && !v.queue[n].Remove?
    ensures v.queue[n] in w.queue || a == Issue(v.queue[n])
  {
    StepQueue(w, a, v);
  }

  /** Whatever waits in the queue and is no deletion was asked for. */
  lemma {:induction false} QueuedWasIssued(ws: seq<World>, acts: seq<Action>, m: nat, n: nat) returns (q: nat)
    requires IsRun(ws, acts) && m < |ws| && n < |ws[m].queue| && !ws[m].queue[n].Remove?
    ensures q < m && acts[q] == Issue(ws[m].queue[n])
    decreases m
  {
    StepAt(ws, acts, m - 1);
    QueueFrom(ws[m - 1], acts[m - 1], ws[m], n);
    q := m - 1;
    if acts[q] != Issue(ws[m].queue[n]) {
      var k: nat :| k < |ws[m - 1].queue| && ws[m - 1].queue[k] == ws[m].queue[n];
      q := QueuedWasIssued(ws, acts, m - 1, k);
    }
  }

  /** Over every run each row says what a reply said that was to be stored under its identity and observation. */
  lemma {:induction false} RowsSayWhatWasStored(ws: seq<World>, acts: seq<Action>, m: nat, k: (nat, Id)) returns (q: nat, j: nat)
    requires IsRun(ws, acts) && m < |ws| && k in ws[m].rows
    ensures StoredBy(ws, acts, q, j, m, k.1, ws[m].rows[k])
    decreases m
  {
    StepAt(ws, acts, m - 1);
    if k in ws[m - 1].rows && ws[m - 1].rows[k] == ws[m].rows[k] {
      q, j := RowsSayWhatWasStored(ws, acts, m - 1, k);
    } else {
      var n := ChangedRow(ws[m - 1], acts[m - 1], ws[m], k);
      j := m - 1;
      q := QueuedWasIssued(ws, acts, j, 0);
    }
  }

  lemma AnswersKept(w: World, a: Action, v: World, i: nat) returns (latest: bool)
    requires Safe(w) && Step(w, a, v) && i < |v.answers|
    ensures latest <==> i == |w.answers|
    ensures !latest ==> i < |w.answers| && v.answers[i] == w.answers[i]
    ensures latest ==> a.Work? && w.queue != [] && w.queue[0].Load? && Answers(w, w.queue[0], a.open, v.answers[i])
  {
    latest := i == |w.answers|;
    if a.Work? && w.queue[0].Load? {
      var x := LoadedIsRow(w, w.queue[0], a.open, a.admitted, v);
    } else {
      OthersAnswerNothing(w, a, v);
    }
  }

  lemma OthersAnswerNothing(w: World, a: Action, v: World)
    requires Step(w, a, v) && !(a.Work? && w.queue[0].Load?)
    ensures v.answers == w.answers
  {
  }

  lemma StoredLonger(ws: seq<World>, acts: seq<Action>, q: nat, j: nat, m: nat, id: Id, x: Row)
    requires |ws| == |acts| + 1 && m < |acts| && StoredBy(ws, acts, q, j, m, id, x)
    ensures StoredBy(ws, acts, q, j, m + 1, id, x)
  {
  }

  lemma LatestFrom(ws: seq<World>, acts: seq<Action>, m: nat, c: Command, open: bool, x: Answer) returns (q: nat, j: nat)
    requires IsRun(ws, acts) && m < |acts| && c.Load? && Answers(ws[m], c, open, x) && x.row.Some?
    ensures StoredBy(ws, acts, q, j, m + 1, x.id, x.row.value)
  {
    q, j := RowsSayWhatWasStored(ws, acts, m, (ws[m].accounts.table[x.identity], x.id));
    StoredLonger(ws, acts, q, j, m, x.id, x.row.value);
  }

  /** The step answered this read, from a row that was stored, or the answer was there before. */
  lemma AnswerStep(ws: seq<World>, acts: seq<Action>, m: nat, i: nat) returns (latest: bool, q: nat, j: nat)
    requires IsRun(ws, acts) && m < |acts| && i < |ws[m + 1].answers| && ws[m + 1].answers[i].row.Some?
    ensures latest ==> StoredBy(ws, acts, q, j, m + 1, ws[m + 1].answers[i].id, ws[m + 1].answers[i].row.value)
    ensures !latest ==> i < |ws[m].answers| && ws[m + 1].answers[i] == ws[m].answers[i]
  {
    RunSafe(ws, acts, m);
    StepAt(ws, acts, m);
    latest := AnswersKept(ws[m], acts[m], ws[m + 1], i);
    q, j := 0, 0;
    if latest {
      q, j := LatestFrom(ws, acts, m, ws[m].queue[0], acts[m].open, ws[m + 1].answers[i]);
    }
  }

  ghost predicate Starts(ws: seq<World>) {
    ws != [] && ws[0].answers == []
  }

  lemma {:induction false} AnswersWereStored(ws: seq<World>, acts: seq<Action>, m: nat, i: nat) returns (q: nat, j: nat)
    requires IsRun(ws, acts) && Starts(ws) && m < |ws| && i < |ws[m].answers| && ws[m].answers[i].row.Some?
    ensures StoredBy(ws, acts, q, j, m, ws[m].answers[i].id, ws[m].answers[i].row.value)
    decreases m
  {
    var latest;
    latest, q, j := AnswerStep(ws, acts, m - 1, i);
    if !latest {
      q, j := AnswersWereStored(ws, acts, m - 1, i);
      StoredLonger(ws, acts, q, j, m - 1, ws[m].answers[i].id, ws[m].answers[i].row.value);
    }
  }

  /** Over every run each answered row says what a reply said that was stored under the reader's own identity. */
  lemma AnswersSayWhatWasStored(ws: seq<World>, acts: seq<Action>, m: nat, i: nat) returns (q: nat, j: nat)
    requires IsRun(ws, acts) && m < |ws| && i < |ws[m].answers| && ws[m].answers[i].row.Some?
    ensures StoredBy(ws, acts, q, j, m, ws[m].answers[i].id, ws[m].answers[i].row.value)
    ensures IdentityOf(acts[q].command.server, acts[q].command.user) == ws[m].answers[i].identity
  {
    RunSafe(ws, acts, m);
    q, j := AnswersWereStored(ws, acts, m, i);
  }
}
