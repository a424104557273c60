/** Post causality: which of several snapshots of a post, arriving in any order, may write the resident body. */
module Causality {
  import opened Prelude

  datatype Content = Content(text: string, deleted: bool)

  /** A post as a reply or an event describes it; a malformed one may lack its own identifier. */
  datatype Payload = Payload(id: Id, channel: Id, root: Id, createAt: nat, content: Content)

  /** One member of a reply's post map: the key it is filed under, and the post. */
  datatype Row = Row(key: Id, post: Payload)

  /** A body held in a channel. `authority` is history: the observation its content came from, 0 from the cache. */
  datatype Body = Body(channel: Id, root: Id, createAt: nat, content: Content, authority: nat)

  datatype Spot = Spot(channel: Id, id: Id)

  /**
   * `marks` are the resident watermarks. History: `latest` is the newest observation of each post from the
   * server, and `flights` holds the observation numbers of the requests and cache reads not yet done with.
   */
  datatype World = World(observation: nat, marks: map<Id, nat>, bodies: map<Spot, Body>,
                         latest: map<Id, nat>, flights: set<nat>)

  function Name(r: Row): Id {
    if r.post.id != "" then r.post.id else r.key
  }

  function Known(m: map<Id, nat>, id: Id): nat {
    if id in m then m[id] else 0
  }

  /** Whatever is in `ids` has been observed at s. */
  function Raise(m: map<Id, nat>, ids: set<Id>, s: nat): map<Id, nat> {
    map id | id in m.Keys + ids :: if id in ids then Max(Known(m, id), s) else m[id]
  }

  /** A snapshot fences the post it describes and, for a reply, the root whose thread it advances. */
  function Fences(p: Payload): set<Id> {
    {p.id, p.root} - {""}
  }

  function AllFences(posts: map<Id, Payload>): set<Id> {
    set k, id | k in posts && id in Fences(posts[k]) :: id
  }

  // ---------------------------------------------------------------- merging

  predicate Admissible(marks: map<Id, nat>, id: Id, s: nat) {
    id != "" && Known(marks, id) <= s
  }

  /** What of a reply may be merged, filed by name; of several posts of one name the last counts. */
  function Accepted(rows: seq<Row>, marks: map<Id, nat>, s: nat): (r: map<Id, Payload>)
    ensures forall id :: id in r ==> Admissible(marks, id, s)
    ensures forall id :: id in r && r[id].id != "" ==> r[id].id == id
  {
    if rows == [] then map[]
    else
      var rest := Accepted(rows[..|rows| - 1], marks, s);
      var r := rows[|rows| - 1];
      if Admissible(marks, Name(r), s) then rest[Name(r) := r.post] else rest
  }

  /** Of those, what a cached read may add: nothing that is already resident. */
  function Absent(rows: seq<Row>, marks: map<Id, nat>, bodies: map<Spot, Body>, channel: Id, s: nat): map<Id, Payload> {
    var all := Accepted(rows, marks, s);
    map id | id in all && Spot(channel, id) !in bodies :: all[id]
  }

  predicate SamePost(b: Body, p: Payload) {
    b.channel == p.channel && b.root == p.root && b.createAt == p.createAt
  }

  function Created(p: Payload, s: nat): Body {
    Body(p.channel, p.root, p.createAt, p.content, s)
  }

  /** A resident body takes a snapshot's content unless the snapshot contradicts what the post is. */
  function Refreshed(b: Body, p: Payload, s: nat): Body {
    if SamePost(b, p) then b.(content := p.content, authority := s) else b
  }

  predicate Writes(posts: map<Id, Payload>, channel: Id, spot: Spot) {
    spot.channel == channel && spot.id in posts && posts[spot.id].id == spot.id
  }

  function Merged(bodies: map<Spot, Body>, channel: Id, posts: map<Id, Payload>, s: nat): map<Spot, Body> {
    map spot | spot in bodies.Keys + (set id | id in posts && posts[id].id == id :: Spot(channel, id)) ::
      if spot !in bodies then Created(posts[spot.id], s)
      else if Writes(posts, channel, spot) then Refreshed(bodies[spot], posts[spot.id], s)
      else bodies[spot]
  }

  function Ingested(w: World, channel: Id, rows: seq<Row>, s: nat): World {
    var posts := Accepted(rows, w.marks, s);
    w.(marks := Raise(w.marks, AllFences(posts), s), latest := Raise(w.latest, AllFences(posts), s),
       bodies := Merged(w.bodies, channel, posts, s))
  }

  /** One post, as a reply of the newest observation that holds nothing else. */
  function IngestedOne(w: World, channel: Id, p: Payload): World {
    Ingested(w, channel, [Row(p.id, p)], w.observation)
  }

  function IngestedCached(w: World, channel: Id, rows: seq<Row>, s: nat): World {
    w.(bodies := Merged(w.bodies, channel, Absent(rows, w.marks, w.bodies, channel, s), 0))
  }

  /** An event of the server about these posts. */
  function Observed(w: World, ids: set<Id>): World {
    var s := w.observation + 1;
    w.(observation := s, marks := Raise(w.marks, ids, s), latest := Raise(w.latest, ids, s))
  }

  function Snapshot(w: World, p: Payload): World {
    Observed(w, if p.id == "" then {} else Fences(p))
  }

  /** A post fetched for its own sake: a new observation, and a reply that holds nothing else. */
  function FetchedIn(w: World, p: Payload, channel: Id): World {
    if p.id == "" || channel == "" then w else IngestedOne(Observed(w, Fences(p)), channel, p)
  }

  // ---------------------------------------------------------------- steps

  datatype Action =
    | Dispatch
    | StartRead
    | Reply(seen: nat, channel: Id, rows: seq<Row>)
    | CachedReply(seen: nat, channel: Id, rows: seq<Row>)
    | Done(seen: nat)
    | Posted(post: Payload, channel: Id, retained: bool)
    | Edited(post: Payload, channel: Id)
    | Fetched(post: Payload, channel: Id)
    | Deleted(id: Id, channel: Id)
    | Reacted(id: Id, channel: Id, content: Content)
    | Evicted(spot: Spot)
    | Pruned(drop: set<Id>)

  /** Watermarks are dropped only when nothing older than them is still on its way. */
  predicate Enabled(w: World, a: Action) {
    match a
    case Reply(s, _, _) => s in w.flights
    case CachedReply(s, _, _) => s in w.flights
    case Posted(p, _, _) => p.id != ""
    case Pruned(drop) => forall id, f :: id in drop && id in w.marks && f in w.flights ==> w.marks[id] <= f
    case _ => true
  }

  function Rewritten(w: World, spot: Spot, content: Content): World {
    if spot !in w.bodies then w
    else w.(bodies := w.bodies[spot := w.bodies[spot].(content := content, authority := w.observation)])
  }

  function Next(w: World, a: Action): World {
    match a
    case Dispatch => w.(observation := w.observation + 1, flights := w.flights + {w.observation + 1})
    case StartRead => w.(observation := w.observation + 1, flights := w.flights + {w.observation + 1})
    case Reply(s, channel, rows) => Ingested(w, channel, rows, s)
    case CachedReply(s, channel, rows) => IngestedCached(w, channel, rows, s)
    case Done(s) => w.(flights := w.flights - {s})
    case Posted(p, channel, retained) =>
      var v := Snapshot(w, p);
      if !retained || Spot(channel, p.id) in v.bodies then v
      else v.(bodies := v.bodies[Spot(channel, p.id) := Created(p, v.observation)])
    case Edited(p, channel) =>
      var v, spot := Snapshot(w, p), Spot(channel, p.id);
      if p.id == "" || spot !in v.bodies then v
      else v.(bodies := v.bodies[spot := Refreshed(v.bodies[spot], p, v.observation)])
    case Fetched(p, channel) => FetchedIn(w, p, channel)
    case Deleted(id, channel) =>
      var v, spot := Observed(w, {id} - {""}), Spot(channel, id);
      if spot in v.bodies && id != "" then Rewritten(v, spot, v.bodies[spot].content.(deleted := true)) else v
    case Reacted(id, channel, content) =>
      var v := Observed(w, {id} - {""});
      if id == "" then v else Rewritten(v, Spot(channel, id), content)
    case Evicted(spot) => w.(bodies := w.bodies - {spot})
    case Pruned(drop) => w.(marks := w.marks - drop)
  }

  // ---------------------------------------------------------------- the invariant

  /** Everything on its way that is older than the newest observation of a post finds that post's watermark. */
  ghost predicate Fenced(marks: map<Id, nat>, latest: map<Id, nat>, flights: set<nat>) {
    && (forall id :: id in marks ==> id in latest && marks[id] == latest[id])
    && (forall id, f :: id in latest && f in flights && f < latest[id] ==> id in marks)
  }

  ghost predicate Bounded(latest: map<Id, nat>, flights: set<nat>, observation: nat) {
    && (forall f :: f in flights ==> 0 < f <= observation)
    && (forall id :: id in latest ==> id != "" && 0 < latest[id] <= observation)
  }

  /** A body never claims to be newer than what was observed of its post. */
  ghost predicate Grounded(bodies: map<Spot, Body>, latest: map<Id, nat>) {
    forall spot :: spot in bodies ==> spot.id != "" && bodies[spot].authority <= Known(latest, spot.id)
  }

  ghost predicate Safe(w: World) {
    && Fenced(w.marks, w.latest, w.flights) && Bounded(w.latest, w.flights, w.observation)
    && Grounded(w.bodies, w.latest)
  }

  predicate Initial(w: World) {
    w == World(0, map[], map[], map[], {})
  }

  /** What a reply may merge is never older than the newest observation of that post. */
  lemma AcceptedIsNewest(w: World, rows: seq<Row>, s: nat, id: Id)
    requires Fenced(w.marks, w.latest, w.flights) && s in w.flights && id in Accepted(rows, w.marks, s)
    ensures Known(w.latest, id) <= s
  {
  }

  lemma RaiseFenced(marks: map<Id, nat>, latest: map<Id, nat>, flights: set<nat>, ids: set<Id>, s: nat)
    requires Fenced(marks, latest, flights) && (s in flights || forall f :: f in flights ==> f <= s)
    requires forall id :: id in ids && id in latest && s < latest[id] ==> id in marks
    ensures forall id :: id in ids && id !in marks && id in latest ==> latest[id] <= s
    ensures Fenced(Raise(marks, ids, s), Raise(latest, ids, s), flights)
  {
  }

  lemma RaiseBounded(latest: map<Id, nat>, flights: set<nat>, observation: nat, ids: set<Id>, s: nat)
    requires Bounded(latest, flights, observation) && 0 < s <= observation && "" !in ids
    ensures Bounded(Raise(latest, ids, s), flights, observation)
  {
  }

  lemma RaiseGrounded(bodies: map<Spot, Body>, latest: map<Id, nat>, ids: set<Id>, s: nat)
    requires Grounded(bodies, latest)
    ensures Grounded(bodies, Raise(latest, ids, s))
  {
  }

  lemma ObservedSafe(w: World, ids: set<Id>)
    requires Safe(w) && "" !in ids
    ensures Safe(Observed(w, ids))
    ensures forall id :: id in ids ==> Known(Observed(w, ids).latest, id) == w.observation + 1
  {
    RaiseFenced(w.marks, w.latest, w.flights, ids, w.observation + 1);
    RaiseBounded(w.latest, w.flights, w.observation + 1, ids, w.observation + 1);
    RaiseGrounded(w.bodies, w.latest, ids, w.observation + 1);
  }

  lemma MergedGrounded(bodies: map<Spot, Body>, latest: map<Id, nat>, channel: Id, posts: map<Id, Payload>, s: nat)
    requires Grounded(bodies, latest) && "" !in posts
    requires forall id :: id in posts && posts[id].id == id ==> s <= Known(latest, id)
    ensures Grounded(Merged(bodies, channel, posts, s), latest)
  {
  }

  /** Merging what is at least as new as anything observed keeps everything; the root of a reply only gains a fence. */
  lemma IngestedSafe(w: World, channel: Id, rows: seq<Row>, s: nat)
    requires Safe(w) && 0 < s <= w.observation && (s in w.flights || s == w.observation)
    ensures Safe(Ingested(w, channel, rows, s))
  {
    var posts := Accepted(rows, w.marks, s);
    var ids := AllFences(posts);
    assert "" !in ids;
    RaiseFenced(w.marks, w.latest, w.flights, ids, s);
    RaiseBounded(w.latest, w.flights, w.observation, ids, s);
    RaiseGrounded(w.bodies, w.latest, ids, s);
    forall id | id in posts && posts[id].id == id ensures s <= Known(Raise(w.latest, ids, s), id) {
      assert id in Fences(posts[id]);
    }
    MergedGrounded(w.bodies, Raise(w.latest, ids, s), channel, posts, s);
  }

  lemma CachedSafe(w: World, channel: Id, rows: seq<Row>, s: nat)
    requires Safe(w)
    ensures Safe(IngestedCached(w, channel, rows, s))
  {
    MergedGrounded(w.bodies, w.latest, channel, Absent(rows, w.marks, w.bodies, channel, s), 0);
  }

  lemma WriteGrounded(w: World, spot: Spot, b: Body)
    requires Safe(w) && spot.id != "" && b.authority <= Known(w.latest, spot.id)
    ensures Safe(w.(bodies := w.bodies[spot := b]))
  {
  }

  lemma PostedSafe(w: World, p: Payload, channel: Id, retained: bool, v: World)
    requires Safe(w) && p.id != "" && v == Next(w, Posted(p, channel, retained))
    ensures Safe(v)
  {
    ObservedSafe(w, Fences(p));
    WriteGrounded(Snapshot(w, p), Spot(channel, p.id), Created(p, w.observation + 1));
  }

  lemma EditedSafe(w: World, p: Payload, channel: Id, v: World)
    requires Safe(w) && v == Next(w, Edited(p, channel))
    ensures Safe(v)
  {
    ObservedSafe(w, if p.id == "" then {} else Fences(p));
    var (u, spot) := (Snapshot(w, p), Spot(channel, p.id));
    if p.id != "" && spot in u.bodies {
      assert p.id in Fences(p);
      WriteGrounded(u, spot, Refreshed(u.bodies[spot], p, u.observation));
    }
  }

  lemma FetchedSafe(w: World, p: Payload, channel: Id, v: World)
    requires Safe(w) && v == Next(w, Fetched(p, channel))
    ensures Safe(v)
  {
    if p.id != "" && channel != "" {
      ObservedSafe(w, Fences(p));
      var u := Observed(w, Fences(p));
      IngestedSafe(u, channel, [Row(p.id, p)], u.observation);
    }
  }

  lemma RewriteSafe(w: World, id: Id, channel: Id)
    requires Safe(w)
    ensures Safe(Observed(w, {id} - {""}))
    ensures id != "" ==> forall content :: Safe(Rewritten(Observed(w, {id} - {""}), Spot(channel, id), content))
  {
    var u := Observed(w, {id} - {""});
    ObservedSafe(w, {id} - {""});
    if id != "" && Spot(channel, id) in u.bodies {
      forall content ensures Safe(Rewritten(u, Spot(channel, id), content)) {
        WriteGrounded(u, Spot(channel, id), u.bodies[Spot(channel, id)].(content := content, authority := u.observation));
      }
    }
  }

  lemma NextSafe(w: World, a: Action, v: World)
    requires Safe(w) && Enabled(w, a) && v == Next(w, a)
    ensures Safe(v)
  {
    match a
    case Reply(s, channel, rows) => IngestedSafe(w, channel, rows, s);
    case CachedReply(s, channel, rows) => CachedSafe(w, channel, rows, s);
    case Dispatch =>
    case StartRead =>
    case Done(_) =>
    case Evicted(_) =>
    case Pruned(_) =>
    case Posted(p, channel, retained) => PostedSafe(w, p, channel, retained, v);
    case Edited(p, channel) => EditedSafe(w, p, channel, v);
    case Fetched(p, channel) => FetchedSafe(w, p, channel, v);
    case Deleted(id, channel) => RewriteSafe(w, id, channel);
    case Reacted(id, channel, _) => RewriteSafe(w, id, channel);
  }

  ghost predicate IsRun(ws: seq<World>, acts: seq<Action>) {
    && |ws| == |acts| + 1 && Initial(ws[0])
    && forall i :: 0 <= i < |acts| ==> Step(ws[i], acts[i], ws[i + 1])
  }

  ghost predicate Step(w: World, a: Action, v: World) {
    Enabled(w, a) && v == Next(w, a)
  }

  lemma {:induction false} RunSafe(ws: seq<World>, acts: seq<Action>, i: nat)
    requires IsRun(ws, acts) && i < |ws|
    ensures Safe(ws[i])
  {
    if i > 0 {
      RunSafe(ws, acts, i - 1);
      assert Step(ws[i - 1], acts[i - 1], ws[i]);
      NextSafe(ws[i - 1], acts[i - 1], ws[i]);
    }
  }

  // ---------------------------------------------------------------- what the fences achieve

  /**
   * How a body may be written once `known` is the newest observation of its post: with content of an observation at
   * least as new - or, where nothing was resident, by a cached read begun no earlier, whose content carries none.
   */
  predicate FreshWrite(w: World, a: Action, v: World, spot: Spot, known: nat)
    requires spot in v.bodies
  {
    if a.CachedReply? then spot !in w.bodies && v.bodies[spot].authority == 0 && a.seen >= known
    else v.bodies[spot].authority >= known
  }

  /** The observation behind a resident body never decreases. */
  lemma AuthorityNeverDecreases(w: World, a: Action, spot: Spot)
    requires Safe(w) && Enabled(w, a) && spot in w.bodies && spot in Next(w, a).bodies
    ensures w.bodies[spot].authority <= Next(w, a).bodies[spot].authority
  {
    if a.Reply? && Writes(Accepted(a.rows, w.marks, a.seen), a.channel, spot) {
      AcceptedIsNewest(w, a.rows, a.seen, spot.id);
    }
  }

  /**
   * Whatever an event or a reply writes is at least as new as anything the server said about that post before, and a
   * cached read fills a gap only if it began after all of that.
   */
  lemma OnlyNewestWrites(w: World, a: Action, spot: Spot)
    requires Safe(w) && Enabled(w, a) && spot in Next(w, a).bodies
    requires spot !in w.bodies || Next(w, a).bodies[spot] != w.bodies[spot]
    ensures FreshWrite(w, a, Next(w, a), spot, Known(w.latest, spot.id))
  {
    if a.Reply? && Writes(Accepted(a.rows, w.marks, a.seen), a.channel, spot) {
      AcceptedIsNewest(w, a.rows, a.seen, spot.id);
    }
    if a.CachedReply? {
      assert spot.id in Accepted(a.rows, w.marks, a.seen);
      AcceptedIsNewest(w, a.rows, a.seen, spot.id);
    }
  }

  /** A reply dispatched before the newest observation of a post leaves its body alone, wherever it is held. */
  lemma StaleReplyWritesNothing(w: World, s: nat, channel: Id, rows: seq<Row>, spot: Spot)
    requires Safe(w) && s in w.flights && s < Known(w.latest, spot.id)
    ensures var v := Next(w, Reply(s, channel, rows));
      (spot in v.bodies <==> spot in w.bodies) && (spot in w.bodies ==> v.bodies[spot] == w.bodies[spot])
  {
    if spot.id in Accepted(rows, w.marks, s) {
      AcceptedIsNewest(w, rows, s, spot.id);
    }
  }

  /** A merged reply fences its root: no request dispatched earlier writes the root's body afterwards. */
  lemma ReplyFencesRoot(w: World, s: nat, channel: Id, rows: seq<Row>, p: Payload)
    requires Safe(w) && s in w.flights && p.root != ""
    requires exists id :: id in Accepted(rows, w.marks, s) && Accepted(rows, w.marks, s)[id] == p
    ensures Known(Next(w, Reply(s, channel, rows)).latest, p.root) >= s
  {
    var posts := Accepted(rows, w.marks, s);
    var id :| id in posts && posts[id] == p;
    assert p.root in Fences(posts[id]);
    assert p.root in AllFences(posts);
  }

  /** A cached read only fills gaps: no body that is resident changes, and what it adds carries no authority. */
  lemma CachedOnlyFillsGaps(w: World, s: nat, channel: Id, rows: seq<Row>, spot: Spot)
    requires spot in IngestedCached(w, channel, rows, s).bodies
    ensures spot in w.bodies ==> IngestedCached(w, channel, rows, s).bodies[spot] == w.bodies[spot]
    ensures spot !in w.bodies ==>
      IngestedCached(w, channel, rows, s).bodies[spot].authority == 0 && spot.channel == channel
  {
  }

  /** The newest observation of a post only moves forward. */
  lemma LatestGrows(w: World, a: Action, id: Id)
    ensures Known(w.latest, id) <= Known(Next(w, a).latest, id)
  {
    forall ids: set<Id>, s: nat ensures Known(w.latest, id) <= Known(Raise(w.latest, ids, s), id) {
    }
    if a.Fetched? && a.post.id != "" && a.channel != "" {
      var v := Snapshot(w, a.post);
      assert Known(v.latest, id) <= Known(Ingested(v, a.channel, [Row(a.post.id, a.post)], v.observation).latest, id);
    }
  }

  lemma LatestGrowsOver(ws: seq<World>, acts: seq<Action>, i: nat, j: nat, id: Id)
    requires IsRun(ws, acts) && i <= j < |ws|
    ensures Known(ws[i].latest, id) <= Known(ws[j].latest, id)
  {
    var ks := seq(|ws|, m requires 0 <= m < |ws| => Known(ws[m].latest, id));
    forall m | 0 <= m < |acts| ensures ks[m] <= ks[m + 1] {
      LatestGrowsAt(ws, acts, m, id);
    }
    Climbs(ks, i, j);
  }

  lemma {:induction false} Climbs(ks: seq<nat>, i: nat, j: nat)
    requires i <= j < |ks| && forall m :: 0 <= m < |ks| - 1 ==> ks[m] <= ks[m + 1]
    ensures ks[i] <= ks[j]
  {
    if i < j {
      Climbs(ks, i, j - 1);
    }
  }

  lemma LatestGrowsAt(ws: seq<World>, acts: seq<Action>, i: nat, id: Id)
    requires IsRun(ws, acts) && i < |acts|
    ensures Known(ws[i].latest, id) <= Known(ws[i + 1].latest, id)
  {
    assert Step(ws[i], acts[i], ws[i + 1]);
    LatestGrows(ws[i], acts[i], id);
  }

  ghost predicate Written(ws: seq<World>, acts: seq<Action>, m: nat, spot: Spot)
    requires |ws| == |acts| + 1 && m < |acts|
  {
    spot in ws[m + 1].bodies && (spot !in ws[m].bodies || ws[m + 1].bodies[spot] != ws[m].bodies[spot])
  }

  /**
   * Over whole runs: once the server has said something about a post at step i, whatever a reply or an event later
   * writes of it, in any channel, is at least that new, and no cached read begun before adds it. A deleted post is not
   * resurrected by what was already on its way.
   */
  lemma NothingStaleIsWritten(ws: seq<World>, acts: seq<Action>, i: nat, m: nat, spot: Spot)
    requires IsRun(ws, acts) && i <= m < |acts| && Written(ws, acts, m, spot)
    ensures FreshWrite(ws[m], acts[m], ws[m + 1], spot, Known(ws[i].latest, spot.id))
  {
    RunSafe(ws, acts, m);
    LatestGrowsOver(ws, acts, i, m, spot.id);
    assert Step(ws[m], acts[m], ws[m + 1]);
    OnlyNewestWrites(ws[m], acts[m], spot);
  }

  /** A deletion, an edit or a posted event is the newest observation of its post at the moment it is handled. */
  lemma EventsAreNewest(w: World, a: Action, id: Id)
    requires Safe(w) && Enabled(w, a) && id != ""
    requires match a
      case Deleted(x, _) => x == id
      case Reacted(x, _, _) => x == id
      case Posted(p, _, _) => p.id == id || p.root == id
      case Edited(p, _) => p.id != "" && (p.id == id || p.root == id)
      case _ => false
    ensures Known(Next(w, a).latest, id) == w.observation + 1
  {
  }

  /** Over whole runs: once a deletion is handled, what is written of the post is newer than it, in every channel. */
  lemma NothingResurrects(ws: seq<World>, acts: seq<Action>, i: nat, m: nat, spot: Spot)
    requires IsRun(ws, acts) && i < m < |acts| && Written(ws, acts, m, spot)
    requires acts[i].Deleted? && acts[i].id == spot.id && spot.id != ""
    ensures FreshWrite(ws[m], acts[m], ws[m + 1], spot, ws[i].observation + 1)
  {
    RunSafe(ws, acts, i);
    assert Step(ws[i], acts[i], ws[i + 1]);
    EventsAreNewest(ws[i], acts[i], spot.id);
    NothingStaleIsWritten(ws, acts, i + 1, m, spot);
  }
}
