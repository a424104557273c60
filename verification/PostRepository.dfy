/** The post repository as it runs: watermarks and bodies updated by loops over replies; shared requests; joins. */
module PostRepositories {
  import opened Prelude
  import opened Causality
  import C = Coalescing

  ghost predicate RaisedSoFar(marks: map<Id, nat>, before: map<Id, nat>, posts: map<Id, Payload>, left: set<Id>, s: nat) {
    marks == Raise(before, FencesBut(posts, left), s)
  }

  /** What the posts filed under the names not in `left` fence. */
  ghost function FencesBut(posts: map<Id, Payload>, left: set<Id>): set<Id> {
    set k, id | k in posts && k !in left && id in Fences(posts[k]) :: id
  }

  ghost predicate MergedSoFar(bodies: map<Spot, Body>, before: map<Spot, Body>, channel: Id, posts: map<Id, Payload>,
                              left: set<Id>, s: nat)
  {
    bodies == Merged(before, channel, DoneBut(posts, left), s)
  }

  /** At one spot, `after` is `before` with these posts merged. */
  ghost predicate Shows(before: map<Spot, Body>, channel: Id, posts: map<Id, Payload>, s: nat,
                        after: map<Spot, Body>, spot: Spot)
  {
    && (spot in after <==> spot in before || Writes(posts, channel, spot))
    && (spot in after && spot !in before ==> after[spot] == Created(posts[spot.id], s))
    && (spot in before && Writes(posts, channel, spot) ==> after[spot] == Refreshed(before[spot], posts[spot.id], s))
    && (spot in before && !Writes(posts, channel, spot) ==> after[spot] == before[spot])
  }

  lemma MergedShows(before: map<Spot, Body>, channel: Id, posts: map<Id, Payload>, s: nat, spot: Spot)
    ensures Shows(before, channel, posts, s, Merged(before, channel, posts, s), spot)
  {
  }

  /** The posts whose names are no longer in `left`. */
  ghost function DoneBut(posts: map<Id, Payload>, left: set<Id>): map<Id, Payload> {
    map id | id in posts && id !in left :: posts[id]
  }

  lemma MergedStep(before: map<Spot, Body>, channel: Id, posts: map<Id, Payload>, left: set<Id>, k: Id, s: nat)
    requires k in posts && k in left
    ensures Merged(Merged(before, channel, DoneBut(posts, left), s), channel, map[k := posts[k]], s)
      == Merged(before, channel, DoneBut(posts, left - {k}), s)
  {
    var m := Merged(before, channel, DoneBut(posts, left), s);
    var a := Merged(m, channel, map[k := posts[k]], s);
    var b := Merged(before, channel, DoneBut(posts, left - {k}), s);
    forall spot ensures (spot in a <==> spot in b) && (spot in a ==> a[spot] == b[spot]) {
      MergedShows(before, channel, DoneBut(posts, left), s, spot);
      MergedShows(m, channel, map[k := posts[k]], s, spot);
      MergedShows(before, channel, DoneBut(posts, left - {k}), s, spot);
      SameSpot(before, m, a, b, channel, posts, left, k, s, spot);
    }
  }

  lemma SameSpot(before: map<Spot, Body>, m: map<Spot, Body>, a: map<Spot, Body>, b: map<Spot, Body>, channel: Id,
                 posts: map<Id, Payload>, left: set<Id>, k: Id, s: nat, spot: Spot)
    requires k in posts && k in left
    requires Shows(before, channel, DoneBut(posts, left), s, m, spot)
    requires Shows(m, channel, map[k := posts[k]], s, a, spot)
    requires Shows(before, channel, DoneBut(posts, left - {k}), s, b, spot)
    ensures (spot in a <==> spot in b) && (spot in a ==> a[spot] == b[spot])
  {
  }

  lemma FencesButStep(posts: map<Id, Payload>, left: set<Id>, k: Id)
    requires k in posts && k in left
    ensures FencesBut(posts, left - {k}) == FencesBut(posts, left) + Fences(posts[k])
  {
  }

  lemma RaiseTwice(m: map<Id, nat>, a: set<Id>, b: set<Id>, s: nat)
    ensures Raise(Raise(m, a, s), b, s) == Raise(m, a + b, s)
  {
  }

  /** Raising the watermark of one identifier, as the source does it. */
  function RaiseOne(m: map<Id, nat>, id: Id, s: nat): (r: map<Id, nat>)
    ensures r == Raise(m, {id} - {""}, s)
  {
    if id == "" then m else m[id := Max(Known(m, id), s)]
  }

  class PostRepository {
    var observation: nat
    var marks: map<Id, nat>
    var bodies: map<Spot, Body>
    ghost var latest: map<Id, nat>
    ghost var flights: set<nat>

    ghost function View(): World
      reads this
    {
      World(observation, marks, bodies, latest, flights)
    }

    method NextObservation() returns (s: nat)
      modifies this`observation
      ensures s == observation == old(observation) + 1
    {
      observation := observation + 1;
      s := observation;
    }

    method NotePost(id: Id, s: nat)
      modifies this`marks
      ensures marks == Raise(old(marks), {id} - {""}, s)
    {
      marks := RaiseOne(marks, id, s);
    }

    method NotePayload(p: Payload, s: nat)
      modifies this`marks
      ensures marks == Raise(old(marks), Fences(p), s)
    {
      RaiseTwice(marks, {p.id} - {""}, {p.root} - {""}, s);
      assert ({p.id} - {""}) + ({p.root} - {""}) == Fences(p);
      NotePost(p.id, s);
      NotePost(p.root, s);
    }

    /** The loop that lets through what no newer observation fences. */
    method Filter(rows: seq<Row>, s: nat) returns (posts: map<Id, Payload>)
      ensures posts == Accepted(rows, marks, s)
    {
      posts := map[];
      var i := 0;
      while i < |rows|
        invariant i <= |rows| && posts == Accepted(rows[..i], marks, s)
      {
        assert rows[..i + 1][..i] == rows[..i];
        var name := if rows[i].post.id != "" then rows[i].post.id else rows[i].key;
        if name != "" && !(name in marks && marks[name] > s) {
          posts := posts[name := rows[i].post];
        }
        i := i + 1;
      }
      assert rows[..i] == rows;
    }

    /** The loop that fences everything let through before any of it is written. */
    method NoteAccepted(posts: map<Id, Payload>, s: nat)
      modifies this`marks
      ensures marks == Raise(old(marks), AllFences(posts), s)
    {
      var left := posts.Keys;
      while left != {}
        invariant left <= posts.Keys && RaisedSoFar(marks, old(marks), posts, left, s)
        decreases |left|
      {
        var k :| k in left;
        FencesButStep(posts, left, k);
        RaiseTwice(old(marks), FencesBut(posts, left), Fences(posts[k]), s);
        NotePayload(posts[k], s);
        left := left - {k};
      }
      assert FencesBut(posts, {}) == AllFences(posts);
    }

    /** One post is merged into its channel. */
    method MergePost(channel: Id, id: Id, p: Payload, s: nat)
      modifies this`bodies
      ensures bodies == Merged(old(bodies), channel, map[id := p], s)
    {
      var spot := Spot(channel, id);
      if p.id != id {
        return;
      }
      if spot !in bodies {
        bodies := bodies[spot := Body(p.channel, p.root, p.createAt, p.content, s)];
        return;
      }
      var b := bodies[spot];
      if b.channel == p.channel && b.root == p.root && b.createAt == p.createAt {
        bodies := bodies[spot := b.(content := p.content, authority := s)];
      }
    }

    method MergeAccepted(channel: Id, posts: map<Id, Payload>, s: nat)
      modifies this`bodies
      ensures bodies == Merged(old(bodies), channel, posts, s)
    {
      var left := posts.Keys;
      while left != {}
        invariant left <= posts.Keys && MergedSoFar(bodies, old(bodies), channel, posts, left, s)
        decreases |left|
      {
        var k :| k in left;
        MergedStep(old(bodies), channel, posts, left, k, s);
        MergePost(channel, k, posts[k], s);
        left := left - {k};
      }
      assert DoneBut(posts, {}) == posts;
    }

    method Ingest(channel: Id, rows: seq<Row>, s: nat)
      modifies this
      ensures View() == Ingested(old(View()), channel, rows, s)
    {
      var posts := Filter(rows, s);
      NoteAccepted(posts, s);
      MergeAccepted(channel, posts, s);
      latest := Raise(latest, AllFences(posts), s);
    }

    /** The loop over a cached read: only what is not resident and was not observed since. */
    method FilterCached(channel: Id, rows: seq<Row>, s: nat) returns (posts: map<Id, Payload>)
      ensures posts == Absent(rows, marks, bodies, channel, s)
    {
      posts := map[];
      var i := 0;
      while i < |rows|
        invariant i <= |rows| && posts == Absent(rows[..i], marks, bodies, channel, s)
      {
        assert rows[..i + 1][..i] == rows[..i];
        var name := if rows[i].post.id != "" then rows[i].post.id else rows[i].key;
        if name != "" && Spot(channel, name) !in bodies && !(name in marks && marks[name] > s) {
          posts := posts[name := rows[i].post];
        }
        i := i + 1;
      }
      assert rows[..i] == rows;
    }

    method IngestCached(channel: Id, rows: seq<Row>, s: nat)
      modifies this`bodies
      ensures View() == IngestedCached(old(View()), channel, rows, s)
    {
      var posts := FilterCached(channel, rows, s);
      MergeAccepted(channel, posts, 0);
    }

    method CachePostObject(p: Payload) returns (s: nat)
      modifies this
      ensures View() == Snapshot(old(View()), p) && s == observation
    {
      s := NextObservation();
      if p.id != "" {
        NotePayload(p, s);
      }
      latest := Raise(latest, if p.id == "" then {} else Fences(p), s);
    }

    method InvalidateCachedPost(id: Id) returns (s: nat)
      modifies this
      ensures View() == Observed(old(View()), {id} - {""}) && s == observation
    {
      s := NextObservation();
      NotePost(id, s);
      latest := Raise(latest, {id} - {""}, s);
    }

    /** One step, as the repository and the handlers of its events take it. */
    method Step(a: Action)
      requires Safe(View()) && Enabled(View(), a)
      modifies this
      ensures View() == Next(old(View()), a) && Safe(View())
    {
      NextSafe(View(), a, Next(View(), a));
      match a
      case Dispatch =>
        var s := NextObservation();
        flights := flights + {s};
      case StartRead =>
        var s := NextObservation();
        flights := flights + {s};
      case Reply(s, channel, rows) => Ingest(channel, rows, s);
      case CachedReply(s, channel, rows) => IngestCached(channel, rows, s);
      case Done(s) => flights := flights - {s};
      case Pruned(drop) => marks := marks - drop;
      case Evicted(spot) => bodies := bodies - {spot};
      case _ => HandleEvent(a);
    }

    method HandleEvent(a: Action)
      requires a.Posted? || a.Edited? || a.Fetched? || a.Deleted? || a.Reacted?
      modifies this
      ensures View() == Next(old(View()), a)
    {
      match a
      case Posted(p, channel, retained) =>
        var s := CachePostObject(p);
        var spot := Spot(channel, p.id);
        if retained && spot !in bodies {
          bodies := bodies[spot := Created(p, s)];
        }
      case Edited(p, channel) =>
        var s := CachePostObject(p);
        var spot := Spot(channel, p.id);
        if p.id != "" && spot in bodies {
          bodies := bodies[spot := Refreshed(bodies[spot], p, s)];
        }
      case Fetched(p, channel) =>
        if p.id != "" && channel != "" {
          var s := CachePostObject(p);
          Ingest(channel, [Row(p.id, p)], s);
        }
      case Deleted(id, channel) =>
        var s := InvalidateCachedPost(id);
        var spot := Spot(channel, id);
        if id != "" && spot in bodies {
          bodies := bodies[spot := bodies[spot].(content := bodies[spot].content.(deleted := true), authority := s)];
        }
      case Reacted(id, channel, content) =>
        var s := InvalidateCachedPost(id);
        var spot := Spot(channel, id);
        if id != "" && spot in bodies {
          bodies := bodies[spot := bodies[spot].(content := content, authority := s)];
        }
    }
  }

  // ---------------------------------------------------------------- shared requests

  /** The table of GETs in flight, with its history. */
  class SharedGets {
    var observation: nat
    var flights: map<C.Key, C.Flight>
    var fans: seq<C.Fan>
    var requests: seq<C.Request>
    var owner: seq<Option<nat>>
    var status: seq<C.Status>
    var calls: seq<C.Call>

    ghost function View(): C.World
      reads this
    {
      C.World(observation, flights, fans, requests, owner, status, calls)
    }

    method CoalescedGet(key: C.Key, callback: bool)
      modifies this
      ensures View() == C.Get(old(View()), key, callback)
    {
      if key.path == "" {
        if callback {
          calls := calls + [C.Call(|owner|, 0)];
          owner, status := owner + [None], status + [C.Called];
        }
        return;
      }
      if key !in flights {
        observation := observation + 1;
        flights := flights[key := C.Flight(|requests|, [])];
        requests := requests + [C.Request(key, observation)];
      }
      if callback {
        var f := flights[key];
        flights := flights[key := f.(waiting := f.waiting + [|owner|])];
        owner, status := owner + [Some(f.request)], status + [C.Waiting];
      }
    }

    /** The reply: its entry leaves the table first; then every callback that joined is due. */
    method Replied(key: C.Key)
      requires key in flights
      modifies this
      ensures View() == C.Complete(old(View()), key)
    {
      var f := flights[key];
      flights := flights - {key};
      fans := fans + [C.Fan(f.request, f.waiting)];
      var i := 0;
      ghost var before := status;
      while i < |status|
        modifies this`status
        invariant i <= |status| == |before|
        invariant forall j :: 0 <= j < |status| ==>
          status[j] == if j < i && j in f.waiting then C.Due else before[j]
      {
        if i in f.waiting {
          status := status[i := C.Due];
        }
        i := i + 1;
      }
    }

    method CallNextCallback()
      requires C.Enabled(View(), C.NextCallback)
      modifies this
      ensures View() == C.CallNext(old(View()))
    {
      var n := |fans| - 1;
      var f := fans[n];
      fans := fans[n := f.(left := f.left[1..])];
      status := status[f.left[0] := C.Called];
      calls := calls + [C.Call(f.left[0], requests[f.request].observation)];
    }
  }
}
