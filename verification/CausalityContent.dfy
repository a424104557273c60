/** What a resident body says is what the observation behind it brought. */
module CausalityContent {
  import opened Prelude
  import opened Causality

  // ---------------------------------------------------------------- replies

  /** Row n is the last of its name in the reply. */
  predicate LastOfName(rows: seq<Row>, n: nat)
    requires n < |rows|
  {
    forall m :: n < m < |rows| ==> Name(rows[m]) != Name(rows[n])
  }

  /** Of the rows of a name the last counts, if no newer observation of the post fences the reply. */
  lemma {:induction false} LastCounts(rows: seq<Row>, marks: map<Id, nat>, s: nat, n: nat)
    requires n < |rows| && LastOfName(rows, n) && Name(rows[n]) != "" && Known(marks, Name(rows[n])) <= s
    ensures Name(rows[n]) in Accepted(rows, marks, s) && Accepted(rows, marks, s)[Name(rows[n])] == rows[n].post
  {
    var front := rows[..|rows| - 1];
    if n < |rows| - 1 {
      assert forall m :: 0 <= m < |front| ==> front[m] == rows[m];
      LastCounts(front, marks, s, n);
      assert Name(rows[|rows| - 1]) != Name(rows[n]);
    }
  }

  /** Whatever is accepted is a row of the reply. */
  lemma {:induction false} AcceptedIsRow(rows: seq<Row>, marks: map<Id, nat>, s: nat, id: Id)
    requires id in Accepted(rows, marks, s)
    ensures exists n :: 0 <= n < |rows| && Name(rows[n]) == id && rows[n].post == Accepted(rows, marks, s)[id]
  {
    var (front, r) := (rows[..|rows| - 1], rows[|rows| - 1]);
    if Admissible(marks, Name(r), s) && Name(r) == id {
      assert rows[|rows| - 1].post == Accepted(rows, marks, s)[id];
    } else {
      AcceptedIsRow(front, marks, s, id);
      var n :| 0 <= n < |front| && Name(front[n]) == id && front[n].post == Accepted(front, marks, s)[id];
      assert rows[n] == front[n];
    }
  }

  /** Same channel, thread and creation time: the snapshot is of this post. */
  predicate Agrees(b: Body, p: Payload) {
    b.channel == p.channel && b.root == p.root && b.createAt == p.createAt
  }

  /**
   * A reply that nothing newer fences puts the content of its last row of a post into the resident body - which keeps
   * its place in the timeline, and stays as it is if the row contradicts it - and fills a gap with the row as it is.
   */
  lemma ReplyWritesContent(w: World, s: nat, channel: Id, rows: seq<Row>, n: nat)
    requires n < |rows| && LastOfName(rows, n) && rows[n].post.id != "" && Known(w.marks, rows[n].post.id) <= s
    ensures var (v, p) := (Next(w, Reply(s, channel, rows)), rows[n].post);
      var spot := Spot(channel, p.id);
      && spot in v.bodies
      && v.bodies[spot] == if spot !in w.bodies then Body(p.channel, p.root, p.createAt, p.content, s)
                           else if Agrees(w.bodies[spot], p) then w.bodies[spot].(content := p.content, authority := s)
                           else w.bodies[spot]
  {
    LastCounts(rows, w.marks, s, n);
  }

  /** A cached read that nothing newer fences fills a gap with its last row of the post. */
  lemma CachedFillsContent(w: World, s: nat, channel: Id, rows: seq<Row>, n: nat)
    requires n < |rows| && LastOfName(rows, n) && rows[n].post.id != "" && Known(w.marks, rows[n].post.id) <= s
    ensures var (v, p) := (Next(w, CachedReply(s, channel, rows)), rows[n].post);
      var spot := Spot(channel, p.id);
      && spot in v.bodies
      && v.bodies[spot] == if spot in w.bodies then w.bodies[spot] else Body(p.channel, p.root, p.createAt, p.content, 0)
  {
    LastCounts(rows, w.marks, s, n);
  }

  // ---------------------------------------------------------------- events

  /** A posted event creates the body it reports, where its channel keeps bodies and has none yet. */
  lemma PostedCreates(w: World, p: Payload, channel: Id, retained: bool)
    requires p.id != ""
    ensures var (v, spot) := (Next(w, Posted(p, channel, retained)), Spot(channel, p.id));
      && (spot in v.bodies <==> spot in w.bodies || retained)
      && (spot in v.bodies ==> v.bodies[spot] == if spot in w.bodies then w.bodies[spot]
            else Body(p.channel, p.root, p.createAt, p.content, w.observation + 1))
  {
  }

  /** An edit puts its content into the resident body of that post. */
  lemma EditedWrites(w: World, p: Payload, channel: Id)
    requires p.id != "" && Spot(channel, p.id) in w.bodies && Agrees(w.bodies[Spot(channel, p.id)], p)
    ensures var (v, spot) := (Next(w, Edited(p, channel)), Spot(channel, p.id));
      spot in v.bodies && v.bodies[spot] == w.bodies[spot].(content := p.content, authority := w.observation + 1)
  {
  }

  /** A deletion keeps the text of the resident body and marks it; a reaction puts its content there. */
  lemma RewritesContent(w: World, id: Id, channel: Id, content: Content)
    requires id != "" && Spot(channel, id) in w.bodies
    ensures var (v, spot) := (Next(w, Deleted(id, channel)), Spot(channel, id));
      spot in v.bodies && v.bodies[spot].content == Content(w.bodies[spot].content.text, true)
      && v.bodies[spot].authority == w.observation + 1
    ensures var (v, spot) := (Next(w, Reacted(id, channel, content)), Spot(channel, id));
      spot in v.bodies && v.bodies[spot] == w.bodies[spot].(content := content, authority := w.observation + 1)
  {
  }

  /** A post fetched for its own sake is written like a reply of the newest observation. */
  lemma FetchedWrites(w: World, p: Payload, channel: Id)
    requires Safe(w) && p.id != "" && channel != ""
    ensures var (v, spot) := (Next(w, Fetched(p, channel)), Spot(channel, p.id));
      && spot in v.bodies
      && v.bodies[spot] == if spot !in w.bodies then Body(p.channel, p.root, p.createAt, p.content, w.observation + 1)
                           else if Agrees(w.bodies[spot], p)
                           then w.bodies[spot].(content := p.content, authority := w.observation + 1)
                           else w.bodies[spot]
  {
    FencedMark(w, p);
    FetchedOne(Observed(w, Fences(p)), p, channel);
  }

  lemma FencedMark(w: World, p: Payload)
    requires Safe(w) && p.id != ""
    ensures Known(Observed(w, Fences(p)).marks, p.id) <= w.observation + 1
  {
  }

  lemma FetchedOne(u: World, p: Payload, channel: Id)
    requires p.id != "" && Known(u.marks, p.id) <= u.observation
    ensures var (v, spot) := (IngestedOne(u, channel, p), Spot(channel, p.id));
      && spot in v.bodies
      && v.bodies[spot] == if spot !in u.bodies then Body(p.channel, p.root, p.createAt, p.content, u.observation)
                           else if Agrees(u.bodies[spot], p) then u.bodies[spot].(content := p.content, authority := u.observation)
                           else u.bodies[spot]
  {
    ReplyWritesContent(u, u.observation, channel, [Row(p.id, p)], 0);
  }

  // ---------------------------------------------------------------- over runs

  /** The reply has a row of this post with this content. */
  ghost predicate HasRow(rows: seq<Row>, id: Id, content: Content) {
    exists n :: 0 <= n < |rows| && rows[n].post.id == id && rows[n].post.content == content
  }

  /** The action says this of the post, with this observation. */
  ghost predicate Says(w: World, a: Action, spot: Spot, content: Content, observation: nat) {
    match a
    case Reply(s, channel, rows) => channel == spot.channel && observation == s && HasRow(rows, spot.id, content)
    case Posted(p, channel, _) =>
      channel == spot.channel && p.id == spot.id && p.content == content && observation == w.observation + 1
    case Edited(p, channel) =>
      channel == spot.channel && p.id == spot.id && p.content == content && observation == w.observation + 1
    case Fetched(p, channel) =>
      channel == spot.channel && p.id == spot.id && p.content == content && observation == w.observation + 1
    case Deleted(id, channel) =>
      channel == spot.channel && id == spot.id && content.deleted && observation == w.observation + 1
      && spot in w.bodies && content.text == w.bodies[spot].content.text
    case Reacted(id, channel, c) =>
      channel == spot.channel && id == spot.id && c == content && observation == w.observation + 1
    case _ => false
  }

  ghost predicate Kept(w: World, v: World, spot: Spot) {
    spot in w.bodies && spot in v.bodies && v.bodies[spot] == w.bodies[spot]
  }

  lemma ReplySays(w: World, s: nat, channel: Id, rows: seq<Row>, spot: Spot)
    requires spot in Ingested(w, channel, rows, s).bodies && !Kept(w, Ingested(w, channel, rows, s), spot)
    ensures var b := Ingested(w, channel, rows, s).bodies[spot];
      channel == spot.channel && b.authority == s && HasRow(rows, spot.id, b.content)
  {
    AcceptedIsRow(rows, w.marks, s, spot.id);
  }

  lemma CachedSays(w: World, s: nat, channel: Id, rows: seq<Row>, spot: Spot)
    requires spot in IngestedCached(w, channel, rows, s).bodies && !Kept(w, IngestedCached(w, channel, rows, s), spot)
    ensures IngestedCached(w, channel, rows, s).bodies[spot].authority == 0
  {
  }

  /** A step leaves a body as it is, or writes what it says; what a cached read adds carries no observation. */
  lemma StepSays(w: World, a: Action, v: World, spot: Spot)
    requires v == Next(w, a) && spot in v.bodies && v.bodies[spot].authority > 0 && !Kept(w, v, spot)
    ensures Says(w, a, spot, v.bodies[spot].content, v.bodies[spot].authority)
  {
    match a
    case Reply(s, channel, rows) => ReplySays(w, s, channel, rows, spot);
    case CachedReply(s, channel, rows) => CachedSays(w, s, channel, rows, spot);
    case Fetched(p, channel) => FetchedSays(w, p, channel, v, spot);
    case _ => EventSays(w, a, v, spot);
  }

  lemma FetchedSays(w: World, p: Payload, channel: Id, v: World, spot: Spot)
    requires v == FetchedIn(w, p, channel) && spot in v.bodies && !Kept(w, v, spot)
    ensures channel == spot.channel && p.id == spot.id && v.bodies[spot].content == p.content
    ensures v.bodies[spot].authority == w.observation + 1
  {
    if p.id != "" && channel != "" {
      OneSays(Observed(w, Fences(p)), p, channel, spot, v);
    }
  }

  lemma OneSays(u: World, p: Payload, channel: Id, spot: Spot, v: World)
    requires p.id != "" && v == IngestedOne(u, channel, p) && spot in v.bodies && !Kept(u, v, spot)
    ensures channel == spot.channel && p.id == spot.id && v.bodies[spot].content == p.content && v.bodies[spot].authority == u.observation
  {
    ReplySays(u, u.observation, channel, [Row(p.id, p)], spot);
  }

  lemma EventSays(w: World, a: Action, v: World, spot: Spot)
    requires v == Next(w, a) && spot in v.bodies && v.bodies[spot].authority > 0 && !Kept(w, v, spot)
    requires !a.Reply? && !a.CachedReply? && !a.Fetched?
    ensures Says(w, a, spot, v.bodies[spot].content, v.bodies[spot].authority)
  {
  }

  /** At step j the server said this of the post. */
  ghost predicate SaidAt(ws: seq<World>, acts: seq<Action>, j: nat, spot: Spot, content: Content, observation: nat)
    requires |ws| == |acts| + 1
  {
    j < |acts| && Says(ws[j], acts[j], spot, content, observation)
  }

  ghost predicate SaidBefore(ws: seq<World>, acts: seq<Action>, i: nat, spot: Spot, content: Content, observation: nat)
    requires |ws| == |acts| + 1
  {
    exists j: nat :: j < i && SaidAt(ws, acts, j, spot, content, observation)
  }

  lemma SaidLater(ws: seq<World>, acts: seq<Action>, i: nat, spot: Spot, content: Content, observation: nat)
    requires |ws| == |acts| + 1 && SaidBefore(ws, acts, i, spot, content, observation)
    ensures SaidBefore(ws, acts, i + 1, spot, content, observation)
  {
  }

  /** Over every run a body with an observation behind it says what the server said with just that observation. */
  lemma {:induction false} BodiesSayWhatWasSaid(ws: seq<World>, acts: seq<Action>, i: nat, spot: Spot)
    requires IsRun(ws, acts) && i < |ws| && spot in ws[i].bodies && ws[i].bodies[spot].authority > 0
    ensures SaidBefore(ws, acts, i, spot, ws[i].bodies[spot].content, ws[i].bodies[spot].authority)
    decreases i
  {
    if i > 0 {
      assert Step(ws[i - 1], acts[i - 1], ws[i]);
      if Kept(ws[i - 1], ws[i], spot) {
        BodiesSayWhatWasSaid(ws, acts, i - 1, spot);
        SaidLater(ws, acts, i - 1, spot, ws[i].bodies[spot].content, ws[i].bodies[spot].authority);
      } else {
        StepSays(ws[i - 1], acts[i - 1], ws[i], spot);
        assert SaidAt(ws, acts, i - 1, spot, ws[i].bodies[spot].content, ws[i].bodies[spot].authority);
      }
    }
  }

  /** The body changes between these steps. */
  ghost predicate WrittenBetween(ws: seq<World>, acts: seq<Action>, i: nat, m: nat, spot: Spot)
    requires |ws| == |acts| + 1 && m <= |acts|
  {
    exists j :: i <= j < m && Written(ws, acts, j, spot)
  }

  lemma {:induction false} UnwrittenStays(ws: seq<World>, acts: seq<Action>, i: nat, m: nat, spot: Spot)
    requires |ws| == |acts| + 1 && i <= m < |ws| && spot in ws[m].bodies && !WrittenBetween(ws, acts, i, m, spot)
    ensures spot in ws[i].bodies && ws[m].bodies[spot] == ws[i].bodies[spot]
    decreases m
  {
    if i < m {
      assert !Written(ws, acts, m - 1, spot);
      assert !WrittenBetween(ws, acts, i, m - 1, spot);
      UnwrittenStays(ws, acts, i, m - 1, spot);
    }
  }

  /** Step j writes something newer than the event of step i, or fills a gap from a read begun after it. */
  ghost predicate NewerWrite(ws: seq<World>, acts: seq<Action>, i: nat, j: nat, spot: Spot)
    requires |ws| == |acts| + 1 && i < |acts| && j < |acts|
  {
    Written(ws, acts, j, spot) && FreshWrite(ws[j], acts[j], ws[j + 1], spot, ws[i].observation + 1)
  }

  /**
   * Over every run a deleted post stays deleted in its channel, until something newer than the deletion is written
   * there - or a gap, left by an eviction, is filled by a read begun after it.
   */
  lemma DeletedStaysDeleted(ws: seq<World>, acts: seq<Action>, i: nat, m: nat, spot: Spot)
    requires IsRun(ws, acts) && i < m < |ws| && acts[i] == Deleted(spot.id, spot.channel) && spot.id != ""
    requires spot in ws[i].bodies && spot in ws[m].bodies && !ws[m].bodies[spot].content.deleted
    ensures exists j :: i < j < m && NewerWrite(ws, acts, i, j, spot)
  {
    assert Step(ws[i], acts[i], ws[i + 1]);
    RewritesContent(ws[i], spot.id, spot.channel, Content("", true));
    if !WrittenBetween(ws, acts, i + 1, m, spot) {
      UnwrittenStays(ws, acts, i + 1, m, spot);
    }
    var j :| i + 1 <= j < m && Written(ws, acts, j, spot);
    NothingResurrects(ws, acts, i, j, spot);
    assert NewerWrite(ws, acts, i, j, spot);
  }
}
