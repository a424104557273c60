/** First in, first out, over runs: a post is sent only after everything enqueued before it was confirmed or cancelled. */
module OutboxFifo {
  import opened Prelude
  import opened OutboxModel
  import opened OutboxSafety
  import opened OutboxRuns
  import opened OutboxTheorems

  /** The post is confirmed: its request succeeds, or the server is seen to have it. */
  predicate Confirms(a: Action, id: Id) {
    match a
    case Arrive(arrival) => arrival.pendingId == id
    case Deliver(Reply(x, _), outcome, _) => x == id && outcome.Accepted?
    case _ => false
  }

  /** The ways out of the outbox: a post is confirmed, or the user cancels it. */
  predicate Leaves(a: Action, id: Id) {
    a == Cancel(id) || Confirms(a, id)
  }

  predicate InPlace(p: Post, q: Post) {
    q.conversation == p.conversation && q.ticket == p.ticket && q.message == p.message
    && Bare(q.attachments) == Bare(p.attachments)
  }

  /** The post keeps its place, or it is gone and that was its way out (`out`). */
  ghost predicate Stays(a: map<Id, Post>, b: map<Id, Post>, id: Id, out: bool)
    requires id in a
  {
    if id in b then InPlace(a[id], b[id]) else out
  }

  lemma CalmStays(w: World, v: World, id: Id)
    requires SameRows(w.flow.posts, v.flow.posts) && id in w.flow.posts
    ensures Stays(w.flow.posts, v.flow.posts, id, false)
  {
    RowFacts(w.flow.posts[id], v.flow.posts[id]);
    assert Intent(v.flow.posts[id]).message == Intent(w.flow.posts[id]).message;
    assert Intent(v.flow.posts[id]).attachments == Intent(w.flow.posts[id]).attachments;
  }

  lemma RemoveStays(w: World, x: Id, id: Id)
    requires id in w.flow.posts
    ensures Stays(w.flow.posts, Remove(w, x).flow.posts, id, x == id)
  {
  }

  lemma ConfirmStays(w: World, x: Id, serverId: Id, id: Id)
    requires id in w.flow.posts
    ensures Stays(w.flow.posts, Confirm(w, x, serverId).flow.posts, id, x == id)
  {
    if x in w.flow.posts {
      RemoveStays(Remember(w, serverId), x, id);
    }
  }

  lemma ReplyStays(w: World, x: Id, g: nat, outcome: Outcome, id: Id, r: World)
    requires id in w.flow.posts && r == OnReply(w, x, g, outcome)
    ensures Stays(w.flow.posts, r.flow.posts, id, x == id && outcome.Accepted?)
  {
    if x in w.flow.posts && outcome.Accepted? {
      ConfirmStays(w, x, outcome.serverId, id);
    } else if x in w.flow.posts && r.flow == ScheduleRetry(w.flow, x, w.now) {
      WaitRow(w.flow, x, w.now);
      CalmStays(w, r, id);
    } else {
      FailOrNot(w, x, r);
      CalmStays(w, r, id);
    }
  }

  lemma AttemptStays(w: World, x: Id, id: Id, r: World)
    requires id in w.flow.posts && r == Attempt(w, x)
    ensures Stays(w.flow.posts, r.flow.posts, id, false)
  {
    if x in w.flow.posts {
      AttemptedPlace(w.flow.posts[x], w.now, w.channels);
    }
  }

  lemma AttemptedPlace(p: Post, now: nat, channels: set<Id>)
    ensures InPlace(p, Attempted(p, now, channels))
  {
  }

  lemma HandleStays(w: World, e: Event, outcome: Outcome, fileId: Id, id: Id, r: World)
    requires id in w.flow.posts && r == Handle(w, e, outcome, fileId)
    ensures Stays(w.flow.posts, r.flow.posts, id, e.Reply? && e.id == id && outcome.Accepted?)
  {
    match e
    case Start(c) => CalmStays(w, r, id);
    case Fire(x, g) => AttemptStays(w, x, id, Attempt(w, x));
    case RetryDue(x, g, _) =>
      if x in w.flow.posts {
        RequeueCalm(w, x, r);
      }
      CalmStays(w, r, id);
    case Deadline(x, window, _) => FailOrNot(w, x, r); CalmStays(w, r, id);
    case Reply(x, g) => ReplyStays(w, x, g, outcome, id, r);
    case Forget(_, _) =>
    case UploadReply(u, g) => CalmStays(w, r, id);
    case SaveAgain(_) =>
  }

  lemma SubmitStays(w: World, d: Draft, id: Id, r: World)
    requires |d.uuids| == |d.attachments| && id in w.flow.posts && r == Enqueue(w, d).0
    ensures Stays(w.flow.posts, r.flow.posts, id, false)
  {
    if Enqueueable(d) && d.id !in w.flow.posts {
      var s := StageAll(w, d.conversation.channel, [], d.attachments, d.uuids, false, false);
      CalmStays(w, StagedWorld(s), id);
    }
  }

  lemma RetryStays(w: World, x: Id, tail: nat, uuids: seq<Id>, id: Id, r: World)
    requires x in w.flow.posts && |uuids| == |w.flow.posts[x].attachments| && r == Retry(w, x, tail, uuids)
    requires id in w.flow.posts
    ensures Stays(w.flow.posts, r.flow.posts, id, false)
  {
    if w.flow.posts[x].state == Failed {
      var v := Reopen(w, x, tail);
      CalmStays(v, RestartAll(v, x, 0, uuids).0, id);
    }
  }

  lemma ArriveStays(w: World, arrival: Arrival, id: Id, r: World)
    requires id in w.flow.posts && r == Authoritative(w, arrival)
    ensures Stays(w.flow.posts, r.flow.posts, id, arrival.pendingId == id)
  {
    if arrival.pendingId != "" && arrival.pendingId in w.flow.posts {
      ConfirmStays(w, arrival.pendingId, arrival.id, id);
    }
  }

  /** A step leaves a post's place alone, unless it confirms or cancels it. */
  lemma StepStays(w: World, a: Action, id: Id, r: World)
    requires Enabled(w, a) && id in w.flow.posts && r == Next(w, a)
    ensures Stays(w.flow.posts, r.flow.posts, id, Leaves(a, id))
  {
    match a
    case Submit(d) => SubmitStays(w, d, id, r);
    case UserRetry(x, tail, uuids) =>
      if x in w.flow.posts {
        RetryStays(w, x, tail, uuids, id, r);
      }
    case Cancel(x) => RemoveStays(w, x, id);
    case ComposerStage(channel, path, u) => CalmStays(w, r, id);
    case Arrive(arrival) => ArriveStays(w, arrival, id, r);
    case Deliver(e, outcome, fileId) => HandleStays(Taken(w, e), e, outcome, fileId, id, r);
    case _ =>
  }

  // ---------------------------------------------------------------- over runs

  /** At step k the post leaves the outbox, and the step is one of its ways out. */
  ghost predicate LeftAt(ws: seq<World>, acts: seq<Action>, id: Id, k: nat)
    requires |ws| == |acts| + 1 && k < |acts|
  {
    id in ws[k].flow.posts && id !in ws[k + 1].flow.posts && Leaves(acts[k], id)
  }

  /** A post that was in the outbox is there still, in its place, or has been confirmed or cancelled in between. */
  ghost predicate ThereOrLeft(ws: seq<World>, acts: seq<Action>, id: Id, i: nat, m: nat)
    requires |ws| == |acts| + 1 && i <= m < |ws| && id in ws[i].flow.posts
  {
    (id in ws[m].flow.posts && InPlace(ws[i].flow.posts[id], ws[m].flow.posts[id]))
    || exists k :: i <= k < m && LeftAt(ws, acts, id, k)
  }

  lemma StillOrLeft(ws: seq<World>, acts: seq<Action>, id: Id, i: nat, m: nat)
    requires IsRun(ws, acts) && i <= m < |acts| && id in ws[i].flow.posts && ThereOrLeft(ws, acts, id, i, m)
    ensures ThereOrLeft(ws, acts, id, i, m + 1)
  {
    if id in ws[m].flow.posts && InPlace(ws[i].flow.posts[id], ws[m].flow.posts[id]) {
      StepStays(ws[m], acts[m], id, ws[m + 1]);
      if id !in ws[m + 1].flow.posts {
        assert LeftAt(ws, acts, id, m);
      }
    }
  }

  /** Pure induction: what is kept from one index to the next is kept to all later ones. */
  lemma {:induction false} Onwards(ws: seq<World>, acts: seq<Action>, id: Id, i: nat, m: nat)
    requires |ws| == |acts| + 1 && i <= m < |ws| && id in ws[i].flow.posts
    requires forall n :: i <= n < |acts| && ThereOrLeft(ws, acts, id, i, n) ==> ThereOrLeft(ws, acts, id, i, n + 1)
    ensures ThereOrLeft(ws, acts, id, i, m)
  {
    if i < m {
      Onwards(ws, acts, id, i, m - 1);
    }
  }

  lemma PlaceKept(ws: seq<World>, acts: seq<Action>, id: Id, i: nat, m: nat)
    requires IsRun(ws, acts) && i <= m < |ws| && id in ws[i].flow.posts
    ensures ThereOrLeft(ws, acts, id, i, m)
  {
    forall n | i <= n < |acts| && ThereOrLeft(ws, acts, id, i, n) ensures ThereOrLeft(ws, acts, id, i, n + 1) {
      StillOrLeft(ws, acts, id, i, n);
    }
    Onwards(ws, acts, id, i, m);
  }

  /** A post that is first of its conversation has no earlier one beside it. */
  lemma NoneEarlier(posts: map<Id, Post>, first: Id, p: Post, id: Id)
    requires first in posts && First(posts, first)
    requires p.conversation == posts[first].conversation && p.ticket < posts[first].ticket
    ensures !(id in posts && InPlace(p, posts[id]))
  {
  }

  /**
   * Whenever a post is transmitted, every post that was enqueued earlier in the same conversation has left the outbox
   * before - confirmed or cancelled, and in no other way.
   */
  lemma EarlierPostsHaveLeft(ws: seq<World>, acts: seq<Action>, id: Id, i: nat, m: nat)
    requires IsRun(ws, acts) && Initial(ws[0]) && i <= m < |acts| && id in ws[i].flow.posts
    requires ws[m + 1].wire != ws[m].wire && |ws[m + 1].wire| > 0
    requires var t := ws[m + 1].wire[|ws[m + 1].wire| - 1];
      t.conversation == ws[i].flow.posts[id].conversation && t.ticket > ws[i].flow.posts[id].ticket
    ensures exists k :: i <= k < m && LeftAt(ws, acts, id, k)
  {
    InitialSafe(ws[0]);
    RunSafe(ws, acts, m);
    TransmissionNeedsHead(ws[m], acts[m], ws[m + 1]);
    PlaceKept(ws, acts, id, i, m);
    NoneEarlier(ws[m].flow.posts, ws[m + 1].wire[|ws[m].wire|].id, ws[i].flow.posts[id], id);
  }
}
