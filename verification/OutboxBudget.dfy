/** The retry budget over runs, what counts as an intervening post, and the outbox file on disk. */
module OutboxBudget {
  import opened Prelude
  import opened OutboxModel
  import opened OutboxSafety
  import opened OutboxRuns
  import opened OutboxTheorems
  import opened OutboxProgress

  // ---------------------------------------------------------------- transmissions per window

  function Sends(wire: seq<Transmission>, id: Id): nat {
    if wire == [] then 0
    else Sends(wire[..|wire| - 1], id) + (if wire[|wire| - 1].id == id then 1 else 0)
  }

  /** The attempts of a post that stays in the outbox, across one step. */
  ghost predicate SameAttempts(a: map<Id, Post>, b: map<Id, Post>, id: Id) {
    id in b ==> id in a && b[id].attempts == a[id].attempts
  }

  lemma CalmAttempts(w: World, v: World, id: Id)
    requires SameRows(w.flow.posts, v.flow.posts)
    ensures SameAttempts(w.flow.posts, v.flow.posts, id)
  {
    if id in w.flow.posts {
      RowFacts(w.flow.posts[id], v.flow.posts[id]);
    }
  }

  lemma RemoveAttempts(w: World, x: Id, id: Id)
    ensures SameAttempts(w.flow.posts, Remove(w, x).flow.posts, id)
  {
  }

  lemma ConfirmAttempts(w: World, x: Id, serverId: Id, id: Id)
    ensures SameAttempts(w.flow.posts, Confirm(w, x, serverId).flow.posts, id)
  {
    if x in w.flow.posts {
      RemoveAttempts(Remember(w, serverId), x, id);
    }
  }

  lemma HandleAttempts(w: World, e: Event, outcome: Outcome, fileId: Id, id: Id, r: World)
    requires !e.Fire? && r == Handle(w, e, outcome, fileId)
    ensures SameAttempts(w.flow.posts, r.flow.posts, id)
  {
    match e
    case Start(c) => CalmAttempts(w, r, id);
    case RetryDue(x, g, _) =>
      if x in w.flow.posts {
        RequeueCalm(w, x, r);
      }
      CalmAttempts(w, r, id);
    case Deadline(x, window, _) => FailOrNot(w, x, r); CalmAttempts(w, r, id);
    case Reply(x, g) => ReplyAttempts(w, x, g, outcome, id, r);
    case Forget(_, _) =>
    case UploadReply(u, g) => CalmAttempts(w, r, id);
    case SaveAgain(_) =>
  }

  lemma ReplyAttempts(w: World, x: Id, g: nat, outcome: Outcome, id: Id, r: World)
    requires r == OnReply(w, x, g, outcome)
    ensures SameAttempts(w.flow.posts, r.flow.posts, id)
  {
    if x in w.flow.posts && outcome.Accepted? {
      ConfirmAttempts(w, x, outcome.serverId, id);
    } else if x in w.flow.posts && r.flow == ScheduleRetry(w.flow, x, w.now) {
      WaitRow(w.flow, x, w.now);
      CalmAttempts(w, r, id);
    } else {
      FailOrNot(w, x, r);
      CalmAttempts(w, r, id);
    }
  }

  lemma SubmitAttempts(w: World, d: Draft, id: Id, r: World)
    requires |d.uuids| == |d.attachments| && (d.id in w.flow.posts || d.id != id) && r == Enqueue(w, d).0
    ensures SameAttempts(w.flow.posts, r.flow.posts, id)
  {
    if Enqueueable(d) && d.id !in w.flow.posts {
      var s := StageAll(w, d.conversation.channel, [], d.attachments, d.uuids, false, false);
      CalmAttempts(w, StagedWorld(s), id);
    }
  }

  lemma RetryAttempts(w: World, x: Id, tail: nat, uuids: seq<Id>, id: Id, r: World)
    requires x in w.flow.posts && |uuids| == |w.flow.posts[x].attachments| && x != id && r == Retry(w, x, tail, uuids)
    ensures SameAttempts(w.flow.posts, r.flow.posts, id)
  {
    if w.flow.posts[x].state == Failed {
      var v := Reopen(w, x, tail);
      CalmAttempts(v, RestartAll(v, x, 0, uuids).0, id);
    }
  }

  /** Only a transmission of the post itself, or a user retry of it, changes how many attempts it has used. */
  lemma StepAttempts(w: World, a: Action, id: Id, r: World)
    requires Enabled(w, a) && Ledger(w) && r == Next(w, a) && id in w.used
    requires !(a.UserRetry? && a.id == id) && !(a.Deliver? && a.event.Fire?)
    ensures SameAttempts(w.flow.posts, r.flow.posts, id)
  {
    match a
    case Submit(d) => UserAttempts(w, a, id, r);
    case UserRetry(_, _, _) => UserAttempts(w, a, id, r);
    case Cancel(x) => RemoveAttempts(w, x, id);
    case ComposerStage(channel, path, u) => CalmAttempts(w, r, id);
    case Arrive(arrival) => ArriveAttempts(w, arrival, id, r);
    case Deliver(e, outcome, fileId) => HandleAttempts(Taken(w, e), e, outcome, fileId, id, r);
    case _ =>
  }

  lemma ArriveAttempts(w: World, arrival: Arrival, id: Id, r: World)
    requires r == Authoritative(w, arrival)
    ensures SameAttempts(w.flow.posts, r.flow.posts, id)
  {
    if arrival.pendingId != "" && arrival.pendingId in w.flow.posts {
      ConfirmAttempts(w, arrival.pendingId, arrival.id, id);
    }
  }

  lemma UserAttempts(w: World, a: Action, id: Id, r: World)
    requires Enabled(w, a) && r == Next(w, a) && id in w.used
    requires a.Submit? || (a.UserRetry? && a.id != id)
    ensures SameAttempts(w.flow.posts, r.flow.posts, id)
  {
    if a.Submit? {
      SubmitAttempts(w, a.draft, id, r);
    } else if a.id in w.flow.posts {
      RetryAttempts(w, a.id, a.tail, a.uuids, id, r);
    }
  }

  lemma SendsMore(wire: seq<Transmission>, t: Transmission, id: Id)
    ensures Sends(wire + [t], id) == Sends(wire, id) + (if t.id == id then 1 else 0)
  {
    assert (wire + [t])[..|wire|] == wire;
  }

  /** Requests on the wire and attempts used have grown together, if the post is still there. */
  ghost predicate Together(w: World, r: World, id: Id) {
    if id in r.flow.posts
    then id in w.flow.posts
         && Sends(r.wire, id) - Sends(w.wire, id) == r.flow.posts[id].attempts - w.flow.posts[id].attempts
    else Sends(r.wire, id) == Sends(w.wire, id)
  }

  lemma SentTogether(w: World, x: Id, id: Id, q: Post, r: World)
    requires x in w.flow.posts && q == Sent(w.flow.posts[x])
    requires r.flow.posts == w.flow.posts[x := q] && r.wire == w.wire + [Line(x, q, w.now)]
    ensures Together(w, r, id)
  {
    SendsMore(w.wire, Line(x, q, w.now), id);
  }

  lemma AttemptTogether(w: World, x: Id, id: Id, r: World)
    requires x in w.flow.posts && w.flow.posts[x].state == Queued && r == Attempt(w, x)
    ensures Together(w, r, id)
  {
    if Head(w.order, w.flow.posts, w.flow.posts[x].conversation) == Some(x) {
      var q := Attempted(w.flow.posts[x], w.now, w.channels);
      AttemptedSent(w.flow.posts[x], w.now, w.channels);
      if q.state == Sending {
        SentTogether(w, x, id, q, r);
      } else {
        CalmAttempts(w, r, id);
      }
    }
  }

  lemma FireTogether(w: World, x: Id, g: nat, id: Id, r: World)
    requires r == OnFire(w, x, g)
    ensures Together(w, r, id)
  {
    if r != w {
      AttemptTogether(w, x, id, r);
    }
  }

  /** For a post in the outbox, requests on the wire and attempts used grow together. */
  lemma StepTraffic(w: World, a: Action, id: Id, r: World)
    requires Enabled(w, a) && Ledger(w) && r == Next(w, a) && id in w.used
    requires !(a.UserRetry? && a.id == id)
    ensures Together(w, r, id)
  {
    if a.Deliver? && a.event.Fire? {
      FireTogether(Taken(w, a.event), a.event.id, a.event.generation, id, r);
    } else {
      WireGrowth(w, a);
      StepAttempts(w, a, id, r);
    }
  }

  lemma {:induction false} UsedGrows(ws: seq<World>, acts: seq<Action>, i: nat, id: Id)
    requires IsRun(ws, acts) && Safe(ws[0]) && i < |ws| && id in ws[0].used
    ensures id in ws[i].used
  {
    if i > 0 {
      UsedGrows(ws, acts, i - 1, id);
      StepUsed(ws[i - 1], acts[i - 1]);
    }
  }

  lemma StepUsed(w: World, a: Action)
    requires Enabled(w, a)
    ensures w.used <= Next(w, a).used
  {
    match a
    case Deliver(e, outcome, fileId) => HandleUsed(Taken(w, e), e, outcome, fileId);
    case _ =>
  }

  lemma HandleUsed(w: World, e: Event, outcome: Outcome, fileId: Id)
    ensures Handle(w, e, outcome, fileId).used == w.used
  {
  }

  /**
   * Between two user retries a post is put on the wire at most six times: over any run without a retry of it,
   * the requests for it number at most the attempts it had left.
   */
  lemma {:induction false} SixRequestsPerWindow(ws: seq<World>, acts: seq<Action>, id: Id, i: nat)
    requires IsRun(ws, acts) && Safe(ws[0]) && i < |ws| && id in ws[0].flow.posts
    requires forall k :: 0 <= k < i ==> !(acts[k].UserRetry? && acts[k].id == id)
    ensures id in ws[i].flow.posts ==>
      (Sends(ws[i].wire, id) - Sends(ws[0].wire, id) == ws[i].flow.posts[id].attempts - ws[0].flow.posts[id].attempts)
    ensures Sends(ws[i].wire, id) - Sends(ws[0].wire, id) <= MAX_ATTEMPTS - ws[0].flow.posts[id].attempts
  {
    RunSafe(ws, acts, i);
    if i > 0 {
      SixRequestsPerWindow(ws, acts, id, i - 1);
      RunSafe(ws, acts, i - 1);
      assert Entered(id, ws[0].flow.posts[id], ws[0]);
      UsedGrows(ws, acts, i - 1, id);
      StepTraffic(ws[i - 1], acts[i - 1], id, ws[i]);
    }
    if id in ws[i].flow.posts {
      assert Entered(id, ws[i].flow.posts[id], ws[i]);
    }
  }

  // ---------------------------------------------------------------- intervening posts

  predicate Own(w: World, a: Arrival) {
    a.pendingId != "" && a.pendingId in w.flow.posts
  }

  predicate Echo(w: World, a: Arrival) {
    a.id != "" && a.id in w.confirmed
  }

  lemma ConfirmRows(w: World, x: Id, serverId: Id, id: Id)
    requires id in Confirm(w, x, serverId).flow.posts
    ensures id in w.flow.posts && Confirm(w, x, serverId).flow.posts[id] == w.flow.posts[id]
  {
  }

  /** An echo or the confirmation of an own post changes nobody it leaves; anything else is counted post by post. */
  lemma ArrivalForms(w: World, a: Arrival, id: Id, r: World)
    requires Safe(w) && r == Authoritative(w, a) && id in w.flow.posts && id in r.flow.posts
    ensures r.flow.posts[id] ==
      if Echo(w, a) || Own(w, a) || a.id == "" || !a.visible || w.flow.posts[id].conversation != a.conversation
      then w.flow.posts[id]
      else Overtaken(w.flow.posts[id], a, Head(w.order, w.flow.posts, a.conversation) == Some(id))
  {
    HeadIsFirst(w.order, w.flow.posts, a.conversation);
    if !Echo(w, a) && Own(w, a) {
      ConfirmRows(w, a.pendingId, a.id, id);
    }
  }

  /**
   * What an authoritative post does to the count of a pending one: it is added exactly when it is new to that post,
   * belongs to its conversation, is visible, is not the echo of a confirmed post or one of the outbox's own, and is
   * later than the tail the post was enqueued behind, if that tail is known.
   */
  lemma CountedExactly(w: World, a: Arrival, id: Id, r: World)
    requires Safe(w) && r == Authoritative(w, a) && id in w.flow.posts && id in r.flow.posts
    ensures r.flow.posts[id].intervening == w.flow.posts[id].intervening +
      (if a.id != "" && a.id !in w.confirmed && a.visible && !Own(w, a)
          && w.flow.posts[id].conversation == a.conversation
          && (w.flow.posts[id].tail == 0 || a.createAt > w.flow.posts[id].tail)
       then {a.id} else {})
  {
    ArrivalForms(w, a, id, r);
  }

  /** The third newer post fails a head that is not already on the wire, and leaves one that is. */
  lemma CutOff(w: World, a: Arrival, head: Id, r: World)
    requires Safe(w) && r == Authoritative(w, a) && Head(w.order, w.flow.posts, a.conversation) == Some(head)
    requires head in w.flow.posts && head in r.flow.posts && r.flow.posts[head].intervening != w.flow.posts[head].intervening
    ensures r.flow.posts[head].state ==
      if w.flow.posts[head].state != Sending && |r.flow.posts[head].intervening| >= MAX_INTERVENING
      then Failed else w.flow.posts[head].state
  {
    ArrivalForms(w, a, head, r);
  }

  /** The five waits of the retry table add up to less than the window: six immediate attempts fit. */
  function WaitsUpTo(k: nat): nat
    requires k <= |RETRY_DELAYS|
  {
    if k == 0 then 0 else WaitsUpTo(k - 1) + RETRY_DELAYS[k - 1]
  }

  lemma SixAttemptsFit()
    ensures WaitsUpTo(|RETRY_DELAYS|) == 565_000 < RETRY_WINDOW
    ensures |RETRY_DELAYS| + 1 == MAX_ATTEMPTS
  {
    assert WaitsUpTo(1) == 5_000;
    assert WaitsUpTo(2) == 25_000;
    assert WaitsUpTo(3) == 85_000;
    assert WaitsUpTo(4) == 265_000;
  }

  // ---------------------------------------------------------------- only what the session submitted is sent

  ghost predicate Submitted(acts: seq<Action>, id: Id, i: nat)
    requires i <= |acts|
  {
    exists j :: 0 <= j < i && acts[j].Submit? && acts[j].draft.id == id
  }

  lemma UsedOnlyBySubmit(w: World, a: Action, id: Id)
    requires Enabled(w, a) && id in Next(w, a).used && id !in w.used
    ensures a.Submit? && a.draft.id == id
  {
    match a
    case Submit(d) =>
    case Deliver(e, outcome, fileId) => HandleUsed(Taken(w, e), e, outcome, fileId);
    case UserRetry(x, tail, uuids) =>
    case _ =>
  }

  ghost predicate AllSubmitted(w: World, acts: seq<Action>, i: nat)
    requires i <= |acts|
  {
    && (forall id :: id in w.used ==> Submitted(acts, id, i))
    && forall k :: 0 <= k < |w.wire| ==> Submitted(acts, w.wire[k].id, i)
  }

  /** Every post in the outbox, and every request on the wire, was submitted in this session: recovery sends nothing. */
  lemma {:induction false} OnlySubmittedIsSent(ws: seq<World>, acts: seq<Action>, i: nat)
    requires IsRun(ws, acts) && Initial(ws[0]) && i < |ws|
    ensures AllSubmitted(ws[i], acts, i)
  {
    if i > 0 {
      OnlySubmittedIsSent(ws, acts, i - 1);
      InitialSafe(ws[0]);
      RunSafe(ws, acts, i - 1);
      StillSubmitted(ws[i - 1], acts, i - 1, ws[i]);
    }
  }

  lemma StillSubmitted(w: World, acts: seq<Action>, i: nat, r: World)
    requires i < |acts| && Safe(w) && Enabled(w, acts[i]) && r == Next(w, acts[i]) && AllSubmitted(w, acts, i)
    ensures AllSubmitted(r, acts, i + 1)
  {
    StepUsed(w, acts[i]);
    forall id | id in r.used ensures Submitted(acts, id, i + 1) {
      if id !in w.used {
        UsedOnlyBySubmit(w, acts[i], id);
      }
    }
    WireMembers(w, acts[i], r);
    forall k | 0 <= k < |r.wire| ensures Submitted(acts, r.wire[k].id, i + 1) {
      assert k < |w.wire| ==> r.wire[..|w.wire|][k] == w.wire[k];
    }
  }

  lemma WireMembers(w: World, a: Action, r: World)
    requires Safe(w) && Enabled(w, a) && r == Next(w, a)
    ensures |r.wire| >= |w.wire| && r.wire[..|w.wire|] == w.wire
    ensures forall k :: |w.wire| <= k < |r.wire| ==> r.wire[k].id in w.used
  {
    if r.wire != w.wire {
      TransmissionNeedsHead(w, a, r);
      PresentUsed(w, r.wire[|w.wire|].id);
      LastMember(w.wire, r.wire, w.used);
    }
  }

  lemma LastMember(a: seq<Transmission>, b: seq<Transmission>, used: set<Id>)
    requires |b| == |a| + 1 && b[..|a|] == a && b[|a|].id in used
    ensures forall k :: |a| <= k < |b| ==> b[k].id in used
  {
  }

  lemma PresentUsed(w: World, id: Id)
    requires Ledger(w) && id in w.flow.posts
    ensures id in w.used
  {
    assert Entered(id, w.flow.posts[id], w);
  }
}
