/** Left alone, the outbox settles: every event delivered uses up part of a finite budget. */
module OutboxProgress {
  import opened Prelude
  import opened Totals
  import opened OutboxModel
  import opened OutboxSafety
  import opened OutboxRuns
  import opened OutboxTheorems
  import opened OutboxFifo

  // ---------------------------------------------------------------- the weight of pending events

  /** What an event may still cause; `k` is the weight of an upload completion, which may start every conversation. */
  function Cost(e: Event, k: nat): nat {
    match e
    case Start(_) => 2
    case Fire(_, _) => 1
    case RetryDue(_, _, _) => 2
    case Deadline(_, _, _) => 1
    case Reply(_, _) => 4
    case Forget(_, _) => 1
    case UploadReply(_, _) => k
    case SaveAgain(_) => 0
  }

  ghost function Weight(m: multiset<Event>, k: nat): nat
    decreases |m|
  {
    if m == multiset{} then 0
    else
      var e :| e in m;
      Cost(e, k) + Weight(m - multiset{e}, k)
  }

  lemma {:induction false} WeightTake(m: multiset<Event>, e: Event, k: nat)
    requires e in m
    ensures Weight(m, k) == Cost(e, k) + Weight(m - multiset{e}, k)
    decreases |m|
  {
    var d :| d in m && Weight(m, k) == Cost(d, k) + Weight(m - multiset{d}, k);
    if d != e {
      WeightTake(m - multiset{d}, e, k);
      WeightTake(m - multiset{e}, d, k);
      assert m - multiset{d} - multiset{e} == m - multiset{e} - multiset{d};
    }
  }

  lemma WeightAdd(m: multiset<Event>, e: Event, k: nat)
    ensures Weight(m + multiset{e}, k) == Weight(m, k) + Cost(e, k)
  {
    WeightTake(m + multiset{e}, e, k);
    assert m + multiset{e} - multiset{e} == m;
  }

  lemma {:induction false} WeightLess(m: multiset<Event>, k: nat, k': nat)
    requires k <= k'
    ensures Weight(m, k) <= Weight(m, k')
    decreases |m|
  {
    if m != multiset{} {
      var e :| e in m;
      WeightTake(m, e, k);
      WeightTake(m, e, k');
      WeightLess(m - multiset{e}, k, k');
    }
  }

  // ---------------------------------------------------------------- the measure

  /** What a post may still cause: being confirmed, and one request for each attempt it has left. */
  function Potential(p: Post): nat {
    3 + 4 * Max(0, MAX_ATTEMPTS - p.attempts)
  }

  function Potentials(posts: map<Id, Post>): map<Id, nat> {
    map id | id in posts :: Potential(posts[id])
  }

  ghost function Budget(w: World): nat {
    Weight(w.flow.events, |w.owned| + 1) + Total(Potentials(w.flow.posts))
  }

  lemma SamePotentials(a: map<Id, Post>, b: map<Id, Post>)
    requires SameRows(a, b)
    ensures Potentials(a) == Potentials(b)
  {
    forall id | id in a
      ensures Potential(a[id]) == Potential(b[id])
    {
      RowFacts(a[id], b[id]);
    }
  }

  // ---------------------------------------------------------------- what each handler may add

  lemma TimerWeight(f: Flow, order: seq<Id>, now: nat, c: Conversation, k: nat)
    ensures Weight(TryStart(f, order, now, c).events, k) <= Weight(f.events, k) + 1
  {
    var r := TryStart(f, order, now, c);
    match Head(order, f.posts, c)
    case None =>
    case Some(head) =>
      if head in f.posts {
        var q := Advanced(BlockLater(f.posts, c, head)[head], now);
        assert r.events == f.events + HeadTimer(head, q);
        if q.state == Queued {
          WeightAdd(f.events, Fire(head, q.generation), k);
        } else {
          assert f.events + multiset{} == f.events;
        }
      }
  }

  lemma {:induction false} TimersWeight(f: Flow, order: seq<Id>, now: nat, cs: seq<Conversation>, k: nat)
    ensures Weight(TryStartAll(f, order, now, cs).events, k) <= Weight(f.events, k) + |cs|
    decreases |cs|
  {
    if cs != [] {
      TimerWeight(f, order, now, cs[0], k);
      TimersWeight(TryStart(f, order, now, cs[0]), order, now, cs[1..], k);
    }
  }

  lemma SaveEvents(w: World)
    ensures SaveBestEffort(w).flow.events == w.flow.events
         || SaveBestEffort(w).flow.events == w.flow.events + multiset{SaveAgain(w.now + SAVE_RETRY)}
  {
  }

  lemma SaveWeight(w: World, k: nat)
    ensures Weight(SaveBestEffort(w).flow.events, k) == Weight(w.flow.events, k)
  {
    SaveEvents(w);
    SameWeight(w.flow.events, SaveBestEffort(w).flow.events, w.now + SAVE_RETRY, k);
  }

  lemma SameWeight(a: multiset<Event>, b: multiset<Event>, due: nat, k: nat)
    requires b == a || b == a + multiset{SaveAgain(due)}
    ensures Weight(b, k) == Weight(a, k)
  {
    WeightAdd(a, SaveAgain(due), k);
  }

  lemma {:induction false} AffectedCount(owned: seq<Id>, posts: map<Id, Post>, u: Id, seen: set<Conversation>)
    ensures |Affected(owned, posts, u, seen)| <= |owned|
  {
    if owned != [] {
      AffectedCount(owned[1..], posts, u, seen);
      if owned[0] in posts {
        AffectedCount(owned[1..], posts, u, seen + {posts[owned[0]].conversation});
      }
    }
  }

  lemma ChangedWeight(w: World, u: Id, k: nat)
    ensures Weight(UploadChanged(w, u).flow.events, k) <= Weight(w.flow.events, k) + |w.owned|
  {
    if u != "" && u in w.uploads {
      var cs := Affected(w.owned, w.flow.posts, u, {});
      AffectedCount(w.owned, w.flow.posts, u, {});
      var w1 := w.(flow := w.flow.(posts := NoticeAll(w.flow.posts, u, w.uploads[u])));
      var w2 := if cs == [] then w1 else SaveBestEffort(w1);
      SaveWeight(w1, k);
      TimersWeight(w2.flow, w2.order, w2.now, cs, k);
    }
  }

  lemma FinishWeight(w: World, u: Id, g: nat, fileId: Id, k: nat)
    ensures Weight(FinishUpload(w, u, g, fileId).flow.events, k) <= Weight(w.flow.events, k) + |w.owned|
  {
    if u in w.uploads && w.uploads[u].generation == g {
      ChangedWeight(SetUpload(w, u, if fileId == "" then Broken else Ready, fileId, g), u, k);
    }
  }

  lemma FinishBudget(w: World, u: Id, g: nat, fileId: Id)
    ensures Budget(FinishUpload(w, u, g, fileId)) <= Budget(w) + |w.owned|
  {
    var r := FinishUpload(w, u, g, fileId);
    FinishWeight(w, u, g, fileId, |w.owned| + 1);
    SamePotentials(w.flow.posts, r.flow.posts);
  }

  lemma RemoveEvents(w: World, id: Id, k: nat, r: World)
    requires id in w.flow.posts && r == Remove(w, id)
    ensures Weight(r.flow.events, k) == Weight(w.flow.events, k) + 2
    ensures Potentials(r.flow.posts) == Potentials(w.flow.posts) - {id} && |r.owned| <= |w.owned|
  {
    var w1 := SaveBestEffort(Drop(w, id));
    SaveWeight(Drop(w, id), k);
    WeightAdd(w1.flow.events, Start(w.flow.posts[id].conversation), k);
  }

  /** Taking a post out pays for the start and the memory of its confirmation. */
  lemma RemoveBudget(w: World, id: Id, r: World)
    requires id in w.flow.posts && r == Remove(w, id)
    ensures Budget(r) + 1 <= Budget(w)
  {
    RemoveEvents(w, id, |r.owned| + 1, r);
    GoneBudget(w, id, r);
  }

  lemma GoneBudget(w: World, id: Id, r: World)
    requires id in w.flow.posts && |r.owned| <= |w.owned|
    requires Weight(r.flow.events, |r.owned| + 1) == Weight(w.flow.events, |r.owned| + 1) + 2
    requires Potentials(r.flow.posts) == Potentials(w.flow.posts) - {id}
    ensures Budget(r) + 1 <= Budget(w)
  {
    WeightLess(w.flow.events, |r.owned| + 1, |w.owned| + 1);
    PotentialGone(w.flow.posts, r.flow.posts, id);
  }

  lemma PotentialGone(a: map<Id, Post>, b: map<Id, Post>, id: Id)
    requires id in a && Potentials(b) == Potentials(a) - {id}
    ensures Total(Potentials(b)) + Potentials(a)[id] == Total(Potentials(a)) && Potentials(a)[id] >= 3
  {
    TotalRemove(Potentials(a), id);
  }

  lemma RememberBudget(w: World, serverId: Id, v: World)
    requires v == Remember(w, serverId)
    ensures v.flow.posts == w.flow.posts && Budget(v) <= Budget(w) + 1
  {
    if serverId == "" {
      assert v == w;
    } else {
      RememberedBudget(w, serverId, v);
    }
  }

  lemma RememberedBudget(w: World, serverId: Id, v: World)
    requires v.flow == Later(w.flow, Forget(serverId, w.now + RETRY_WINDOW)) && v.owned == w.owned
    ensures v.flow.posts == w.flow.posts && Budget(v) <= Budget(w) + 1
  {
    WeightAdd(w.flow.events, Forget(serverId, w.now + RETRY_WINDOW), |w.owned| + 1);
  }

  lemma ConfirmBudget(w: World, id: Id, serverId: Id, r: World)
    requires id in w.flow.posts && r == Confirm(w, id, serverId)
    ensures Budget(r) <= Budget(w)
  {
    RememberBudget(w, serverId, Remember(w, serverId));
    RemoveBudget(Remember(w, serverId), id, r);
  }

  lemma RowsBudget(w: World, r: World, more: nat)
    requires SameRows(w.flow.posts, r.flow.posts) && r.owned == w.owned
    requires Weight(r.flow.events, |w.owned| + 1) <= Weight(w.flow.events, |w.owned| + 1) + more
    ensures Budget(r) <= Budget(w) + more
  {
    SamePotentials(w.flow.posts, r.flow.posts);
  }

  /** A transmission costs one attempt and pays for its completion. */
  lemma SentBudget(w: World, id: Id, q: Post, r: World)
    requires id in w.flow.posts && w.flow.posts[id].attempts < MAX_ATTEMPTS && q == Sent(w.flow.posts[id])
    requires r.flow == Later(Put(w.flow, id, q), Reply(id, q.generation)) && r.owned == w.owned
    ensures Budget(r) <= Budget(w)
  {
    WeightAdd(w.flow.events, Reply(id, q.generation), |w.owned| + 1);
    TotalUpdate(Potentials(w.flow.posts), id, Potential(q));
    assert Potentials(r.flow.posts) == Potentials(w.flow.posts)[id := Potential(q)];
  }

  lemma AttemptBudget(w: World, id: Id, r: World)
    requires id in w.flow.posts && w.flow.posts[id].state == Queued && r == Attempt(w, id)
    ensures Budget(r) <= Budget(w)
  {
    var p := w.flow.posts[id];
    if Head(w.order, w.flow.posts, p.conversation) == Some(id) {
      var q := Attempted(p, w.now, w.channels);
      AttemptedSent(p, w.now, w.channels);
      if q.state == Sending {
        SentBudget(w, id, q, r);
      } else {
        RowsBudget(w, r, 0);
      }
    }
  }

  lemma AttemptedSent(p: Post, now: nat, channels: set<Id>)
    ensures
      var q := Attempted(p, now, channels);
      if q.state == Sending then p.attempts < MAX_ATTEMPTS && q == Sent(p) else SameRow(p, q)
  {
  }

  // ---------------------------------------------------------------- every step

  lemma TakenBudget(w: World, e: Event, v: World)
    requires e in w.flow.events && v == Taken(w, e)
    ensures Budget(w) == Budget(v) + Cost(e, |w.owned| + 1)
  {
    WeightTake(w.flow.events, e, |w.owned| + 1);
  }

  lemma WaitBudget(w: World, id: Id, r: World)
    requires id in w.flow.posts && r == w.(flow := ScheduleRetry(w.flow, id, w.now))
    ensures Budget(r) <= Budget(w) + 2
  {
    WaitRow(w.flow, id, w.now);
    WaitWeight(w.flow, id, w.now, |w.owned| + 1);
    RowsBudget(w, r, 2);
  }

  lemma WaitWeight(f: Flow, id: Id, now: nat, k: nat)
    requires id in f.posts
    ensures Weight(ScheduleRetry(f, id, now).events, k) <= Weight(f.events, k) + 2
  {
    var due := WaitForm(f, id, now);
    WeightAdd(f.events, RetryDue(id, f.posts[id].generation + 1, due), k);
  }

  lemma WaitForm(f: Flow, id: Id, now: nat) returns (due: nat)
    requires id in f.posts
    ensures
      var r := ScheduleRetry(f, id, now).events;
      r == f.events || r == f.events + multiset{RetryDue(id, f.posts[id].generation + 1, due)}
  {
    var p := f.posts[id];
    due := if 0 < p.attempts && now + RetryDelay(p, now) >= 0 then now + RetryDelay(p, now) else 0;
  }

  lemma ReplyBudget(v: World, id: Id, g: nat, outcome: Outcome, r: World)
    requires r == OnReply(v, id, g, outcome)
    ensures Budget(r) <= Budget(v) + 2
  {
    if id in v.flow.posts && outcome.Accepted? {
      ConfirmBudget(v, id, outcome.serverId, r);
    } else if id in v.flow.posts && r.flow == ScheduleRetry(v.flow, id, v.now) {
      WaitBudget(v, id, r);
    } else {
      FailOrNot(v, id, r);
      RowsBudget(v, r, 0);
    }
  }

  lemma RequeueBudget(v: World, id: Id, g: nat, r: World)
    requires r == OnRetryDue(v, id, g)
    ensures Budget(r) <= Budget(v) + 1
  {
    if id in v.flow.posts {
      RequeueCalm(v, id, r);
      TimerWeight(Requeue(v.flow, id), v.order, v.now, v.flow.posts[id].conversation, |v.owned| + 1);
    }
    RowsBudget(v, r, 1);
  }

  lemma StartBudget(v: World, c: Conversation, r: World)
    requires r == v.(flow := TryStart(v.flow, v.order, v.now, c))
    ensures Budget(r) <= Budget(v) + 1
  {
    TimerWeight(v.flow, v.order, v.now, c, |v.owned| + 1);
    RowsBudget(v, r, 1);
  }

  lemma FireBudget(v: World, id: Id, g: nat, r: World)
    requires r == OnFire(v, id, g)
    ensures Budget(r) <= Budget(v)
  {
    if r != v {
      AttemptBudget(v, id, r);
    }
  }

  lemma SaveBudget(v: World, r: World)
    requires r == SaveBestEffort(v.(saveScheduled := false))
    ensures Budget(r) <= Budget(v)
  {
    SaveWeight(v.(saveScheduled := false), |v.owned| + 1);
    RowsBudget(v, r, 0);
  }

  /** Handling an event never causes more than the event itself was good for. */
  lemma HandleBudget(v: World, e: Event, outcome: Outcome, fileId: Id, r: World)
    requires r == Handle(v, e, outcome, fileId)
    ensures Budget(r) <= Budget(v) + (if e.SaveAgain? then 0 else Cost(e, |v.owned| + 1) - 1)
  {
    match e
    case Start(c) => StartBudget(v, c, r);
    case Fire(id, g) => FireBudget(v, id, g, r);
    case RetryDue(id, g, _) => RequeueBudget(v, id, g, r);
    case Deadline(id, x, _) => FailOrNot(v, id, r); RowsBudget(v, r, 0);
    case Reply(id, g) => ReplyBudget(v, id, g, outcome, r);
    case Forget(_, _) => RowsBudget(v, r, 0);
    case UploadReply(u, g) => FinishBudget(v, u, g, fileId);
    case SaveAgain(_) => SaveBudget(v, r);
  }

  predicate UserWork(a: Action) {
    a.Submit? || a.UserRetry? || a.ComposerStage?
  }

  predicate Progress(a: Action) {
    a.Deliver? && !a.event.SaveAgain?
  }

  lemma ArriveBudget(w: World, a: Arrival, r: World)
    requires r == Authoritative(w, a)
    ensures Budget(r) <= Budget(w)
  {
    if a.id != "" && a.id in w.confirmed {
    } else if a.pendingId != "" && a.pendingId in w.flow.posts {
      ConfirmBudget(w, a.pendingId, a.id, r);
    } else {
      assert Potentials(r.flow.posts) == Potentials(w.flow.posts);
    }
  }

  /** Without new work from the user the budget never grows, and every delivered event uses some of it up. */
  lemma StepBudget(w: World, a: Action, r: World)
    requires Enabled(w, a) && !UserWork(a) && r == Next(w, a)
    ensures Budget(r) + (if Progress(a) then 1 else 0) <= Budget(w)
  {
    match a
    case Cancel(id) =>
      if id in w.flow.posts {
        RemoveBudget(w, id, r);
      }
    case Arrive(arrival) => ArriveBudget(w, arrival, r);
    case Deliver(e, outcome, fileId) =>
      TakenBudget(w, e, Taken(w, e));
      HandleBudget(Taken(w, e), e, outcome, fileId, r);
    case _ => AroundBudget(w, a, r);
  }

  lemma AroundBudget(w: World, a: Action, r: World)
    requires !UserWork(a) && !a.Cancel? && !a.Arrive? && !a.Deliver? && Enabled(w, a) && r == Next(w, a)
    ensures r.flow == w.flow && r.owned == w.owned
  {
  }

  function Deliveries(acts: seq<Action>): nat {
    if acts == [] then 0 else Deliveries(acts[..|acts| - 1]) + (if Progress(acts[|acts| - 1]) then 1 else 0)
  }

  /**
   * Left alone, the outbox settles: in any run without new user work, at most Budget(first world) events are
   * delivered, however the network, the clock, the disk and other people's posts interleave.
   */
  lemma {:induction false} RunSettles(ws: seq<World>, acts: seq<Action>)
    requires IsRun(ws, acts) && forall i :: 0 <= i < |acts| ==> !UserWork(acts[i])
    ensures Deliveries(acts) + Budget(ws[|acts|]) <= Budget(ws[0])
    decreases |acts|
  {
    if acts != [] {
      var n := |acts| - 1;
      RunFront(ws, acts);
      RunSettles(ws[..n + 1], acts[..n]);
      LastStepBudget(ws, acts);
    }
  }

  lemma RunFront(ws: seq<World>, acts: seq<Action>)
    requires IsRun(ws, acts) && acts != []
    ensures IsRun(ws[..|acts|], acts[..|acts| - 1]) && ws[..|acts|][|acts| - 1] == ws[|acts| - 1]
  {
  }

  lemma LastStepBudget(ws: seq<World>, acts: seq<Action>)
    requires IsRun(ws, acts) && acts != [] && !UserWork(acts[|acts| - 1])
    ensures Budget(ws[|acts|]) + (if Progress(acts[|acts| - 1]) then 1 else 0) <= Budget(ws[|acts| - 1])
  {
    StepBudget(ws[|acts| - 1], acts[|acts| - 1], ws[|acts|]);
  }

  /** No start, timer, deadline or completion of a post is left to deliver. */
  ghost predicate Quiescent(w: World) {
    forall e :: e in w.flow.events ==> e.SaveAgain? || e.Forget? || e.UploadReply?
  }

  ghost predicate FailedInPlace(p: Post, w: World, id: Id) {
    id in w.flow.posts && InPlace(p, w.flow.posts[id]) && w.flow.posts[id].state == Failed
  }

  /** Once a run has nothing left to deliver, each post it ever held has been confirmed or cancelled, or has failed. */
  lemma EveryPostSettles(ws: seq<World>, acts: seq<Action>, i: nat, id: Id)
    requires IsRun(ws, acts) && Initial(ws[0]) && i < |ws| && id in ws[i].flow.posts && Quiescent(ws[|acts|])
    ensures FailedInPlace(ws[i].flow.posts[id], ws[|acts|], id)
      || exists k :: i <= k < |acts| && LeftAt(ws, acts, id, k)
  {
    InitialSafe(ws[0]);
    RunSafe(ws, acts, |acts|);
    QuiescentMeansFailed(ws[|acts|]);
    PlaceKept(ws, acts, id, i, |acts|);
  }

  /** Without a cancellation there are two ends: the post is confirmed, or it has failed and waits for the user. */
  lemma ConfirmedOrFailed(ws: seq<World>, acts: seq<Action>, i: nat, id: Id)
    requires IsRun(ws, acts) && Initial(ws[0]) && i < |ws| && id in ws[i].flow.posts && Quiescent(ws[|acts|])
    requires forall k :: i <= k < |acts| ==> acts[k] != Cancel(id)
    ensures FailedInPlace(ws[i].flow.posts[id], ws[|acts|], id)
      || exists k :: i <= k < |acts| && LeftAt(ws, acts, id, k) && Confirms(acts[k], id)
  {
    EveryPostSettles(ws, acts, i, id);
    if !FailedInPlace(ws[i].flow.posts[id], ws[|acts|], id) {
      var k :| i <= k < |acts| && LeftAt(ws, acts, id, k);
      assert Confirms(acts[k], id);
    }
  }
}
