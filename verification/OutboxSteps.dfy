/** Every action a session can take keeps the outbox invariant, so it holds throughout every run. */
module OutboxSteps {
  import opened Prelude
  import opened OutboxModel
  import opened OutboxSafety
  import opened OutboxUploads

  // ---------------------------------------------------------------- taking an event off the pending set

  function Subject(e: Event): Option<Id> {
    match e
    case Fire(id, _) => Some(id)
    case RetryDue(id, _, _) => Some(id)
    case Deadline(id, _, _) => Some(id)
    case Reply(id, _) => Some(id)
    case _ => None
  }

  function Wakes(e: Event): Owed {
    match e
    case Start(c) => Owed({c}, {})
    case _ => NOTHING
  }

  /** Taking an event away touches only the post it is about, or the conversation it would have started. */
  lemma LessEvents(id: Id, p: Post, first: bool, events: multiset<Event>, e: Event, now: nat)
    requires PostOk(id, p, first, events, now, NOTHING) && e in events && Subject(e) != Some(id)
    ensures PostOk(id, p, first, events - multiset{e}, now, Wakes(e))
  {
    var less := events - multiset{e};
    assert forall x :: x != e ==> less[x] == events[x];
    assert less <= events;
    if p.state == RetryWait {
      var due: nat :| RetryDue(id, p.generation, due) in events && due <= p.window + RETRY_WINDOW;
      assert RetryDue(id, p.generation, due) in less;
    }
  }

  lemma TakenPosts(w: World, e: Event)
    requires Safe(w) && e in w.flow.events
    ensures PostsOk(Taken(w, e).flow, Subject(e), w.now, Wakes(e))
  {
    forall id | id in w.flow.posts && Subject(e) != Some(id)
      ensures PostOk(id, w.flow.posts[id], First(w.flow.posts, id), w.flow.events - multiset{e}, w.now, Wakes(e))
    {
      LessEvents(id, w.flow.posts[id], First(w.flow.posts, id), w.flow.events, e, w.now);
    }
  }

  lemma TakenEvents(w: World, e: Event)
    requires Safe(w) && e in w.flow.events
    ensures EventsOk(Taken(w, e).flow.events, w.used)
    ensures Ledger(Taken(w, e))
    ensures UploadsOk(w.uploads, Taken(w, e).flow.events, if e.UploadReply? then Some(e.uploadId) else None)
  {
    var less := Taken(w, e).flow.events;
    assert forall x :: x != e ==> less[x] == w.flow.events[x];
    assert less <= w.flow.events;
    SteadyLedger(w, Taken(w, e));
  }

  // ---------------------------------------------------------------- one post at a time

  /** What is known of a post whose own event has just been taken. */
  ghost predicate Held(w: World, id: Id) {
    && Ordered(w.order, w.flow.posts) && id in w.flow.posts
    && PostsOk(w.flow, Some(id), w.now, NOTHING)
  }

  lemma Rejoin(f: Flow, id: Id, now: nat)
    requires PostsOk(f, Some(id), now, NOTHING)
    requires id in f.posts ==> PostOk(id, f.posts[id], First(f.posts, id), f.events, now, NOTHING)
    ensures PostsOk(f, None, now, NOTHING)
  {
  }

  lemma AttemptedOk(id: Id, p: Post, events: multiset<Event>, now: nat, channels: set<Id>)
    requires Quiet(id, events) && DeadlinePending(id, p, events, NOTHING)
    ensures
      var q := Attempted(p, now, channels);
      PostOk(id, q, true, if q.state == Sending then events + multiset{Reply(id, q.generation)} else events, now, NOTHING)
  {
  }

  lemma AttemptKeeps(w: World, id: Id)
    requires Held(w, id)
    requires Quiet(id, w.flow.events) && DeadlinePending(id, w.flow.posts[id], w.flow.events, NOTHING)
    requires w.flow.posts[id].state == Queued
    requires !First(w.flow.posts, id) ==> PostOk(id, w.flow.posts[id], false, w.flow.events, w.now, NOTHING)
    ensures PostsOk(Attempt(w, id).flow, None, w.now, NOTHING)
  {
    HeadIsFirst(w.order, w.flow.posts, w.flow.posts[id].conversation);
    if First(w.flow.posts, id) {
      var q := Attempted(w.flow.posts[id], w.now, w.channels);
      AttemptedOk(id, w.flow.posts[id], w.flow.events, w.now, w.channels);
      Move(w.flow, id, q,
           if q.state == Sending then w.flow.events + multiset{Reply(id, q.generation)} else w.flow.events,
           w.now, NOTHING);
    } else {
      Rejoin(w.flow, id, w.now);
    }
  }

  lemma FireKeeps(w: World, id: Id, g: nat)
    requires Safe(w) && Fire(id, g) in w.flow.events
    ensures PostsOk(OnFire(Taken(w, Fire(id, g)), id, g).flow, None, w.now, NOTHING)
  {
    var e := Fire(id, g);
    var v := Taken(w, e);
    TakenPosts(w, e);
    if id in w.flow.posts {
      var p := w.flow.posts[id];
      assert PostOk(id, p, First(w.flow.posts, id), w.flow.events, w.now, NOTHING);
      FireOne(id, p, First(w.flow.posts, id), w.flow.events, g, w.now);
      if p.generation == g && p.state == Queued {
        AttemptKeeps(v, id);
      } else {
        Rejoin(v.flow, id, w.now);
      }
    }
  }

  lemma FireOne(id: Id, p: Post, first: bool, events: multiset<Event>, g: nat, now: nat)
    requires PostOk(id, p, first, events, now, NOTHING) && Fire(id, g) in events
    ensures
      var less := events - multiset{Fire(id, g)};
      if p.generation == g && p.state == Queued
      then Quiet(id, less) && DeadlinePending(id, p, less, NOTHING) && (!first ==> PostOk(id, p, first, less, now, NOTHING))
      else PostOk(id, p, first, less, now, NOTHING)
  {
    var less := events - multiset{Fire(id, g)};
    assert forall x :: x != Fire(id, g) ==> less[x] == events[x];
    assert less <= events;
    if p.state == RetryWait {
      var due: nat :| RetryDue(id, p.generation, due) in events && due <= p.window + RETRY_WINDOW;
      assert RetryDue(id, p.generation, due) in less;
    }
  }

  /** Once its only completion is taken, no other completion can reach the post. */
  lemma ReplyOne(id: Id, p: Post, first: bool, events: multiset<Event>, g: nat, now: nat)
    requires PostOk(id, p, first, events, now, NOTHING) && Reply(id, g) in events && events[Reply(id, g)] == 1
    ensures p.state == Sending && p.generation == g && first && AttachmentsReady(p) && p.attempts > 0
    ensures
      var less := events - multiset{Reply(id, g)};
      Quiet(id, less) && (DeadlinePending(id, p, less, NOTHING) || now >= p.window + RETRY_WINDOW)
  {
    var less := events - multiset{Reply(id, g)};
    assert forall x :: x != Reply(id, g) ==> less[x] == events[x];
  }

  lemma ReplyKeeps(w: World, id: Id, g: nat, outcome: Outcome)
    requires Safe(w) && Reply(id, g) in w.flow.events
    ensures PostsOk(OnReply(Taken(w, Reply(id, g)), id, g, outcome).flow, None, w.now, NOTHING)
  {
    var e := Reply(id, g);
    var v := Taken(w, e);
    TakenPosts(w, e);
    if id in w.flow.posts {
      var p := w.flow.posts[id];
      assert PostOk(id, p, First(w.flow.posts, id), w.flow.events, w.now, NOTHING);
      ReplyOne(id, p, First(w.flow.posts, id), w.flow.events, g, w.now);
      assert Entered(id, p, w);
      AnswerKeeps(v, id, g, outcome);
    } else {
      Rejoin(v.flow, id, w.now);
    }
  }

  lemma AnswerKeeps(v: World, id: Id, g: nat, outcome: Outcome)
    requires id in v.flow.posts && PostsOk(v.flow, Some(id), v.now, NOTHING)
    requires First(v.flow.posts, id) && AttachmentsReady(v.flow.posts[id]) && v.flow.posts[id].window <= v.now
    requires v.flow.posts[id].state == Sending && v.flow.posts[id].generation == g
    requires Quiet(id, v.flow.events)
    requires DeadlinePending(id, v.flow.posts[id], v.flow.events, NOTHING) || v.now >= v.flow.posts[id].window + RETRY_WINDOW
    ensures PostsOk(OnReply(v, id, g, outcome).flow, None, v.now, NOTHING)
  {
    if outcome.Accepted? {
      ConfirmKeeps(v, id, outcome.serverId);
    } else if outcome.retryable && RetryAllowed(v.flow.posts[id], v.now) {
      ScheduleRetryKeeps(v.flow, id, v.now, NOTHING);
    } else {
      FailKeeps(v.flow, id, v.now, NOTHING);
    }
  }

  // ---------------------------------------------------------------- removal

  lemma RemoveKeeps(w: World, id: Id)
    requires id in w.flow.posts && PostsOk(w.flow, Some(id), w.now, NOTHING)
    ensures PostsOk(Remove(w, id).flow, None, w.now, NOTHING)
  {
    var c := w.flow.posts[id].conversation;
    DropKeeps(w.flow, id, w.now, NOTHING);
    assert NOTHING.(starts := NOTHING.starts + {c}) == Owed({c}, {});
    var w1 := SaveBestEffort(Drop(w, id));
    MildFlow(Drop(w, id).flow, w1.flow, None, w.now, Owed({c}, {}));
    StartOwed(w1.flow, c, None, w.now, NOTHING);
  }

  lemma ConfirmKeeps(w: World, id: Id, serverId: Id)
    requires id in w.flow.posts && PostsOk(w.flow, Some(id), w.now, NOTHING)
    ensures PostsOk(Confirm(w, id, serverId).flow, None, w.now, NOTHING)
  {
    RememberKeeps(w, id, serverId);
    RemoveKeeps(Remember(w, serverId), id);
  }

  lemma RememberKeeps(w: World, id: Id, serverId: Id)
    requires id in w.flow.posts && PostsOk(w.flow, Some(id), w.now, NOTHING)
    ensures Remember(w, serverId).flow.posts == w.flow.posts && Remember(w, serverId).now == w.now
    ensures PostsOk(Remember(w, serverId).flow, Some(id), w.now, NOTHING)
  {
    if serverId != "" {
      MoreTimers(w.flow, Forget(serverId, w.now + RETRY_WINDOW), Some(id), w.now, NOTHING);
    }
  }

  // ---------------------------------------------------------------- timers

  lemma RetryDueOne(id: Id, p: Post, first: bool, events: multiset<Event>, g: nat, due: nat, now: nat)
    requires PostOk(id, p, first, events, now, NOTHING) && RetryDue(id, g, due) in events
    ensures
      var less := events - multiset{RetryDue(id, g, due)};
      if p.generation == g && p.state == RetryWait
      then first && Quiet(id, less) && DeadlinePending(id, p, less, NOTHING)
      else PostOk(id, p, first, less, now, NOTHING)
  {
    var less := events - multiset{RetryDue(id, g, due)};
    assert forall x :: x != RetryDue(id, g, due) ==> less[x] == events[x];
    assert less <= events;
    if p.state == RetryWait && p.generation != g {
      var d: nat :| RetryDue(id, p.generation, d) in events && d <= p.window + RETRY_WINDOW;
      assert RetryDue(id, p.generation, d) in less;
    }
  }

  lemma RetryDueKeeps(w: World, id: Id, g: nat, due: nat)
    requires Safe(w) && RetryDue(id, g, due) in w.flow.events
    ensures PostsOk(OnRetryDue(Taken(w, RetryDue(id, g, due)), id, g).flow, None, w.now, NOTHING)
  {
    var e := RetryDue(id, g, due);
    var v := Taken(w, e);
    TakenPosts(w, e);
    if id in w.flow.posts {
      var p := w.flow.posts[id];
      assert PostOk(id, p, First(w.flow.posts, id), w.flow.events, w.now, NOTHING);
      RetryDueOne(id, p, First(w.flow.posts, id), w.flow.events, g, due, w.now);
      if p.generation == g && p.state == RetryWait {
        RequeueKeeps(v.flow, Requeue(v.flow, id), v.order, id, v.now, p.conversation);
      } else {
        Rejoin(v.flow, id, w.now);
      }
    } else {
      Rejoin(v.flow, id, w.now);
    }
  }

  lemma OthersOwe(f: Flow, id: Id, now: nat, o: Owed)
    requires PostsOk(f, Some(id), now, NOTHING)
    ensures PostsOk(f, Some(id), now, o)
  {
    forall i | i in f.posts && i != id
      ensures PostOk(i, f.posts[i], First(f.posts, i), f.events, now, o)
    {
      assert PostOk(i, f.posts[i], First(f.posts, i), f.events, now, NOTHING);
    }
  }

  lemma RequeueOwes(f: Flow, g: Flow, id: Id, now: nat, o: Owed)
    requires id in f.posts && PostsOk(f, Some(id), now, NOTHING) && o == Owed({f.posts[id].conversation}, {})
    requires Quiet(id, f.events) && DeadlinePending(id, f.posts[id], f.events, NOTHING) && g == Requeue(f, id)
    ensures PostsOk(g, None, now, o) && SamePlaces(f.posts, g.posts)
  {
    OthersOwe(f, id, now, o);
    Move(f, id, Requeue(f, id).posts[id], f.events, now, o);
  }

  lemma RequeueKeeps(f: Flow, g: Flow, order: seq<Id>, id: Id, now: nat, c: Conversation)
    requires Ordered(order, f.posts) && id in f.posts && PostsOk(f, Some(id), now, NOTHING)
    requires Quiet(id, f.events) && DeadlinePending(id, f.posts[id], f.events, NOTHING)
    requires g == Requeue(f, id) && c == f.posts[id].conversation
    ensures PostsOk(TryStart(g, order, now, c), None, now, NOTHING)
  {
    RequeueOwes(f, g, id, now, Owed({c}, {}));
    SameOrdered(order, f.posts, g.posts);
    StartPays(g, order, now, c);
  }

  /** Starting the one conversation that owes a start leaves nothing owed. */
  lemma StartPays(f: Flow, order: seq<Id>, now: nat, c: Conversation)
    requires Ordered(order, f.posts) && PostsOk(f, None, now, Owed({c}, {}))
    ensures PostsOk(TryStart(f, order, now, c), None, now, NOTHING)
  {
    TryStartKeeps(f, order, c, now, Owed({c}, {}));
    assert Started(Owed({c}, {}), c) == NOTHING;
  }

  lemma DeadlineOne(id: Id, p: Post, first: bool, events: multiset<Event>, x: nat, now: nat)
    requires PostOk(id, p, first, events, now, NOTHING) && Deadline(id, x, x + RETRY_WINDOW) in events
    requires x + RETRY_WINDOW <= now
    ensures
      var less := events - multiset{Deadline(id, x, x + RETRY_WINDOW)};
      if p.state != Failed && p.window == x && p.state != Sending then Quiet(id, less)
      else PostOk(id, p, first, less, now, NOTHING)
  {
    var less := events - multiset{Deadline(id, x, x + RETRY_WINDOW)};
    assert forall y :: y != Deadline(id, x, x + RETRY_WINDOW) ==> less[y] == events[y];
    assert less <= events;
    if p.state == RetryWait {
      var d: nat :| RetryDue(id, p.generation, d) in events && d <= p.window + RETRY_WINDOW;
      assert RetryDue(id, p.generation, d) in less;
    }
  }

  lemma DeadlineKeeps(w: World, id: Id, x: nat, due: nat)
    requires Safe(w) && Deadline(id, x, due) in w.flow.events && due <= w.now
    ensures PostsOk(OnDeadline(Taken(w, Deadline(id, x, due)), id, x).flow, None, w.now, NOTHING)
  {
    var e := Deadline(id, x, due);
    var v := Taken(w, e);
    TakenPosts(w, e);
    if id in w.flow.posts {
      var p := w.flow.posts[id];
      assert PostOk(id, p, First(w.flow.posts, id), w.flow.events, w.now, NOTHING);
      DeadlineOne(id, p, First(w.flow.posts, id), w.flow.events, x, w.now);
      if p.state != Failed && p.window == x && p.state != Sending {
        FailKeeps(v.flow, id, w.now, NOTHING);
      } else {
        Rejoin(v.flow, id, w.now);
      }
    } else {
      Rejoin(v.flow, id, w.now);
    }
  }
}
