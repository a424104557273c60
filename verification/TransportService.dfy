/** The connectors as they run: queues drained by a loop, replies and restarts handled in place. */
module TransportService {
  import opened Prelude
  import opened TransportModel
  import opened TransportSafety
  import opened TransportSteps
  import TransportTheorems

  lemma FinishKnown(w: World, p: nat)
    requires Safe(w) && p < |w.log.wire| && p !in w.log.finished
    ensures w.log.wire[p].request.id < |w.log.place| && Known(Finished(w, p)) && !FinishDrains(w, p)
  {
    FinishedSafe(w, p, Finished(w, p));
    SafeKnown(Finished(w, p));
  }

  /** Whatever a step does before it processes the queues, it may process them. */
  lemma StepKnown(w: World, a: Action)
    requires Safe(w) && Enabled(w, a)
    ensures a.Enqueue? ==> Known(Push(w, a.conn, a.kind, a.low))
    ensures a.Reset? ==> Known(Cleared(w, a.conn))
    ensures a.Destroy? ==> Known(Destroyed(w, a.conn))
    ensures a.Return? ==> Known(Returned(w))
    ensures a.RestartEnd? ==> Known(Restarted(w))
  {
    match a
    case Enqueue(c, kind, low) =>
      PushSafe(w, c, kind, low, Push(w, c, kind, low));
      SafeKnown(Push(w, c, kind, low));
    case Reset(c) =>
      ClearedSafe(w, c, Cleared(w, c));
      SafeKnown(Cleared(w, c));
    case Destroy(c) =>
      DestroyedSafe(w, c, Destroyed(w, c));
      SafeKnown(Destroyed(w, c));
    case Return =>
      ReturnedSafe(w, Returned(w));
      SafeKnown(Returned(w));
    case RestartEnd =>
      RestartedSafe(w, Restarted(w));
      SafeKnown(Restarted(w));
    case _ =>
  }

  /** All connectors of the process; the loop over pending queues is shared by them. */
  class Connectors {
    var registry: seq<nat>
    var conns: map<nat, Conn>
    var frames: seq<Frame>
    var log: Log

    ghost function View(): World
      reads this
    {
      World(registry, conns, frames, log)
    }

    constructor ()
      ensures Safe(View()) && TransportTheorems.Initial(View())
    {
      registry, conns, frames, log := [], map[], [], Log(0, [], [], [], {}, []);
      new;
      TransportTheorems.InitialSafe(View());
    }

    method ConnectorWithPendingRequest(low: bool) returns (found: Option<nat>)
      ensures found == Pick(registry, conns, low)
    {
      var i := 0;
      while i < |registry|
        invariant i <= |registry| && Pick(registry[i..], conns, low) == Pick(registry, conns, low)
      {
        var c := registry[i];
        if c in conns && !conns[c].restarting && Queue(conns[c], low) != [] {
          return Some(c);
        }
        i := i + 1;
      }
      return None;
    }

    method StartRequest(c: nat, low: bool)
      requires c in conns && Queue(conns[c], low) != [] && Queue(conns[c], low)[0].id < |log.place|
      modifies this`conns, this`log
      ensures View() == Begin(old(View()), c, low)
    {
      var k := conns[c];
      var r, p := Queue(k, low)[0], |log.wire|;
      k := SetQueue(k, low, Queue(k, low)[1..]);
      k := k.(count := k.count + 1, active := k.active + {p});
      if r.kind == Get {
        k := k.(gets := k.gets[p := r]);
      }
      conns := conns[c := k];
      log := log.(wire := log.wire + [Sent(c, r, k.generation)], place := log.place[r.id := Active(p)]);
    }

    /** High priority first, on whichever connector; stops when nothing that may be sent is left. */
    method ProcessQueues()
      requires Known(View())
      modifies this`conns, this`log
      ensures View() == Drain(old(View()))
    {
      while true
        invariant Known(View()) && Drain(View()) == Drain(old(View()))
        decreases Waiting(registry, conns)
      {
        var low := false;
        var next := ConnectorWithPendingRequest(false);
        if next.None? {
          low := true;
          next := ConnectorWithPendingRequest(true);
        }
        if next.None? {
          return;
        }
        BeginLess(View(), next.value, low);
        BeginKnown(View(), next.value, low);
        StartRequest(next.value, low);
      }
    }

    method EnqueueRequest(c: nat, kind: Method, low: bool)
      requires c in conns && Known(Push(View(), c, kind, low))
      modifies this`conns, this`log
      ensures View() == Drain(Push(old(View()), c, kind, low))
    {
      var r := Request(|log.requests|, kind, low);
      var k := conns[c];
      conns := conns[c := SetQueue(k, low, Queue(k, low) + [r])];
      log := log.(requests := log.requests + [r], place := log.place + [Queued(c)]);
      ProcessQueues();
    }

    method ResetConnector(c: nat)
      requires c in conns && Known(Cleared(View(), c))
      modifies this`conns, this`log
      ensures View() == Drain(Cleared(old(View()), c))
    {
      conns := conns[c := FRESH.(generation := conns[c].generation + 1)];
      log := Drop(log, c);
      ProcessQueues();
    }

    method DestroyConnector(c: nat)
      requires c in conns && Known(Destroyed(View(), c))
      modifies this`registry, this`conns, this`log
      ensures View() == Drain(Destroyed(old(View()), c))
    {
      registry, conns, log := Without(registry, c), conns - {c}, Drop(log, c);
      ProcessQueues();
    }

    /** The first half of a restart: the flag, then the loop that puts every unanswered GET back in front. */
    method BeginRestart(c: nat, order: seq<nat>)
      requires Safe(View()) && Enabled(View(), RestartCall(c, order))
      modifies this
      ensures View() == RestartedBy(old(View()), c, order)
    {
      if conns[c].restarting {
        return;
      }
      RestartOrder(View(), c, order);
      RaiseFlag(c);
      PutBack(c, order);
    }

    method RaiseFlag(c: nat)
      requires c in conns
      modifies this`conns, this`frames
      ensures View() == Restarting(old(View()), c)
      ensures c in conns && conns[c].gets == old(conns)[c].gets
    {
      var k := conns[c];
      conns := conns[c := k.(restarting := true)];
      frames := frames + [Restart(c, k.generation, k.active)];
    }

    method PutBack(c: nat, order: seq<nat>)
      requires c in conns && forall p :: p in order ==> p in conns[c].gets && conns[c].gets[p].id < |log.place|
      modifies this`conns, this`log
      ensures View() == ReplayAll(old(View()), c, order)
    {
      var i := 0;
      while i < |order|
        invariant i <= |order|
        invariant c in conns && forall p :: p in order ==> p in conns[c].gets && conns[c].gets[p].id < |log.place|
        invariant ReplayAll(View(), c, order[i..]) == ReplayAll(old(View()), c, order)
      {
        assert order[i..][0] == order[i] && order[i..][1..] == order[i + 1..];
        var k := conns[c];
        var r := k.gets[order[i]];
        k := SetQueue(k, r.low, [r] + Queue(k, r.low));
        conns := conns[c := k.(replayed := k.replayed + {order[i]})];
        log := log.(place := log.place[r.id := Queued(c)]);
        i := i + 1;
      }
    }

    /** A reply finished, by itself or because it was aborted. */
    method ReplyFinished(p: nat)
      requires p < |log.wire| && log.wire[p].request.id < |log.place| && Known(Finished(View(), p))
      modifies this`conns, this`frames, this`log
      ensures View() == if FinishDrains(old(View()), p) then Drain(Finished(old(View()), p)) else Finished(old(View()), p)
    {
      var s := log.wire[p];
      log := log.(finished := log.finished + {p});
      if s.conn !in conns || conns[s.conn].generation != s.generation {
        return;
      }
      var k := conns[s.conn];
      var replayed := p in k.replayed;
      k := k.(replayed := k.replayed - {p}, active := k.active - {p}, gets := k.gets - {p});
      if replayed {
        conns := conns[s.conn := k.(count := Less(k.count))];
        if !k.restarting {
          ProcessQueues();
        }
        return;
      }
      CallHandler(s, k);
    }

    method CallHandler(s: Sent, k: Conn)
      requires s.request.id < |log.place|
      modifies this`conns, this`frames, this`log
      ensures registry == old(registry) && conns == old(conns)[s.conn := k]
      ensures frames == old(frames) + [Handler(s.conn, s.generation)]
      ensures log == old(log).(delivered := old(log).delivered + [s.request.id],
                               place := old(log).place[s.request.id := Delivered])
    {
      conns := conns[s.conn := k];
      frames := frames + [Handler(s.conn, s.generation)];
      log := log.(delivered := log.delivered + [s.request.id], place := log.place[s.request.id := Delivered]);
    }

    method HandlerReturned()
      requires frames != [] && frames[|frames| - 1].Handler? && Known(Returned(View()))
      modifies this`conns, this`frames, this`log
      ensures var (w, v) := (old(View()), Returned(old(View())));
        View() == if Idle(w, Top(w).conn) && Current(w, Top(w).conn, Top(w).generation) then Drain(v) else v
    {
      var f := frames[|frames| - 1];
      frames := frames[..|frames| - 1];
      if f.conn !in conns || conns[f.conn].generation != f.generation {
        return;
      }
      var k := conns[f.conn];
      conns := conns[f.conn := k.(count := Less(k.count))];
      if !k.restarting {
        ProcessQueues();
      }
    }

    /** The second half of a restart, once per reply it found. */
    method AbortReply(p: nat)
      requires Safe(View()) && Enabled(View(), Abort(p))
      modifies this
      ensures View() == Aborted(old(View()), p)
    {
      AbortedFrame(View(), p);
      var i := |frames| - 1;
      if p !in log.finished {
        FinishKnown(View(), p);
        ReplyFinished(p);
      }
      frames := frames[i := frames[i].(remaining := frames[i].remaining - {p})];
    }

    method EndRestart()
      requires frames != [] && frames[|frames| - 1].Restart? && Known(Restarted(View()))
      modifies this`conns, this`frames, this`log
      ensures var w := old(View());
        View() == if Current(w, Top(w).conn, Top(w).generation) then Drain(Restarted(w)) else Restarted(w)
    {
      var f := frames[|frames| - 1];
      frames := frames[..|frames| - 1];
      if f.conn !in conns {
        return;
      }
      var current := conns[f.conn].generation == f.generation;
      conns := conns[f.conn := conns[f.conn].(restarting := false)];
      if current {
        ProcessQueues();
      }
    }

    method CreateConnector(i: nat)
      requires Safe(View()) && i <= |registry|
      modifies this
      ensures View() == Created(old(View()), i)
    {
      conns := conns[log.born := FRESH];
      registry := registry[..i] + [log.born] + registry[i..];
      log := log.(born := log.born + 1);
    }

    /** Every call and event is a step of the model, and the invariant holds again afterwards. */
    method Step(a: Action)
      requires Safe(View()) && Enabled(View(), a)
      modifies this
      ensures View() == Next(old(View()), a) && Safe(View())
    {
      NextSafe(View(), a);
      StepKnown(View(), a);
      match a
      case Create(i) => CreateConnector(i);
      case Enqueue(c, kind, low) => EnqueueRequest(c, kind, low);
      case Reset(c) => ResetConnector(c);
      case Destroy(c) => DestroyConnector(c);
      case RestartCall(c, order) => BeginRestart(c, order);
      case Finish(p) =>
        FinishKnown(View(), p);
        ReplyFinished(p);
      case Return => HandlerReturned();
      case Abort(p) => AbortReply(p);
      case RestartEnd => EndRestart();
    }
  }
}
