/** Coalesced GETs: callers of one path share one physical request, and each is called back exactly once. */
module Coalescing {
  import opened Prelude

  /** Requests are shared per account (or host) and path. */
  datatype Key = Key(scope: string, path: string)

  datatype Request = Request(key: Key, observation: nat)

  datatype Flight = Flight(request: nat, waiting: seq<nat>)

  /** A completed request whose callbacks are being called; a callback may ask for anything meanwhile. */
  datatype Fan = Fan(request: nat, left: seq<nat>)

  datatype Status = Waiting | Due | Called

  datatype Call = Call(callback: nat, observation: nat)

  /** History: every physical request, the request each callback joined, how far it is, and every call made. */
  datatype World = World(observation: nat, flights: map<Key, Flight>, fans: seq<Fan>,
                         requests: seq<Request>, owner: seq<Option<nat>>, status: seq<Status>, calls: seq<Call>)

  // ---------------------------------------------------------------- steps

  /** One more callback; it belongs to `owner`. */
  function Joined(w: World, owner: Option<nat>, status: Status): World {
    w.(owner := w.owner + [owner], status := w.status + [status])
  }

  function Rejected(w: World): World {
    Joined(w, None, Called).(calls := w.calls + [Call(|w.owner|, 0)])
  }

  function Shared(w: World, key: Key): World
    requires key in w.flights
  {
    var f := w.flights[key];
    Joined(w, Some(f.request), Waiting).(flights := w.flights[key := f.(waiting := f.waiting + [|w.owner|])])
  }

  /** A fresh physical request, with nobody waiting for it yet. */
  function Opened(w: World, key: Key): World {
    var s := w.observation + 1;
    w.(observation := s, requests := w.requests + [Request(key, s)],
       flights := w.flights[key := Flight(|w.requests|, [])])
  }

  function Get(w: World, key: Key, callback: bool): World {
    if key.path == "" then (if callback then Rejected(w) else w)
    else
      var v := if key in w.flights then w else Opened(w, key);
      if callback then Shared(v, key) else v
  }

  /** The reply: the entry is taken out before anybody is called, so that a new request for the path starts afresh. */
  function Complete(w: World, key: Key): World
    requires key in w.flights
  {
    var f := w.flights[key];
    w.(flights := w.flights - {key}, fans := w.fans + [Fan(f.request, f.waiting)],
       status := seq(|w.status|, i requires 0 <= i < |w.status| => if i in f.waiting then Due else w.status[i]))
  }

  /** The innermost fan-out calls its next callback with the observation of the physical request. */
  function CallNext(w: World): World
    requires w.fans != [] && w.fans[|w.fans| - 1].left != []
    requires w.fans[|w.fans| - 1].request < |w.requests| && w.fans[|w.fans| - 1].left[0] < |w.status|
  {
    var f := w.fans[|w.fans| - 1];
    w.(fans := w.fans[|w.fans| - 1 := f.(left := f.left[1..])],
       status := w.status[f.left[0] := Called],
       calls := w.calls + [Call(f.left[0], w.requests[f.request].observation)])
  }

  function Finish(w: World): World
    requires w.fans != []
  {
    w.(fans := w.fans[..|w.fans| - 1])
  }

  datatype Action = Ask(key: Key, callback: bool) | Reply(key: Key) | NextCallback | FanDone | Observe

  predicate Enabled(w: World, a: Action) {
    match a
    case Ask(_, _) => true
    case Reply(key) => key in w.flights
    case NextCallback =>
      w.fans != [] && w.fans[|w.fans| - 1].left != []
      && w.fans[|w.fans| - 1].request < |w.requests| && w.fans[|w.fans| - 1].left[0] < |w.status|
    case FanDone => w.fans != [] && w.fans[|w.fans| - 1].left == []
    case Observe => true
  }

  function Next(w: World, a: Action): World
    requires Enabled(w, a)
  {
    match a
    case Ask(key, callback) => Get(w, key, callback)
    case Reply(key) => Complete(w, key)
    case NextCallback => CallNext(w)
    case FanDone => Finish(w)
    case Observe => w.(observation := w.observation + 1)
  }

  // ---------------------------------------------------------------- the invariant

  ghost predicate Lists(w: World, request: nat, cbs: seq<nat>, status: Status) {
    Distinct(cbs) && forall cb :: cb in cbs ==>
      cb < |w.owner| && cb < |w.status| && w.owner[cb] == Some(request) && w.status[cb] == status
  }

  ghost predicate FlightsOk(w: World) {
    forall k :: k in w.flights ==>
      && w.flights[k].request < |w.requests| && w.requests[w.flights[k].request].key == k
      && Lists(w, w.flights[k].request, w.flights[k].waiting, Waiting)
  }

  ghost predicate FansOk(w: World) {
    && (forall i :: 0 <= i < |w.fans| ==> w.fans[i].request < |w.requests| && Lists(w, w.fans[i].request, w.fans[i].left, Due))
    && (forall i, j :: 0 <= i < j < |w.fans| ==> w.fans[i].request != w.fans[j].request)
    && (forall i, k :: 0 <= i < |w.fans| && k in w.flights ==> w.fans[i].request != w.flights[k].request)
  }

  ghost predicate InFan(w: World, cb: nat) {
    exists i :: 0 <= i < |w.fans| && cb in w.fans[i].left
  }

  ghost predicate WasCalled(w: World, cb: nat) {
    exists i :: 0 <= i < |w.calls| && w.calls[i].callback == cb
  }

  /** Where the history says a callback is, it is. */
  ghost predicate Placed(w: World, cb: nat)
    requires cb < |w.status| && cb < |w.owner|
  {
    match w.status[cb]
    case Waiting =>
      w.owner[cb].Some? && w.owner[cb].value < |w.requests| && w.requests[w.owner[cb].value].key in w.flights
      && cb in w.flights[w.requests[w.owner[cb].value].key].waiting
    case Due => InFan(w, cb)
    case Called => WasCalled(w, cb)
  }

  ghost predicate CallsOk(w: World) {
    && (forall i, j :: 0 <= i < j < |w.calls| ==> w.calls[i].callback != w.calls[j].callback)
    && (forall i :: 0 <= i < |w.calls| ==>
          var c := w.calls[i];
          c.callback < |w.status| && c.callback < |w.owner| && w.status[c.callback] == Called
          && match w.owner[c.callback]
             case None => c.observation == 0
             case Some(r) => r < |w.requests| && c.observation == w.requests[r].observation)
  }

  ghost predicate Safe(w: World) {
    && |w.status| == |w.owner| && FlightsOk(w) && FansOk(w) && CallsOk(w)
    && forall cb: nat :: cb < |w.status| ==> Placed(w, cb)
  }

  predicate Initial(w: World) {
    w.flights == map[] && w.fans == [] && w.requests == [] && w.owner == [] && w.status == [] && w.calls == []
  }

  lemma OpenedSafe(w: World, key: Key)
    requires Safe(w) && key !in w.flights
    ensures Safe(Opened(w, key))
  {
    var v := Opened(w, key);
    assert forall r :: 0 <= r < |w.requests| ==> v.requests[r] == w.requests[r];
    forall cb: nat | cb < |v.status| ensures Placed(v, cb) {
      assert Placed(w, cb);
      if v.status[cb] == Due {
        var i :| 0 <= i < |w.fans| && cb in w.fans[i].left;
        assert cb in v.fans[i].left;
      } else if v.status[cb] == Called {
        var i :| 0 <= i < |w.calls| && w.calls[i].callback == cb;
        assert v.calls[i].callback == cb;
      }
    }
  }

  /** A callback that is not new stays where it is when one more joins. */
  lemma StaysPlaced(w: World, v: World, cb: nat)
    requires |w.status| == |w.owner| && cb < |w.status| && Placed(w, cb)
    requires |v.status| == |v.owner| && cb < |v.status| && v.status[cb] == w.status[cb] && v.owner[cb] == w.owner[cb]
    requires v.requests == w.requests && v.fans == w.fans && |w.calls| <= |v.calls|
    requires forall i :: 0 <= i < |w.calls| ==> v.calls[i] == w.calls[i]
    requires forall k :: k in w.flights ==> k in v.flights && forall c :: c in w.flights[k].waiting ==> c in v.flights[k].waiting
    ensures Placed(v, cb)
  {
    if v.status[cb] == Called {
      var i :| 0 <= i < |w.calls| && w.calls[i].callback == cb;
      assert v.calls[i].callback == cb;
    }
  }

  lemma RejectedSafe(w: World)
    requires Safe(w)
    ensures Safe(Rejected(w))
  {
    var v := Rejected(w);
    forall cb: nat | cb < |v.status| ensures Placed(v, cb) {
      if cb < |w.status| {
        StaysPlaced(w, v, cb);
      } else {
        assert v.calls[|w.calls|].callback == cb;
      }
    }
  }

  lemma SharedSafe(w: World, key: Key)
    requires Safe(w) && key in w.flights
    ensures Safe(Shared(w, key))
  {
    var v := Shared(w, key);
    assert |w.owner| !in w.flights[key].waiting;
    forall k | k in v.flights ensures Lists(v, v.flights[k].request, v.flights[k].waiting, Waiting) {
      assert Lists(w, w.flights[k].request, w.flights[k].waiting, Waiting);
    }
    forall cb: nat | cb < |v.status| ensures Placed(v, cb) {
      if cb < |w.status| {
        StaysPlaced(w, v, cb);
      }
    }
  }

  lemma CompleteFans(w: World, key: Key, v: World)
    requires Safe(w) && key in w.flights && v == Complete(w, key)
    ensures FansOk(v) && FlightsOk(v) && CallsOk(v)
  {
    CompleteFlights(w, key, v);
    CompleteCalls(w, key, v);
    assert forall k :: k in v.flights ==> v.flights[k].request != w.flights[key].request;
  }

  lemma CompleteFlights(w: World, key: Key, v: World)
    requires Safe(w) && key in w.flights && v == Complete(w, key)
    ensures FlightsOk(v)
    ensures forall k :: k in v.flights ==> k in w.flights && v.flights[k] == w.flights[k] && k != key
  {
  }

  lemma CompleteCalls(w: World, key: Key, v: World)
    requires Safe(w) && key in w.flights && v == Complete(w, key)
    ensures CallsOk(v)
  {
  }

  lemma CompleteSafe(w: World, key: Key, v: World)
    requires Safe(w) && key in w.flights && v == Complete(w, key)
    ensures Safe(v)
  {
    CompleteFans(w, key, v);
    var f := w.flights[key];
    forall cb: nat | cb < |v.status| ensures Placed(v, cb) {
      assert Placed(w, cb);
      if cb in f.waiting {
        assert cb in v.fans[|w.fans|].left;
      } else if w.status[cb] == Due {
        var i :| 0 <= i < |w.fans| && cb in w.fans[i].left;
        assert cb in v.fans[i].left;
      } else if w.status[cb] == Waiting {
        assert w.requests[w.owner[cb].value].key != key;
      }
    }
  }

  /** The callbacks after the one that is called are still due. */
  lemma NextLeft(w: World, request: nat, left: seq<nat>, v: World)
    requires Lists(w, request, left, Due) && left != [] && left[0] < |w.status|
    requires v.owner == w.owner && v.status == w.status[left[0] := Called]
    ensures Lists(v, request, left[1..], Due)
  {
    assert forall i :: 0 <= i < |left| - 1 ==> left[1..][i] == left[i + 1];
    forall cb | cb in left[1..] ensures cb in left && cb != left[0] {
      var i :| 0 <= i < |left| - 1 && left[1..][i] == cb;
      assert left[i + 1] == cb;
    }
  }

  lemma CallNextCalls(w: World, v: World)
    requires Safe(w) && Enabled(w, NextCallback) && v == CallNext(w)
    ensures CallsOk(v)
  {
    var f := w.fans[|w.fans| - 1];
    assert Lists(w, f.request, f.left, Due) && f.left[0] in f.left;
    assert forall i :: 0 <= i < |w.calls| ==> w.calls[i].callback != f.left[0];
  }

  lemma CallNextLists(w: World, v: World)
    requires Safe(w) && Enabled(w, NextCallback) && v == CallNext(w)
    ensures FansOk(v) && FlightsOk(v)
  {
    var (n, f) := (|w.fans| - 1, w.fans[|w.fans| - 1]);
    assert forall i :: 0 <= i < |f.left| - 1 ==> f.left[1..][i] == f.left[i + 1];
    assert Lists(w, f.request, f.left, Due) && f.left[0] in f.left;
    NextLeft(w, f.request, f.left, v);
    forall i | 0 <= i < |v.fans| ensures Lists(v, v.fans[i].request, v.fans[i].left, Due) {
      if i != n {
        assert Lists(w, w.fans[i].request, w.fans[i].left, Due);
        assert f.left[0] !in w.fans[i].left;
      }
    }
    forall k | k in v.flights ensures Lists(v, v.flights[k].request, v.flights[k].waiting, Waiting) {
      assert Lists(w, w.flights[k].request, w.flights[k].waiting, Waiting);
    }
  }

  lemma CallNextSafe(w: World, v: World)
    requires Safe(w) && Enabled(w, NextCallback) && v == CallNext(w)
    ensures Safe(v)
  {
    CallNextLists(w, v);
    CallNextCalls(w, v);
    var (n, f) := (|w.fans| - 1, w.fans[|w.fans| - 1]);
    assert f.left == [f.left[0]] + f.left[1..];
    forall cb: nat | cb < |v.status| ensures Placed(v, cb) {
      assert Placed(w, cb);
      if cb == f.left[0] {
        assert v.calls[|w.calls|].callback == cb;
      } else if w.status[cb] == Due {
        var i :| 0 <= i < |w.fans| && cb in w.fans[i].left;
        assert cb in v.fans[i].left;
      } else if w.status[cb] == Called {
        var i :| 0 <= i < |w.calls| && w.calls[i].callback == cb;
        assert v.calls[i].callback == cb;
      }
    }
  }

  lemma FinishSafe(w: World, v: World)
    requires Safe(w) && Enabled(w, FanDone) && v == Finish(w)
    ensures Safe(v)
  {
    forall cb: nat | cb < |v.status| ensures Placed(v, cb) {
      assert Placed(w, cb);
      if w.status[cb] == Due {
        var i :| 0 <= i < |w.fans| && cb in w.fans[i].left;
        assert cb in v.fans[i].left;
      }
    }
  }

  lemma NextSafe(w: World, a: Action)
    requires Safe(w) && Enabled(w, a)
    ensures Safe(Next(w, a))
  {
    match a
    case Ask(key, callback) =>
      if key.path == "" {
        RejectedSafe(w);
      } else if key in w.flights {
        SharedSafe(w, key);
      } else {
        OpenedSafe(w, key);
        SharedSafe(Opened(w, key), key);
      }
    case Reply(key) => CompleteSafe(w, key, Complete(w, key));
    case NextCallback => CallNextSafe(w, CallNext(w));
    case FanDone => FinishSafe(w, Finish(w));
    case Observe => ObserveSafe(w);
  }

  lemma ObserveSafe(w: World)
    requires Safe(w)
    ensures Safe(w.(observation := w.observation + 1))
  {
    var v := w.(observation := w.observation + 1);
    forall cb: nat | cb < |w.status| ensures Placed(v, cb) {
      StaysPlaced(w, v, cb);
    }
  }

  ghost predicate Step(w: World, a: Action, v: World) {
    Enabled(w, a) && v == Next(w, a)
  }

  ghost predicate IsRun(ws: seq<World>, acts: seq<Action>) {
    && |ws| == |acts| + 1 && Initial(ws[0])
    && forall i :: 0 <= i < |acts| ==> Step(ws[i], acts[i], ws[i + 1])
  }

  lemma {:induction false} RunSafe(ws: seq<World>, acts: seq<Action>, i: nat)
    requires IsRun(ws, acts) && i < |ws|
    ensures Safe(ws[i])
  {
    if i > 0 {
      RunSafe(ws, acts, i - 1);
      assert Step(ws[i - 1], acts[i - 1], ws[i]);
      NextSafe(ws[i - 1], acts[i - 1]);
    }
  }

  // ---------------------------------------------------------------- what callers may rely on

  /**
   * Over every run, re-entrant callbacks included, no callback is called twice, each is called with the observation
   * of the physical request it joined, and once nothing is on its way every callback has been called.
   */
  lemma CalledExactlyOnce(ws: seq<World>, acts: seq<Action>)
    requires IsRun(ws, acts)
    ensures var w := ws[|acts|];
      && (forall i, j :: 0 <= i < j < |w.calls| ==> w.calls[i].callback != w.calls[j].callback)
      && (w.flights == map[] && w.fans == [] ==> forall cb: nat :: cb < |w.owner| ==> WasCalled(w, cb))
  {
    RunSafe(ws, acts, |acts|);
    var w := ws[|acts|];
    forall cb: nat | cb < |w.owner| && w.flights == map[] && w.fans == [] ensures WasCalled(w, cb) {
      assert Placed(w, cb);
    }
  }

  /** The observation handed to a callback is its request's, no matter when it joined. */
  lemma CalledWithPhysicalObservation(w: World, i: nat)
    requires Safe(w) && i < |w.calls| && w.owner[w.calls[i].callback].Some?
    ensures w.owner[w.calls[i].callback].value < |w.requests|
    ensures w.calls[i].observation == w.requests[w.owner[w.calls[i].callback].value].observation
  {
  }

  /** A caller joins the request in flight for its key, if there is one, and starts one only if there is none. */
  lemma AskSharesOrOpens(w: World, key: Key)
    requires Safe(w) && key.path != ""
    ensures var v := Get(w, key, true);
      if key in w.flights
      then v.requests == w.requests && v.owner[|w.owner|] == Some(w.flights[key].request)
      else |v.requests| == |w.requests| + 1 && v.owner[|w.owner|] == Some(|w.requests|)
           && v.requests[|w.requests|] == Request(key, w.observation + 1)
  {
  }

  /** Asking again from inside a callback of the same key does not join the request that is being answered. */
  lemma ReentrantAskIsFresh(w: World, key: Key)
    requires Safe(w) && key in w.flights && key.path != ""
    ensures var v := Get(Complete(w, key), key, true); |v.requests| == |w.requests| + 1
    ensures var v := Get(Complete(w, key), key, true); v.owner[|w.owner|] == Some(|w.requests|)
  {
  }
}
