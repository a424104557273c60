/** Coalesced GETs: whose reply a callback gets, and in which order callbacks of one request are called. */
module CoalescingContent {
  import opened Prelude
  import opened Coalescing

  // ---------------------------------------------------------------- whose reply it is

  /** What was asked for and sent stays in the history. */
  ghost predicate Extends(w: World, v: World) {
    w.owner <= v.owner && w.requests <= v.requests
  }

  lemma StepExtends(w: World, a: Action, v: World)
    requires Step(w, a, v)
    ensures Extends(w, v)
  {
  }

  /** A callback is new exactly when it is asked with, and belongs to a request for the path it asked for. */
  ghost predicate Asks(w: World, a: Action, cb: nat, owner: Option<nat>, requests: seq<Request>) {
    && a.Ask? && a.callback && |w.owner| == cb
    && if a.key.path == "" then owner == None
       else owner.Some? && owner.value < |requests| && requests[owner.value].key == a.key
  }

  lemma StepAsks(w: World, a: Action, v: World, cb: nat)
    requires Safe(w) && Step(w, a, v) && |w.owner| <= cb < |v.owner|
    ensures Asks(w, a, cb, v.owner[cb], v.requests)
  {
  }

  lemma StepAt(ws: seq<World>, acts: seq<Action>, i: nat)
    requires IsRun(ws, acts) && i < |acts|
    ensures Safe(ws[i]) && Step(ws[i], acts[i], ws[i + 1]) && Extends(ws[i], ws[i + 1])
  {
    RunSafe(ws, acts, i);
    StepExtends(ws[i], acts[i], ws[i + 1]);
  }

  /** Over every run each callback waits for, or was answered by, a request for the very path it asked for. */
  lemma {:induction false} BelongsToItsPath(ws: seq<World>, acts: seq<Action>, m: nat, cb: nat) returns (p: nat)
    requires IsRun(ws, acts) && m < |ws| && cb < |ws[m].owner|
    ensures p < m && Asks(ws[p], acts[p], cb, ws[m].owner[cb], ws[m].requests)
    decreases m
  {
    StepAt(ws, acts, m - 1);
    if cb < |ws[m - 1].owner| {
      p := BelongsToItsPath(ws, acts, m - 1, cb);
    } else {
      StepAsks(ws[m - 1], acts[m - 1], ws[m], cb);
      p := m - 1;
    }
  }

  /** The step sends this request: nothing is on its way for its path, and its number is the next one. */
  predicate Sends(w: World, a: Action, r: Request) {
    a.Ask? && a.key == r.key && a.key.path != "" && a.key !in w.flights && r.observation == w.observation + 1
  }

  lemma StepSends(w: World, a: Action, v: World, r: nat)
    requires Step(w, a, v) && |w.requests| <= r < |v.requests|
    ensures Sends(w, a, v.requests[r])
  {
  }

  /** Over every run each physical request was sent when its path was asked for and nothing was on its way for it. */
  lemma {:induction false} SentWhenAsked(ws: seq<World>, acts: seq<Action>, m: nat, r: nat) returns (q: nat)
    requires IsRun(ws, acts) && m < |ws| && r < |ws[m].requests|
    ensures q < m && Sends(ws[q], acts[q], ws[m].requests[r])
    decreases m
  {
    StepAt(ws, acts, m - 1);
    if r < |ws[m - 1].requests| {
      q := SentWhenAsked(ws, acts, m - 1, r);
    } else {
      StepSends(ws[m - 1], acts[m - 1], ws[m], r);
      q := m - 1;
    }
  }

  /**
   * Over every run a callback that is called was asked with for some path, and gets the number drawn when a request
   * for that path was sent; without a path it is called with none.
   */
  lemma CalledForItsPath(ws: seq<World>, acts: seq<Action>, m: nat, i: nat) returns (p: nat, q: nat)
    requires IsRun(ws, acts) && m < |ws| && i < |ws[m].calls|
    ensures p < m && acts[p].Ask? && acts[p].callback && |ws[p].owner| == ws[m].calls[i].callback
    ensures acts[p].key.path == "" ==> ws[m].calls[i].observation == 0
    ensures acts[p].key.path != "" ==> q < m && Sends(ws[q], acts[q], Request(acts[p].key, ws[m].calls[i].observation))
  {
    RunSafe(ws, acts, m);
    var c := ws[m].calls[i];
    p := BelongsToItsPath(ws, acts, m, c.callback);
    q := 0;
    if ws[m].owner[c.callback].Some? {
      q := SentWhenAsked(ws, acts, m, ws[m].owner[c.callback].value);
    }
  }

  // ---------------------------------------------------------------- in the order of asking

  predicate Rising(cbs: seq<nat>) {
    forall i, j :: 0 <= i < j < |cbs| ==> cbs[i] < cbs[j]
  }

  ghost predicate ListsRise(w: World) {
    && (forall k :: k in w.flights ==> Rising(w.flights[k].waiting))
    && (forall i :: 0 <= i < |w.fans| ==> Rising(w.fans[i].left))
  }

  /** Whom the i-th call belongs to. */
  function OwnerOf(w: World, i: nat): Option<nat>
    requires i < |w.calls|
  {
    var cb := w.calls[i].callback;
    if cb < |w.owner| then w.owner[cb] else None
  }

  /** No callback of a request on its way was called; of one that is answered those that are due come later. */
  ghost predicate CallsFirst(w: World) {
    && (forall i, k :: 0 <= i < |w.calls| && k in w.flights ==> OwnerOf(w, i) != Some(w.flights[k].request))
    && (forall i, j :: 0 <= i < |w.calls| && 0 <= j < |w.fans| && OwnerOf(w, i) == Some(w.fans[j].request) ==>
          forall cb :: cb in w.fans[j].left ==> w.calls[i].callback < cb)
    && (forall i, r :: 0 <= i < |w.calls| && OwnerOf(w, i) == Some(r) ==> r < |w.requests|)
  }

  ghost predicate CallsRise(w: World) {
    forall i, j :: 0 <= i < j < |w.calls| && OwnerOf(w, i).Some? && OwnerOf(w, i) == OwnerOf(w, j) ==>
      w.calls[i].callback < w.calls[j].callback
  }

  ghost predicate InOrder(w: World) {
    ListsRise(w) && CallsFirst(w) && CallsRise(w)
  }

  /** Calls made so far keep their owners. */
  ghost predicate StillOwned(w: World, v: World) {
    w.calls <= v.calls && forall i :: 0 <= i < |w.calls| ==> OwnerOf(v, i) == OwnerOf(w, i)
  }

  lemma CallsStay(w: World, v: World)
    requires Safe(w) && CallsRise(w) && Extends(w, v) && w.calls <= v.calls
    ensures StillOwned(w, v)
    ensures v.calls == w.calls ==> CallsRise(v)
  {
  }

  lemma SharedInOrder(w: World, key: Key, v: World)
    requires Safe(w) && InOrder(w) && key in w.flights && v == Shared(w, key)
    ensures InOrder(v)
  {
    CallsStay(w, v);
    assert Lists(w, w.flights[key].request, w.flights[key].waiting, Waiting);
    forall i | 0 <= i < |w.flights[key].waiting| ensures w.flights[key].waiting[i] < |w.owner| {
      assert w.flights[key].waiting[i] in w.flights[key].waiting;
    }
  }

  lemma OpenedInOrder(w: World, key: Key, v: World)
    requires Safe(w) && InOrder(w) && key !in w.flights && v == Opened(w, key)
    ensures InOrder(v)
  {
    CallsStay(w, v);
  }

  lemma RejectedInOrder(w: World, v: World)
    requires Safe(w) && InOrder(w) && v == Rejected(w)
    ensures InOrder(v)
  {
    CallsStay(w, v);
    assert OwnerOf(v, |w.calls|) == None;
  }

  lemma CompleteInOrder(w: World, key: Key, v: World)
    requires Safe(w) && InOrder(w) && key in w.flights && v == Complete(w, key)
    ensures InOrder(v)
  {
    CallsStay(w, v);
  }

  lemma NextDue(w: World, v: World, f: Fan)
    requires Safe(w) && Enabled(w, NextCallback) && f == w.fans[|w.fans| - 1] && v == CallNext(w)
    ensures OwnerOf(v, |w.calls|) == Some(f.request) && v.calls[|w.calls|].callback == f.left[0]
    ensures f.request < |w.requests|
    ensures forall cb :: cb in f.left[1..] ==> cb in f.left
    ensures forall i :: 0 <= i < |f.left| - 1 ==> f.left[1..][i] == f.left[i + 1]
  {
    assert Lists(w, f.request, f.left, Due) && f.left[0] in f.left;
  }

  lemma NextLists(w: World, v: World, f: Fan)
    requires Safe(w) && InOrder(w) && Enabled(w, NextCallback) && f == w.fans[|w.fans| - 1] && v == CallNext(w)
    ensures ListsRise(v) && forall cb :: cb in f.left[1..] ==> f.left[0] < cb
  {
    NextDue(w, v, f);
    forall cb | cb in f.left[1..] ensures f.left[0] < cb {
      var i :| 0 <= i < |f.left| - 1 && f.left[1..][i] == cb;
    }
  }

  lemma NextCalls(w: World, v: World, f: Fan)
    requires Safe(w) && InOrder(w) && Enabled(w, NextCallback) && f == w.fans[|w.fans| - 1] && v == CallNext(w)
    ensures CallsRise(v)
  {
    NextDue(w, v, f);
    CallsStay(w, v);
    forall i | 0 <= i < |w.calls| && OwnerOf(w, i) == Some(f.request) ensures w.calls[i].callback < f.left[0] {
      assert f.left[0] in f.left;
    }
  }

  lemma NextFirst(w: World, v: World, f: Fan)
    requires Safe(w) && InOrder(w) && Enabled(w, NextCallback) && f == w.fans[|w.fans| - 1] && v == CallNext(w)
    ensures CallsFirst(v)
  {
    NextDue(w, v, f);
    NextLists(w, v, f);
    CallsStay(w, v);
  }

  lemma CallNextInOrder(w: World, v: World)
    requires Safe(w) && InOrder(w) && Enabled(w, NextCallback) && v == CallNext(w)
    ensures InOrder(v)
  {
    NextLists(w, v, w.fans[|w.fans| - 1]);
    NextCalls(w, v, w.fans[|w.fans| - 1]);
    NextFirst(w, v, w.fans[|w.fans| - 1]);
  }

  lemma AskInOrder(w: World, key: Key)
    requires Safe(w) && InOrder(w)
    ensures InOrder(Get(w, key, true)) && InOrder(Get(w, key, false))
  {
    if key.path == "" {
      RejectedInOrder(w, Rejected(w));
    } else if key in w.flights {
      SharedInOrder(w, key, Shared(w, key));
    } else {
      OpenedSafe(w, key);
      OpenedInOrder(w, key, Opened(w, key));
      SharedInOrder(Opened(w, key), key, Shared(Opened(w, key), key));
    }
  }

  lemma NextInOrder(w: World, a: Action, v: World)
    requires Safe(w) && InOrder(w) && Step(w, a, v)
    ensures InOrder(v)
  {
    match a
    case Ask(key, callback) => AskInOrder(w, key);
    case Reply(key) => CompleteInOrder(w, key, v);
    case NextCallback => CallNextInOrder(w, v);
    case FanDone =>
    case Observe =>
  }

  lemma {:induction false} RunInOrder(ws: seq<World>, acts: seq<Action>, m: nat)
    requires IsRun(ws, acts) && m < |ws|
    ensures InOrder(ws[m])
  {
    if m > 0 {
      RunInOrder(ws, acts, m - 1);
      StepAt(ws, acts, m - 1);
      NextInOrder(ws[m - 1], acts[m - 1], ws[m]);
    }
  }

  /** Over every run the callbacks of one request are called in the order in which they asked. */
  lemma CalledInOrder(ws: seq<World>, acts: seq<Action>, i: nat, j: nat)
    requires IsRun(ws, acts) && i < j < |ws[|acts|].calls|
    ensures var w := ws[|acts|];
      && w.calls[i].callback < |w.owner| && w.calls[j].callback < |w.owner|
      && (w.owner[w.calls[i].callback].Some? && w.owner[w.calls[i].callback] == w.owner[w.calls[j].callback] ==>
            w.calls[i].callback < w.calls[j].callback)
  {
    RunSafe(ws, acts, |acts|);
    RunInOrder(ws, acts, |acts|);
    assert OwnerOf(ws[|acts|], i).Some? && OwnerOf(ws[|acts|], i) == OwnerOf(ws[|acts|], j) ==>
        ws[|acts|].calls[i].callback < ws[|acts|].calls[j].callback;
  }
}
