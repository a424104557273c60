/** Answers assembled from several asynchronous parts: the cache/server race for one post and the context of a post. */
module Joins {
  import opened Prelude

  // ---------------------------------------------------------------- combining a context

  /** Each identifier once, where it first occurs; no empty ones. */
  function FirstOccurrences(ids: seq<Id>): seq<Id> {
    if ids == [] then []
    else
      var rest := FirstOccurrences(ids[..|ids| - 1]);
      var x := ids[|ids| - 1];
      if x == "" || x in rest then rest else rest + [x]
  }

  /** Positions of the given identifiers in `ids` rise from left to right. */
  ghost predicate KeepsOrder(part: seq<Id>, ids: seq<Id>) {
    forall i, j, p :: 0 <= i < j < |part| && 0 <= p < |ids| && ids[p] == part[j] ==>
      exists q :: 0 <= q < p && ids[q] == part[i]
  }

  lemma {:induction false} FirstOccurrencesFacts(ids: seq<Id>)
    ensures Distinct(FirstOccurrences(ids))
    ensures forall x :: x in FirstOccurrences(ids) <==> x in ids && x != ""
    ensures KeepsOrder(FirstOccurrences(ids), ids)
  {
    if ids != [] {
      var (front, x) := (ids[..|ids| - 1], ids[|ids| - 1]);
      var rest := FirstOccurrences(front);
      FirstOccurrencesFacts(front);
      assert ids == front + [x];
      var part := FirstOccurrences(ids);
      forall i, j, p | 0 <= i < j < |part| && 0 <= p < |ids| && ids[p] == part[j]
        ensures exists q :: 0 <= q < p && ids[q] == part[i]
      {
        assert part[i] == rest[i] && part[i] in front;
        if p < |front| {
          assert front[p] == part[j];
          assert part[j] in rest && j < |rest|;
          var q :| 0 <= q < p && front[q] == rest[i];
          assert ids[q] == part[i];
        } else {
          var q :| 0 <= q < |front| && front[q] == part[i];
          assert ids[q] == part[i];
        }
      }
    }
  }

  /** The context around a post: what came before it, the post, what came after; nothing twice. */
  method CombineContext(before: seq<Id>, target: Id, after: seq<Id>) returns (result: seq<Id>)
    ensures result == FirstOccurrences(before + [target] + after)
  {
    result := [];
    var all := before + [target] + after;
    var i := 0;
    while i < |all|
      invariant i <= |all| && result == FirstOccurrences(all[..i])
    {
      assert all[..i + 1][..i] == all[..i];
      if all[i] != "" && all[i] !in result {
        result := result + [all[i]];
      }
      i := i + 1;
    }
    assert all[..i] == all;
  }

  /** The target occurs exactly once, nothing occurs twice, and exactly the fetched posts are there. */
  lemma ContextHasTargetOnce(before: seq<Id>, target: Id, after: seq<Id>)
    requires target != ""
    ensures var c := FirstOccurrences(before + [target] + after);
      && Distinct(c)
      && (forall x :: x in c <==> x != "" && (x in before || x == target || x in after))
      && multiset(c)[target] == 1
  {
    var all := before + [target] + after;
    FirstOccurrencesFacts(all);
    OccursOnce(FirstOccurrences(all), target);
  }

  lemma OccursOnce(c: seq<Id>, x: Id)
    requires Distinct(c) && x in c
    ensures multiset(c)[x] == 1
  {
    var i :| 0 <= i < |c| && c[i] == x;
    assert c == c[..i] + [c[i]] + c[i + 1..];
    assert x !in c[..i] && x !in c[i + 1..];
  }

  // ---------------------------------------------------------------- the race of cache and server

  datatype Race = Race(cacheDone: bool, httpDone: bool, delivered: bool, answers: seq<bool>)

  const STARTED := Race(false, false, false, [])

  /** A successful part answers at once; a failure is reported only when both parts are done. */
  function Settle(r: Race, success: bool): Race {
    if r.delivered then r
    else if success then r.(delivered := true, answers := r.answers + [true])
    else if r.cacheDone && r.httpDone then r.(delivered := true, answers := r.answers + [false])
    else r
  }

  function CacheAnswer(r: Race, success: bool): Race {
    Settle(r.(cacheDone := true), success)
  }

  function HttpAnswer(r: Race, success: bool): Race {
    Settle(r.(httpDone := true), success)
  }

  /** Without a valid account the cache is not asked: it counts as done, and nothing is reported yet. */
  function Begun(account: bool): Race {
    STARTED.(cacheDone := !account)
  }

  class DirectPost {
    var cacheDone: bool
    var httpDone: bool
    var delivered: bool
    var answers: seq<bool>

    ghost function View(): Race
      reads this
    {
      Race(cacheDone, httpDone, delivered, answers)
    }

    constructor (account: bool)
      ensures View() == Begun(account)
    {
      cacheDone, httpDone, delivered, answers := !account, false, false, [];
    }

    method DeliverSuccess(success: bool)
      modifies this
      ensures View() == old(if !delivered && success then View().(delivered := true, answers := answers + [true]) else View())
    {
      if !delivered && success {
        delivered := true;
        answers := answers + [true];
      }
    }

    method DeliverFailureIfDone()
      modifies this
      ensures View() == old(if !delivered && cacheDone && httpDone
                            then View().(delivered := true, answers := answers + [false]) else View())
    {
      if !delivered && cacheDone && httpDone {
        delivered := true;
        answers := answers + [false];
      }
    }

    method CacheAnswered(success: bool)
      modifies this
      ensures View() == CacheAnswer(old(View()), success)
    {
      cacheDone := true;
      DeliverSuccess(success);
      DeliverFailureIfDone();
    }

    method HttpAnswered(success: bool)
      modifies this
      ensures View() == HttpAnswer(old(View()), success)
    {
      httpDone := true;
      DeliverSuccess(success);
      DeliverFailureIfDone();
    }
  }

  /** In either order the caller is answered exactly once: with success as soon as a part succeeds, else with failure. */
  lemma RaceAnswersOnce(cache: bool, http: bool)
    ensures HttpAnswer(CacheAnswer(Begun(true), cache), http).answers == [cache || http]
    ensures CacheAnswer(HttpAnswer(Begun(true), http), cache).answers == [cache || http]
    ensures HttpAnswer(Begun(false), http).answers == [http]
    ensures CacheAnswer(Begun(true), cache).answers == if cache then [true] else []
    ensures HttpAnswer(Begun(true), http).answers == if http then [true] else []
  {
  }

  /** Whatever parts answer, however often, there is never a second answer, and a success is never taken back. */
  lemma {:induction false} RaceNeverAnswersTwice(parts: seq<(bool, bool)>, r: Race)
    requires |r.answers| <= 1 && (r.delivered <==> |r.answers| == 1)
    ensures var e := RunRace(parts, r); |e.answers| <= 1 && (r.answers != [] ==> e.answers == r.answers)
  {
    if parts != [] {
      RaceNeverAnswersTwice(parts[1..], if parts[0].0 then CacheAnswer(r, parts[0].1) else HttpAnswer(r, parts[0].1));
    }
  }

  /** A run of the race: (from the cache?, success?) one after the other. */
  function RunRace(parts: seq<(bool, bool)>, r: Race): Race
    decreases |parts|
  {
    if parts == [] then r
    else RunRace(parts[1..], if parts[0].0 then CacheAnswer(r, parts[0].1) else HttpAnswer(r, parts[0].1))
  }

  // ---------------------------------------------------------------- the three-way join

  /** Which part finished, and how: the page before, the page after, the post itself. */
  datatype Part = BeforePage(success: bool, ids: seq<Id>) | AfterPage(success: bool, ids: seq<Id>) | Target(success: bool)

  datatype Answer = Nothing | Context(ids: seq<Id>)

  datatype Around = Around(target: Id, before: seq<Id>, after: seq<Id>, pending: nat, failed: bool, answers: seq<Answer>)

  function BeginAround(target: Id): Around {
    Around(target, [], [], 3, false, [])
  }

  /** One part is done; `resident` says whether the post is in its channel at this moment. */
  function PartDone(a: Around, p: Part, resident: bool): Around {
    var b := match p
      case BeforePage(_, ids) => a.(before := ids)
      case AfterPage(_, ids) => a.(after := ids)
      case Target(_) => a;
    var c := b.(failed := b.failed || !p.success, pending := if b.pending > 0 then b.pending - 1 else 0);
    if b.pending != 1 then c
    else if c.failed || !resident then c.(answers := c.answers + [Nothing])
    else c.(answers := c.answers + [Context(FirstOccurrences(c.before + [c.target] + c.after))])
  }

  class AroundJoin {
    var target: Id
    var before: seq<Id>
    var after: seq<Id>
    var pending: nat
    var failed: bool
    var answers: seq<Answer>

    ghost function View(): Around
      reads this
    {
      Around(target, before, after, pending, failed, answers)
    }

    constructor (postId: Id)
      ensures View() == BeginAround(postId)
    {
      target, before, after, pending, failed, answers := postId, [], [], 3, false, [];
    }

    method FinishPart(p: Part, resident: bool)
      requires pending > 0
      modifies this
      ensures View() == PartDone(old(View()), p, resident)
    {
      match p {
        case BeforePage(_, ids) => before := ids;
        case AfterPage(_, ids) => after := ids;
        case Target(_) =>
      }
      failed := failed || !p.success;
      pending := pending - 1;
      if pending != 0 {
        return;
      }
      if failed || !resident {
        answers := answers + [Nothing];
        return;
      }
      var ids := CombineContext(before, target, after);
      answers := answers + [Context(ids)];
    }
  }

  predicate Permuted(ps: seq<Part>, b: Part, a: Part, t: Part) {
    b.BeforePage? && a.AfterPage? && t.Target?
    && (ps == [b, a, t] || ps == [b, t, a] || ps == [a, b, t] || ps == [a, t, b] || ps == [t, a, b] || ps == [t, b, a])
  }

  function Parts(a: Around, ps: seq<Part>, resident: bool): Around
    requires |ps| == 3
  {
    PartDone(PartDone(PartDone(a, ps[0], resident), ps[1], resident), ps[2], resident)
  }

  /**
   * The three parts may finish in any order: nothing is answered before the last, and then exactly one answer is
   * given - the context, if all succeeded and the post is there, and otherwise nothing.
   */
  lemma JoinFiresOnce(target: Id, ps: seq<Part>, b: Part, a: Part, t: Part, resident: bool)
    requires Permuted(ps, b, a, t)
    ensures PartDone(BeginAround(target), ps[0], resident).answers == []
    ensures PartDone(PartDone(BeginAround(target), ps[0], resident), ps[1], resident).answers == []
    ensures Parts(BeginAround(target), ps, resident).answers ==
      [if b.success && a.success && t.success && resident
       then Context(FirstOccurrences(b.ids + [target] + a.ids)) else Nothing]
  {
  }
}
