/** Mentions of a channel that was viewed: when they stay away, and when they come back. */
module ActivityMentions {
  import opened Prelude
  import opened Activity

  /** Neither a set-unread nor a snapshot at least as new as this view. */
  predicate NoNewer(ev: Event, viewedAt: nat) {
    !ev.SetUnread? && (ev.Snapshot? ==> ev.m.viewedAt < viewedAt)
  }

  predicate NoneNewer(evs: seq<Event>, viewedAt: nat) {
    forall i :: 0 <= i < |evs| ==> NoNewer(evs[i], viewedAt)
  }

  // ---------------------------------------------------------------- outside root mode

  predicate MentionsRead(e: Entry, viewedAt: nat) {
    e.all.known && e.viewedAt >= viewedAt && e.server.mentions == 0 && e.server.rootMentions == 0 && !e.server.mentioned
  }

  lemma ViewReadsMentions(e: Entry, at: nat, total: nat, rootTotal: Option<nat>)
    requires !e.rootMode
    ensures MentionsRead(Viewed(e, at, total, rootTotal), at)
  {
  }

  lemma MentionsStep(e: Entry, ev: Event, viewedAt: nat, f: Entry)
    requires MentionsRead(e, viewedAt) && NoNewer(ev, viewedAt) && f == Next(e, ev)
    ensures MentionsRead(f, viewedAt)
  {
  }

  lemma {:induction false} ReadMentionsStay(e: Entry, evs: seq<Event>, viewedAt: nat)
    requires MentionsRead(e, viewedAt) && NoneNewer(evs, viewedAt)
    ensures MentionsRead(Run(e, evs), viewedAt)
  {
    if evs != [] {
      var front := evs[..|evs| - 1];
      assert NoneNewer(front, viewedAt) by {
        assert forall i :: 0 <= i < |front| ==> front[i] == evs[i];
      }
      ReadMentionsStay(e, front, viewedAt);
      MentionsStep(Run(e, front), evs[|evs| - 1], viewedAt, Run(e, evs));
    }
  }

  /**
   * A channel viewed outside root mode has no mention left, and none comes back over any run whose snapshots are all
   * older than the view - whatever is posted, synchronised and viewed meanwhile.
   */
  lemma MentionsStayRead(e: Entry, at: nat, total: nat, rootTotal: Option<nat>, evs: seq<Event>)
    requires !e.rootMode && NoneNewer(evs, at)
    ensures var f := Run(Next(e, View(at, total, rootTotal)), evs);
      f.server.mentions == 0 && f.server.rootMentions == 0 && !f.server.mentioned
  {
    ViewReadsMentions(e, at, total, rootTotal);
    ReadMentionsStay(Viewed(e, at, total, rootTotal), evs, at);
  }

  // ---------------------------------------------------------------- in root mode

  /** Root mode needs a root counter, and a root counter never comes without one of all messages. */
  predicate Rooted(e: Entry) {
    (e.rootMode ==> e.roots.known) && (e.roots.known ==> e.all.known)
  }

  lemma RootedStep(e: Entry, ev: Event, f: Entry)
    requires Rooted(e) && f == Next(e, ev)
    ensures Rooted(f)
  {
  }

  lemma {:induction false} RunRooted(evs: seq<Event>)
    ensures Rooted(Run(FRESH, evs))
  {
    if evs != [] {
      RunRooted(evs[..|evs| - 1]);
      RootedStep(Run(FRESH, evs[..|evs| - 1]), evs[|evs| - 1], Run(FRESH, evs));
    }
  }

  /** Nothing newer than the view arrives, and whatever is synchronised keeps to root mode. */
  predicate Quiet(evs: seq<Event>, viewedAt: nat) {
    NoneNewer(evs, viewedAt) && forall i :: 0 <= i < |evs| && evs[i].Sync? ==> evs[i].collapsed && evs[i].rootTotal.Some?
  }

  predicate RootMentionsRead(e: Entry, viewedAt: nat) {
    && e.roots.known && e.all.known && e.viewedAt >= viewedAt && e.server.rootMentions == 0 && !e.server.mentioned
    && (e.server.hasRootMentions || e.server.mentions == 0)
  }

  lemma RootMentionsStep(e: Entry, ev: Event, viewedAt: nat, f: Entry)
    requires RootMentionsRead(e, viewedAt) && NoNewer(ev, viewedAt) && f == Next(e, ev)
    requires ev.Sync? ==> ev.collapsed && ev.rootTotal.Some?
    ensures RootMentionsRead(f, viewedAt)
  {
  }

  lemma {:induction false} ReadRootMentionsStay(e: Entry, evs: seq<Event>, viewedAt: nat)
    requires RootMentionsRead(e, viewedAt) && Quiet(evs, viewedAt)
    ensures RootMentionsRead(Run(e, evs), viewedAt)
  {
    if evs != [] {
      var front := evs[..|evs| - 1];
      assert Quiet(front, viewedAt) by {
        assert forall i :: 0 <= i < |front| ==> front[i] == evs[i];
      }
      ReadRootMentionsStay(e, front, viewedAt);
      RootMentionsStep(Run(e, front), evs[|evs| - 1], viewedAt, Run(e, evs));
    }
  }

  /** A synchronisation that keeps to root mode. */
  const RESYNC := Sync(0, 0, Some(0), true)

  lemma ResyncShows(e: Entry)
    requires e.tracked && e.roots.known && !e.server.hasRootMentions && e.server.mentions > 0
    ensures Run(e, [RESYNC]).server.mentioned
  {
    assert [RESYNC][..0] == [];
    assert Run(e, [RESYNC]) == Next(e, RESYNC);
  }

  /** The mention of a viewed channel stays away, whatever follows without newer snapshots and in root mode. */
  ghost predicate StaysAway(e: Entry, viewedAt: nat) {
    forall evs :: Quiet(evs, viewedAt) ==> !Run(e, evs).server.mentioned
  }

  /**
   * The exact condition, for every history and every view: the mention stays away if and only if the channel was not
   * viewed in root mode, or the server counts root mentions apart, or there was no mention.
   */
  lemma ViewedMentionStaysAway(past: seq<Event>, at: nat, total: nat, rootTotal: Option<nat>)
    ensures var e := Run(FRESH, past);
      StaysAway(Next(e, View(at, total, rootTotal)), at)
      <==> (!e.rootMode || e.server.hasRootMentions || e.server.mentions == 0)
  {
    RunRooted(past);
    var e := Run(FRESH, past);
    var v := Next(e, View(at, total, rootTotal));
    if !e.rootMode {
      forall evs | Quiet(evs, at) ensures !Run(v, evs).server.mentioned {
        MentionsStayRead(e, at, total, rootTotal, evs);
      }
    } else if e.server.hasRootMentions || e.server.mentions == 0 {
      forall evs | Quiet(evs, at) ensures !Run(v, evs).server.mentioned {
        ReadRootMentionsStay(v, evs, at);
      }
    } else {
      ResyncShows(v);
      assert Quiet([RESYNC], at);
    }
  }

  /** One mention, and no count of root mentions. */
  const MENTIONED := Snapshot(Membership(0, 5, Some(3), 1, 0, false, false))

  const COLLAPSE := Sync(0, 5, Some(3), true)
  const SEEN := View(1, 5, Some(3))

  lemma RunAppend(e: Entry, evs: seq<Event>, ev: Event)
    ensures Run(e, evs + [ev]) == Next(Run(e, evs), ev)
  {
    assert (evs + [ev])[..|evs|] == evs;
  }

  /** It does come back, with no snapshot after the view: viewing clears it, and the next synchronisation sets it again. */
  lemma MentionComesBack()
    ensures var seen := Run(FRESH, [MENTIONED, COLLAPSE, SEEN]);
      !seen.server.mentioned && Run(seen, [RESYNC]).server.mentioned && IsUnread(Run(seen, [RESYNC]))
  {
    RunAppend(FRESH, [], MENTIONED);
    RunAppend(FRESH, [MENTIONED], COLLAPSE);
    RunAppend(FRESH, [MENTIONED, COLLAPSE], SEEN);
    assert [] + [MENTIONED] == [MENTIONED] && [MENTIONED] + [COLLAPSE] == [MENTIONED, COLLAPSE];
    assert [MENTIONED, COLLAPSE] + [SEEN] == [MENTIONED, COLLAPSE, SEEN];
    var seen := Run(FRESH, [MENTIONED, COLLAPSE, SEEN]);
    ResyncShows(seen);
    RunAppend(seen, [], RESYNC);
    assert [] + [RESYNC] == [RESYNC];
  }
}
