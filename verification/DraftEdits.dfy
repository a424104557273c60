/** Edits and the saves sent before them: when the answer to an old save can be taken for one to a new edit. */
module DraftEdits {
  import opened Prelude
  import opened DraftModel

  // ---------------------------------------------------------------- the exact condition

  /** An edit that changes an entry is later than it, and unsent. */
  lemma EditIsLater(s: State, channel: Id, root: Id, message: string, reply: Id, now: int)
    requires Ordinary(channel, root) in s.entries
    ensures var (k, t) := (Ordinary(channel, root), Update(s, channel, root, message, reply, now));
      k in t.entries && t.entries[k] != s.entries[k] ==> t.entries[k].at > s.entries[k].at && t.entries[k].dirty
  {
  }

  /** The edit makes or changes the entry, and the answer to this save, sent before, will acknowledge it. */
  predicate Mistaken(s: State, channel: Id, root: Id, message: string, reply: Id, now: int, snapshot: Entry) {
    var (k, t) := (Ordinary(channel, root), Update(s, channel, root, message, reply, now));
    k in t.entries && (k in s.entries ==> t.entries[k] != s.entries[k]) && Acknowledges(snapshot, t.entries[k])
  }

  /** Some edit turns the entry into one with the content of the save. */
  predicate Repeatable(e: Entry, snapshot: Entry) {
    if snapshot.deleted then
      && snapshot.message == "" && snapshot.reply == "" && (e.remote || e.requested)
      && !(e.deleted && e.message == "" && e.reply == "" && !e.requested)
    else snapshot.message != "" && !(e.message == snapshot.message && e.reply == snapshot.reply && !e.deleted)
  }

  /** No edit from this time on can be taken for the one that was saved. */
  predicate Outdated(s: State, k: Key, snapshot: Entry, clock: int) {
    || snapshot.at < clock
    || (if k in s.entries then snapshot.at <= s.entries[k].at || !Repeatable(s.entries[k], snapshot)
        else snapshot.deleted || snapshot.message == "")
  }

  /**
   * From a time on, no edit - whatever it says and whenever it is made - can be acknowledged by a save sent before,
   * exactly when the save is older than that time, or the entry is at least as late as the save, or no edit makes it
   * say what the save said.
   */
  lemma EditOutdatesExactly(s: State, channel: Id, root: Id, snapshot: Entry, clock: int)
    requires channel != ""
    ensures (forall message, reply, now :: now >= clock ==> !Mistaken(s, channel, root, message, reply, now, snapshot))
      <==> Outdated(s, Ordinary(channel, root), snapshot, clock)
  {
    var k := Ordinary(channel, root);
    if !Outdated(s, k, snapshot, clock) {
      assert Mistaken(s, channel, root, snapshot.message, snapshot.reply, snapshot.at, snapshot);
    } else {
      forall message, reply, now | now >= clock ensures !Mistaken(s, channel, root, message, reply, now, snapshot) {
        OutdatedHolds(s, channel, root, message, reply, now, snapshot, clock);
      }
    }
  }

  lemma OutdatedHolds(s: State, channel: Id, root: Id, message: string, reply: Id, now: int, snapshot: Entry, clock: int)
    requires channel != "" && now >= clock && Outdated(s, Ordinary(channel, root), snapshot, clock)
    ensures !Mistaken(s, channel, root, message, reply, now, snapshot)
  {
    if Ordinary(channel, root) in s.entries {
      EditIsLater(s, channel, root, message, reply, now);
    }
  }

  /** What it leads to: no save of the edit is sent, and still the answer to the old one takes it for saved. */
  lemma MistakenIsNotSent(s: State, channel: Id, root: Id, message: string, reply: Id, now: int, snapshot: Entry, at: int)
    requires Mistaken(s, channel, root, message, reply, now, snapshot) && !snapshot.deleted
    ensures var (k, t) := (Ordinary(channel, root), Next(s, Edit(channel, root, message, reply, now)));
      && t.wire == s.wire && k in t.entries && t.entries[k].dirty
      && var u := Acked(t, k, snapshot, Done(at));
      k in u.entries && !u.entries[k].dirty && u.wire == s.wire
  {
  }

  // ---------------------------------------------------------------- two runs in which it happens

  /** The local time at which an action is taken, where it matters. */
  function Time(a: Action): Option<int> {
    match a
    case Edit(_, _, _, _, now) => Some(now)
    case Removal(_, _, now) => Some(now)
    case Recovery(_, _, _, _, now) => Some(now)
    case RecoveredEdit(_, _, _, _, now) => Some(now)
    case KeyRemoval(_, now) => Some(now)
    case _ => None
  }

  function Clock(acts: seq<Action>): int {
    if acts == [] then 0
    else if Time(acts[|acts| - 1]).Some? then Time(acts[|acts| - 1]).value
    else Clock(acts[..|acts| - 1])
  }

  /** The clock never goes back. */
  predicate Forward(acts: seq<Action>) {
    acts == [] || (Forward(acts[..|acts| - 1]) && Clock(acts[..|acts| - 1]) <= Clock(acts))
  }

  const BLANK := State(map[], false, 0, 0, false, {}, multiset{}, false, map[])
  const SENT := Entry("a", "", [], 10, true, false, false, true)
  const ASKED := Save(Ordinary("c", ""), SENT)

  /** One draft and these requests. */
  function Holding(e: Entry, wire: multiset<Request>): State {
    BLANK.(entries := map[Ordinary("c", "") := e], wire := wire)
  }

  lemma Edited()
    ensures Next(BLANK, Edit("c", "", "x", "", 9)) == Holding(Entry("x", "", [], 9, true, false, false, false), multiset{})
    ensures Next(Holding(Entry("x", "", [], 9, true, false, false, false), multiset{}), Edit("c", "", "a", "", 9))
      == Holding(SENT.(requested := false), multiset{})
  {
  }

  lemma FlushedTwice()
    ensures Next(Holding(SENT.(requested := false), multiset{}), Flushing("c", "")) == Holding(SENT, multiset{ASKED})
    ensures Next(Holding(SENT, multiset{ASKED}), Flushing("c", "")) == Holding(SENT, multiset{ASKED, ASKED})
  {
  }

  lemma Answered(at: int)
    requires at > 0
    ensures Next(Holding(SENT, multiset{ASKED, ASKED}), Reply(ASKED, Done(at)))
      == Holding(Entry("a", "", [], at, false, false, true, false), multiset{ASKED})
  {
  }

  lemma DatedBack()
    ensures Next(Holding(Entry("a", "", [], 5, false, false, true, false), multiset{ASKED}), Edit("c", "", "b", "", 9))
      == Holding(Entry("b", "", [], 9, true, false, true, false), multiset{ASKED})
    ensures Mistaken(Holding(Entry("b", "", [], 9, true, false, true, false), multiset{ASKED}), "c", "", "a", "", 10, SENT)
  {
  }

  lemma Erased()
    ensures Next(Holding(Entry("a", "", [], 12, false, false, true, false), multiset{ASKED}),
                 Push(Remote("c", "", "", "", 0), true)) == BLANK.(wire := multiset{ASKED})
    ensures Mistaken(BLANK.(wire := multiset{ASKED}), "c", "", "a", "", 10, SENT)
  {
  }

  lemma Extend(ss: seq<State>, acts: seq<Action>, a: Action, t: State) returns (ss': seq<State>, acts': seq<Action>)
    requires IsRun(ss, acts) && Forward(acts) && Enabled(ss[|acts|], a) && t == Next(ss[|acts|], a)
    requires Time(a).Some? ==> Clock(acts) <= Time(a).value
    ensures IsRun(ss', acts') && ss'[0] == ss[0] && ss'[|acts'|] == t && Forward(acts')
    ensures Clock(acts') == if Time(a).Some? then Time(a).value else Clock(acts)
  {
    ss', acts' := ss + [t], acts + [a];
    assert acts'[..|acts|] == acts;
  }

  /** Two edits in one millisecond - the second gets the time 10 - and two saves, the first of them answered with `at`. */
  lemma SavedTwice(at: int) returns (ss: seq<State>, acts: seq<Action>)
    requires at > 0
    ensures IsRun(ss, acts) && ss[0] == BLANK && Forward(acts) && Clock(acts) == 9
    ensures ss[|acts|] == Holding(Entry("a", "", [], at, false, false, true, false), multiset{ASKED})
  {
    Edited();
    FlushedTwice();
    Answered(at);
    ss, acts := [BLANK], [];
    ss, acts := Extend(ss, acts, Edit("c", "", "x", "", 9), Holding(Entry("x", "", [], 9, true, false, false, false), multiset{}));
    ss, acts := Extend(ss, acts, Edit("c", "", "a", "", 9), Holding(SENT.(requested := false), multiset{}));
    ss, acts := Extend(ss, acts, Flushing("c", ""), Holding(SENT, multiset{ASKED}));
    ss, acts := Extend(ss, acts, Flushing("c", ""), Holding(SENT, multiset{ASKED, ASKED}));
    ss, acts := Extend(ss, acts, Reply(ASKED, Done(at)), Holding(Entry("a", "", [], at, false, false, true, false), multiset{ASKED}));
  }

  /**
   * It happens, from the empty state and with a clock that never goes back: the first answer dates the entry back to
   * 5, it is edited to something else, and at 10 to the first text again, which the second answer confirms.
   */
  lemma ConfirmedAfterDatingBack() returns (ss: seq<State>, acts: seq<Action>)
    ensures IsRun(ss, acts) && ss[0] == BLANK && Forward(acts) && Clock(acts) <= 10 && ASKED in ss[|acts|].wire
    ensures Mistaken(ss[|acts|], "c", "", "a", "", 10, SENT)
  {
    DatedBack();
    ss, acts := SavedTwice(5);
    ss, acts := Extend(ss, acts, Edit("c", "", "b", "", 9), Holding(Entry("b", "", [], 9, true, false, true, false), multiset{ASKED}));
  }

  /**
   * And it happens though no answer dates anything back: the saved entry is erased by a reported deletion, and the
   * same text is typed again at 10.
   */
  lemma ConfirmedAfterErasure() returns (ss: seq<State>, acts: seq<Action>)
    ensures IsRun(ss, acts) && ss[0] == BLANK && Forward(acts) && Clock(acts) <= 10 && ASKED in ss[|acts|].wire
    ensures Mistaken(ss[|acts|], "c", "", "a", "", 10, SENT)
  {
    Erased();
    ss, acts := SavedTwice(12);
    ss, acts := Extend(ss, acts, Push(Remote("c", "", "", "", 0), true), BLANK.(wire := multiset{ASKED}));
  }
}
