/** What a restart does with the stored outbox: hand it over to drafts record by record, and never send it. */
module OutboxRecovery {
  import opened Prelude
  import O = OutboxModel
  import Disk = OutboxDisk
  import Budget = OutboxBudget
  import opened DraftModel
  import opened DraftServices

  /** One element of the stored array: not an object at all, or a post with the post it quotes. */
  datatype Stored = Junk | Item(record: O.Record, reply: Id)

  /** How quoted text is removed from a message is not modelled; any text function may do it. */
  type Strip = string -> string

  function Text(r: Stored, strip: Strip): string
    requires r.Item?
  {
    if r.reply == "" then r.record.message else strip(r.record.message)
  }

  /** Records that carry nothing recoverable are passed over. */
  predicate Skipped(r: Stored, strip: Strip) {
    || r.Junk? || r.record.id == "" || r.record.conversation.channel == ""
    || (r.record.message == "" && r.record.paths == [])
    || (Text(r, strip) == "" && r.record.paths == [])
  }

  function KeyOf(r: Stored): Key
    requires r.Item?
  {
    Key(r.record.conversation.channel, r.record.conversation.root, r.record.id)
  }

  function Items(rs: seq<Stored>): seq<O.Record> {
    if rs == [] then [] else (if rs[0].Item? then [rs[0].record] else []) + Items(rs[1..])
  }

  /** The ordinary draft of the conversation says the same: it is a left-over of the post that was handed over. */
  predicate Leftover(s: State, r: Stored, strip: Strip)
    requires r.Item?
  {
    var k := Ordinary(r.record.conversation.channel, r.record.conversation.root);
    k in s.entries && !s.entries[k].deleted
    && s.entries[k].message == Text(r, strip) && s.entries[k].reply == r.reply
  }

  function DropLeftover(s: State, r: Stored, strip: Strip, now: int): State
    requires r.Item?
  {
    if Leftover(s, r, strip) then Remove(s, r.record.conversation.channel, r.record.conversation.root, now) else s
  }

  /** One record; `writable` says whether the draft file can be written at that moment. */
  function RecoverOne(s: State, r: Stored, strip: Strip, writable: bool, now: int): (State, bool) {
    if Skipped(r, strip) then (s, true)
    else
      var (t, ok) := AddRecovered(s.(writable := writable), KeyOf(r), Text(r, strip), r.reply, r.record.paths, now);
      (if ok then DropLeftover(t, r, strip, now) else t, ok)
  }

  /** The whole stored array, up to the first record that cannot be made durable; the number of records taken. */
  function RecoverAll(s: State, rs: seq<Stored>, strip: Strip, writes: seq<bool>, now: int): (r: (State, nat))
    requires |writes| == |rs|
    ensures r.1 <= |rs|
    decreases |rs|
  {
    if rs == [] then (s, 0)
    else
      var (t, ok) := RecoverOne(s, rs[0], strip, writes[0], now);
      if !ok then (t, 0)
      else
        var (u, n) := RecoverAll(t, rs[1..], strip, writes[1..], now);
        (u, n + 1)
  }

  // ---------------------------------------------------------------- as the service does it

  /**
   * The loop over the stored array. What could not be handed over - from the failed record to the end, unchanged -
   * becomes the backlog that every later write of the outbox file repeats.
   */
  method LoadStore(drafts: DraftService, rs: seq<Stored>, strip: Strip, writes: seq<bool>, now: int)
    returns (taken: nat, backlog: seq<O.Record>, removeFile: bool)
    requires |writes| == |rs|
    modifies drafts
    ensures (drafts.View(), taken) == RecoverAll(old(drafts.View()), rs, strip, writes, now)
    ensures taken <= |rs| && backlog == Items(rs[taken..])
    ensures removeFile <==> taken == |rs|
  {
    taken := 0;
    ghost var all := RecoverAll(drafts.View(), rs, strip, writes, now);
    var failed := false;
    while taken < |rs| && !failed
      invariant taken <= |rs| && (failed ==> taken < |rs|)
      invariant failed ==> all == (drafts.View(), taken)
      invariant !failed ==> all == Onwards(RecoverAll(drafts.View(), rs[taken..], strip, writes[taken..], now), taken)
      decreases |rs| - taken, !failed
    {
      RecoverStep(drafts.View(), rs, strip, writes, now, taken);
      var ok := LoadRecord(drafts, rs[taken], strip, writes[taken], now);
      if ok {
        taken := taken + 1;
      } else {
        failed := true;
      }
    }
    removeFile := !failed;
    backlog := Backlog(rs, taken);
  }

  lemma RecoverStep(s: State, rs: seq<Stored>, strip: Strip, writes: seq<bool>, now: int, i: nat)
    requires |writes| == |rs| && i < |rs|
    ensures var (t, ok) := RecoverOne(s, rs[i], strip, writes[i], now);
      Onwards(RecoverAll(s, rs[i..], strip, writes[i..], now), i)
      == if ok then Onwards(RecoverAll(t, rs[i + 1..], strip, writes[i + 1..], now), i + 1) else (t, i)
  {
    assert rs[i..][1..] == rs[i + 1..] && writes[i..][1..] == writes[i + 1..];
    assert rs[i..][0] == rs[i] && writes[i..][0] == writes[i];
  }

  ghost function Onwards(r: (State, nat), taken: nat): (State, nat) {
    (r.0, r.1 + taken)
  }

  method Backlog(rs: seq<Stored>, taken: nat) returns (backlog: seq<O.Record>)
    requires taken <= |rs|
    ensures backlog == Items(rs[taken..])
  {
    backlog := [];
    var i := taken;
    while i < |rs|
      invariant taken <= i <= |rs|
      invariant backlog + Items(rs[i..]) == Items(rs[taken..])
    {
      assert rs[i..][1..] == rs[i + 1..];
      if rs[i].Item? {
        backlog := backlog + [rs[i].record];
      }
      i := i + 1;
    }
  }

  method LoadRecord(drafts: DraftService, r: Stored, strip: Strip, writable: bool, now: int) returns (ok: bool)
    modifies drafts
    ensures (drafts.View(), ok) == RecoverOne(old(drafts.View()), r, strip, writable, now)
  {
    if r.Junk? || r.record.id == "" || r.record.conversation.channel == ""
       || (r.record.message == "" && r.record.paths == [])
    {
      return true;
    }
    var message := if r.reply == "" then r.record.message else strip(r.record.message);
    if message == "" && r.record.paths == [] {
      return true;
    }
    drafts.writable := writable;
    ok := drafts.AddRecoveredDraft(KeyOf(r), message, r.reply, r.record.paths, now);
    if !ok {
      return;
    }
    var k := Ordinary(r.record.conversation.channel, r.record.conversation.root);
    if k in drafts.entries && !drafts.entries[k].deleted
       && drafts.entries[k].message == message && drafts.entries[k].reply == r.reply
    {
      drafts.RemoveDraft(k.channel, k.root, now);
    }
  }

  // ---------------------------------------------------------------- what recovery guarantees

  /** Every recovered draft in memory is also in the draft file. */
  ghost predicate Durable(s: State) {
    forall k :: k in s.entries && Recovered(k) ==> k in s.disk && s.disk[k] == s.entries[k]
  }

  /** The record's text is a recovered draft of its own, in memory and in the file. */
  ghost predicate HandedOver(s: State, r: Stored, strip: Strip)
    requires r.Item?
  {
    && KeyOf(r) in s.entries && KeyOf(r) in s.disk && s.disk[KeyOf(r)] == s.entries[KeyOf(r)]
    && SameRecovered(s.entries[KeyOf(r)], Text(r, strip), r.reply, r.record.paths)
    && !Leftover(s, r, strip)
  }

  /** No two recoverable records are the same post. */
  ghost predicate DistinctPosts(rs: seq<Stored>) {
    forall i, j :: 0 <= i < j < |rs| && rs[i].Item? && rs[j].Item? ==> KeyOf(rs[i]) != KeyOf(rs[j])
  }

  lemma DropEffect(t: State, r: Stored, strip: Strip, now: int, k: Key)
    requires r.Item? && r.record.conversation.channel != "" && Durable(t)
    ensures var u := DropLeftover(t, r, strip, now);
      && Durable(u)
      && !Leftover(u, r, strip)
      && (Recovered(k) ==> (k in u.entries <==> k in t.entries) && (k in t.entries ==> u.entries[k] == t.entries[k]))
      && (k in u.entries && !u.entries[k].deleted ==> k in t.entries && u.entries[k] == t.entries[k])
  {
  }

  /** A record taken is handed over; nothing else that was there is touched, but for a left-over of that record. */
  lemma OneHandsOver(s: State, r: Stored, strip: Strip, writable: bool, now: int, t: State, ok: bool)
    requires Durable(s) && (t, ok) == RecoverOne(s, r, strip, writable, now)
    ensures Durable(t)
    ensures ok && !Skipped(r, strip) ==> HandedOver(t, r, strip)
    ensures !ok ==> t.entries == s.entries && t.disk == s.disk && !writable
  {
    if !Skipped(r, strip) {
      AddEffect(s.(writable := writable), r, strip, now);
      var u := AddRecovered(s.(writable := writable), KeyOf(r), Text(r, strip), r.reply, r.record.paths, now).0;
      if ok {
        DropEffect(u, r, strip, now, KeyOf(r));
        assert t == DropLeftover(u, r, strip, now);
      }
    }
  }

  lemma AddEffect(s: State, r: Stored, strip: Strip, now: int)
    requires Durable(s) && !Skipped(r, strip)
    ensures var (u, ok) := AddRecovered(s, KeyOf(r), Text(r, strip), r.reply, r.record.paths, now);
      && Durable(u)
      && (ok ==> KeyOf(r) in u.entries && SameRecovered(u.entries[KeyOf(r)], Text(r, strip), r.reply, r.record.paths))
      && (!ok ==> u == s && !s.writable)
  {
  }

  lemma OneSpares(s: State, r: Stored, strip: Strip, writable: bool, now: int, t: State, ok: bool, k: Key)
    requires Durable(s) && (t, ok) == RecoverOne(s, r, strip, writable, now)
    requires r.Item? ==> k != KeyOf(r)
    ensures Recovered(k) ==> (k in t.entries <==> k in s.entries) && (k in s.entries ==> t.entries[k] == s.entries[k])
    ensures k in t.entries && !t.entries[k].deleted ==> k in s.entries && t.entries[k] == s.entries[k]
  {
    if !Skipped(r, strip) && ok {
      AddEffect(s.(writable := writable), r, strip, now);
      var u := AddRecovered(s.(writable := writable), KeyOf(r), Text(r, strip), r.reply, r.record.paths, now).0;
      DropEffect(u, r, strip, now, k);
      assert t == DropLeftover(u, r, strip, now);
    }
  }

  lemma HandedOverStays(s: State, r: Stored, strip: Strip, writable: bool, now: int, t: State, ok: bool, q: Stored)
    requires Durable(s) && (t, ok) == RecoverOne(s, r, strip, writable, now)
    requires q.Item? && q.record.id != "" && HandedOver(s, q, strip) && (r.Item? ==> KeyOf(q) != KeyOf(r))
    ensures HandedOver(t, q, strip)
  {
    OneHandsOver(s, r, strip, writable, now, t, ok);
    OneSpares(s, r, strip, writable, now, t, ok, KeyOf(q));
    if r.Item? {
      var k := Ordinary(q.record.conversation.channel, q.record.conversation.root);
      if k != KeyOf(r) {
        OneSpares(s, r, strip, writable, now, t, ok, k);
      }
    }
  }

  /** What has been handed over stays so while other posts are. */
  lemma {:induction false} HandedOverKeeps(s: State, rs: seq<Stored>, strip: Strip, writes: seq<bool>, now: int, q: Stored)
    requires |writes| == |rs| && Durable(s) && q.Item? && q.record.id != "" && HandedOver(s, q, strip)
    requires forall i :: 0 <= i < |rs| && rs[i].Item? ==> KeyOf(rs[i]) != KeyOf(q)
    ensures HandedOver(RecoverAll(s, rs, strip, writes, now).0, q, strip)
    decreases |rs|
  {
    if rs != [] {
      var (t, ok) := RecoverOne(s, rs[0], strip, writes[0], now);
      HandedOverStays(s, rs[0], strip, writes[0], now, t, ok, q);
      OneHandsOver(s, rs[0], strip, writes[0], now, t, ok);
      if ok {
        HandedOverKeeps(t, rs[1..], strip, writes[1..], now, q);
      }
    }
  }

  /**
   * The records taken are exactly a prefix, each durable as a draft of its own; recovery stops only at a record
   * that could not be written, and that record is still in the file and in the backlog.
   */
  lemma {:induction false} PrefixIsDurable(s: State, rs: seq<Stored>, strip: Strip, writes: seq<bool>, now: int)
    requires |writes| == |rs| && Durable(s) && DistinctPosts(rs)
    ensures var (t, n) := RecoverAll(s, rs, strip, writes, now);
      && Durable(t)
      && (forall i :: 0 <= i < n && !Skipped(rs[i], strip) ==> HandedOver(t, rs[i], strip))
      && (n < |rs| ==> !writes[n] && !Skipped(rs[n], strip))
    decreases |rs|
  {
    if rs != [] {
      var (t, ok) := RecoverOne(s, rs[0], strip, writes[0], now);
      OneHandsOver(s, rs[0], strip, writes[0], now, t, ok);
      if ok {
        assert DistinctPosts(rs[1..]) by {
          assert forall i :: 0 <= i < |rs| - 1 ==> rs[1..][i] == rs[i + 1];
        }
        PrefixIsDurable(t, rs[1..], strip, writes[1..], now);
        var (u, n) := RecoverAll(t, rs[1..], strip, writes[1..], now);
        if !Skipped(rs[0], strip) {
          HandedOverKeeps(t, rs[1..], strip, writes[1..], now, rs[0]);
        }
        OneMoreTaken(u, rs, strip, n);
        assert n < |rs| - 1 ==> rs[1..][n] == rs[n + 1] && writes[1..][n] == writes[n + 1];
      }
    }
  }

  /** No two stored posts of one conversation have the same identifier. */
  ghost predicate DistinctRecords(rs: seq<Stored>) {
    forall i, j :: 0 <= i < j < |rs| && rs[i].Item? && rs[j].Item? ==>
      rs[i].record.id != rs[j].record.id || rs[i].record.conversation != rs[j].record.conversation
  }

  /** There is something in the record to recover: an unquoted text, or files. */
  predicate Recoverable(r: Stored) {
    r.Item? && r.record.id != "" && r.record.conversation.channel != ""
    && ((r.reply == "" && r.record.message != "") || r.record.paths != [])
  }

  /** A record taken is a draft of its own conversation and post, with its text, quoted post and files, also in the file. */
  lemma TakenIsDraft(s: State, rs: seq<Stored>, strip: Strip, writes: seq<bool>, now: int, i: nat)
    requires |writes| == |rs| && Durable(s) && DistinctRecords(rs) && i < RecoverAll(s, rs, strip, writes, now).1
    requires Recoverable(rs[i])
    ensures var (t, c, r) := (RecoverAll(s, rs, strip, writes, now).0, rs[i].record.conversation, rs[i].record);
      var k := Key(c.channel, c.root, r.id);
      && k in t.entries && k in t.disk && t.disk[k] == t.entries[k] && !t.entries[k].deleted
      && t.entries[k].message == (if rs[i].reply == "" then r.message else strip(r.message))
      && t.entries[k].reply == rs[i].reply && t.entries[k].paths == r.paths
  {
    PrefixIsDurable(s, rs, strip, writes, now);
    assert HandedOver(RecoverAll(s, rs, strip, writes, now).0, rs[i], strip);
  }

  /** With the first record handed over, and n of the others, n + 1 are. */
  lemma OneMoreTaken(u: State, rs: seq<Stored>, strip: Strip, n: nat)
    requires rs != [] && n <= |rs| - 1 && (!Skipped(rs[0], strip) ==> HandedOver(u, rs[0], strip))
    requires forall i :: 0 <= i < n && !Skipped(rs[1..][i], strip) ==> HandedOver(u, rs[1..][i], strip)
    ensures forall i :: 0 <= i < n + 1 && !Skipped(rs[i], strip) ==> HandedOver(u, rs[i], strip)
  {
    forall i | 0 <= i < n + 1 && !Skipped(rs[i], strip) ensures HandedOver(u, rs[i], strip) {
      assert i > 0 ==> rs[i] == rs[1..][i - 1];
    }
  }

  /** Recovery creates no live draft but those of the records, and touches no recovered draft of another post. */
  lemma {:induction false} OthersUntouched(s: State, rs: seq<Stored>, strip: Strip, writes: seq<bool>, now: int, k: Key)
    requires |writes| == |rs| && Durable(s)
    requires forall i :: 0 <= i < |rs| && rs[i].Item? ==> KeyOf(rs[i]) != k
    ensures var t := RecoverAll(s, rs, strip, writes, now).0;
      && (Recovered(k) ==> (k in t.entries <==> k in s.entries) && (k in s.entries ==> t.entries[k] == s.entries[k]))
      && (k in t.entries && !t.entries[k].deleted ==> k in s.entries && t.entries[k] == s.entries[k])
    decreases |rs|
  {
    if rs != [] {
      var (t, ok) := RecoverOne(s, rs[0], strip, writes[0], now);
      OneHandsOver(s, rs[0], strip, writes[0], now, t, ok);
      OneSpares(s, rs[0], strip, writes[0], now, t, ok, k);
      if ok {
        OthersUntouched(t, rs[1..], strip, writes[1..], now, k);
      }
    }
  }

  ghost predicate SameDrafts(s: State, t: State) {
    t == s.(writable := t.writable)
  }

  /** Records whose drafts are still there unedited are taken again without changing anything, even if nothing can be written. */
  lemma {:induction false} RepeatChangesNothing(s: State, rs: seq<Stored>, strip: Strip, writes: seq<bool>, now: int)
    requires |writes| == |rs|
    requires forall i :: 0 <= i < |rs| && !Skipped(rs[i], strip) ==> HandedOver(s, rs[i], strip)
    ensures var (t, n) := RecoverAll(s, rs, strip, writes, now); n == |rs| && SameDrafts(s, t)
    decreases |rs|
  {
    if rs != [] {
      var (t, ok) := RecoverOne(s, rs[0], strip, writes[0], now);
      assert ok && SameDrafts(s, t) by {
        if !Skipped(rs[0], strip) {
          assert HandedOver(s, rs[0], strip);
        }
      }
      forall i | 0 <= i < |rs| - 1 && !Skipped(rs[1..][i], strip) ensures HandedOver(t, rs[1..][i], strip) {
        assert rs[1..][i] == rs[i + 1] && HandedOver(s, rs[i + 1], strip);
      }
      RepeatChangesNothing(t, rs[1..], strip, writes[1..], now);
    }
  }

  /** A second restart with the same file finds its drafts and changes nothing before the record that failed. */
  lemma RecoveryIsIdempotent(s: State, rs: seq<Stored>, strip: Strip, writes: seq<bool>, now: int,
                             again: seq<bool>, later: int)
    requires |writes| == |rs| && Durable(s) && DistinctPosts(rs)
    requires |again| == RecoverAll(s, rs, strip, writes, now).1
    ensures var (t, n) := RecoverAll(s, rs, strip, writes, now);
      var (u, m) := RecoverAll(t, rs[..n], strip, again, later); m == n && SameDrafts(t, u)
  {
    PrefixIsDurable(s, rs, strip, writes, now);
    var (t, n) := RecoverAll(s, rs, strip, writes, now);
    RepeatChangesNothing(t, rs[..n], strip, again, later);
  }

  lemma {:induction false} ItemsSplit(rs: seq<Stored>, n: nat)
    requires n <= |rs|
    ensures Items(rs) == Items(rs[..n]) + Items(rs[n..])
  {
    if n > 0 {
      assert rs[..n][0] == rs[0] && rs[..n][1..] == rs[1..][..n - 1] && rs[1..][n - 1..] == rs[n..];
      ItemsSplit(rs[1..], n - 1);
    } else {
      assert rs[..0] == [] && rs[0..] == rs;
    }
  }

  /** The world a session starts in: what recovery could not hand over waits in the file; nothing is queued or sent. */
  function Restarted(rs: seq<Stored>, taken: nat, w: O.World): O.World
    requires taken <= |rs|
  {
    w.(order := [], owned := [], flow := O.Flow(map[], multiset{}), confirmed := {}, saveScheduled := false,
       uploads := map[], wire := [], used := {}, backlog := Items(rs[taken..]),
       disk := if taken == |rs| then [] else Items(rs))
  }

  lemma RestartedIsInitial(rs: seq<Stored>, taken: nat, w: O.World)
    requires taken <= |rs|
    ensures O.Initial(Restarted(rs, taken, w))
  {
    ItemsSplit(rs, taken);
    if taken == |rs| {
      assert rs[taken..] == [];
    }
  }

  lemma {:induction false} ItemIn(rs: seq<Stored>, i: nat)
    requires i < |rs| && rs[i].Item?
    ensures rs[i].record in Items(rs)
  {
    if i > 0 {
      ItemIn(rs[1..], i - 1);
    }
  }

  lemma InBacklog(rs: seq<Stored>, taken: nat, i: nat)
    requires taken <= i < |rs| && rs[i].Item?
    ensures rs[i].record in Items(rs[taken..]) && rs[i].record in Items(rs)
  {
    ItemIn(rs[taken..], i - taken);
    ItemIn(rs, i);
  }

  /** What recovery did not take is in the file during the whole session that follows. */
  lemma BacklogStays(rs: seq<Stored>, taken: nat, w: O.World, ws: seq<O.World>, acts: seq<O.Action>, m: nat, i: nat)
    requires O.IsRun(ws, acts) && m < |ws| && taken <= i < |rs| && rs[i].Item? && ws[0] == Restarted(rs, taken, w)
    ensures rs[i].record in ws[m].disk
  {
    InBacklog(rs, taken, i);
    Disk.BacklogSurvives(ws, acts, m);
    if ws[m].disk != ws[0].disk {
      var k :| 0 <= k < |ws[0].backlog| && ws[0].backlog[k] == rs[i].record;
      assert ws[m].disk[..|ws[0].backlog|][k] == rs[i].record;
    }
  }

  /**
   * A restart loses no usable record and sends none: each is durable as a draft of its own, or stays in the outbox
   * file through every run of the session that follows, in which only what that session submitted is sent.
   */
  lemma NothingLostNothingSent(s: State, rs: seq<Stored>, strip: Strip, writes: seq<bool>, now: int, w: O.World,
                               ws: seq<O.World>, acts: seq<O.Action>, m: nat)
    requires |writes| == |rs| && Durable(s) && DistinctPosts(rs) && O.IsRun(ws, acts) && m < |ws|
    requires ws[0] == Restarted(rs, RecoverAll(s, rs, strip, writes, now).1, w)
    ensures forall i :: 0 <= i < |rs| && !Skipped(rs[i], strip) ==>
      HandedOver(RecoverAll(s, rs, strip, writes, now).0, rs[i], strip) || rs[i].record in ws[m].disk
    ensures Budget.AllSubmitted(ws[m], acts, m)
  {
    var (t, n) := RecoverAll(s, rs, strip, writes, now);
    PrefixIsDurable(s, rs, strip, writes, now);
    forall i | 0 <= i < |rs| && !Skipped(rs[i], strip) ensures HandedOver(t, rs[i], strip) || rs[i].record in ws[m].disk {
      if i >= n {
        BacklogStays(rs, n, w, ws, acts, m, i);
      }
    }
    RestartedIsInitial(rs, n, w);
    Budget.OnlySubmittedIsSent(ws, acts, m);
  }
}
