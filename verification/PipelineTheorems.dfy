/** The promises of the event pipeline, read off the invariant: order, at most once, no gaps, and
    exactly which runs break the last of them. */
module PipelineTheorems {
  import opened Domain
  import opened EventLog
  import opened Pipeline
  import opened Cursor
  import opened PipelineSafety

  function Passed(s: State): nat {
    Reach(s.log, s.From())
  }

  /** The index of the first event a fetch can return: fetches are strictly after (0,0). */
  function First(log: seq<Event>): nat {
    Reach(log, ORIGIN)
  }

  lemma TiledMeans(s: State)
    requires ViewOf(s).Tiled() && Sorted(s.log)
    ensures ViewOf(s).TiledAt(First(s.log), Passed(s))
  {
    var b: nat, n: nat :| ViewOf(s).TiledAt(b, n);
    ReachUnique(s.log, ORIGIN, b);
    ReachUnique(s.log, s.From(), n);
  }

  lemma ReadTiling(c: Config, actions: seq<Action>, s: State)
    requires IsRun(c, actions, s)
    ensures Sorted(s.log) && ViewOf(s).TiledAt(First(s.log), Passed(s))
  {
    RunKeeps(c, actions, s);
    TiledMeans(s);
  }

  function Pending(hand: Option<Event>, queue: seq<Event>): seq<Event> {
    if hand.Some? then [hand.value] + queue else queue
  }

  /** In every reachable state the event in hand followed by the queue is the contiguous stretch of
      the log right after the cursor; once the cursor has moved onto the event in hand, right from it. */
  lemma HandThenQueueFollowCursor(c: Config, actions: seq<Action>, s: State)
    requires IsRun(c, actions, s)
    ensures Stretch(s.log, Passed(s) - if s.Covered() then 1 else 0, Pending(s.Hand(), s.queue))
  {
    TilingOnly(c, actions, s);
    PendingOfState(s, First(s.log), Passed(s));
  }

  lemma TilingOnly(c: Config, actions: seq<Action>, s: State)
    requires IsRun(c, actions, s)
    ensures ViewOf(s).TiledAt(First(s.log), Passed(s))
  {
    ReadTiling(c, actions, s);
  }

  lemma PendingOfState(s: State, b: nat, n: nat)
    requires ViewOf(s).TiledAt(b, n)
    ensures Stretch(s.log, n - if s.Covered() then 1 else 0, Pending(s.Hand(), s.queue))
  {
    PendingInPlace(ViewOf(s), b, n);
  }

  lemma PendingInPlace(v: View, b: nat, n: nat)
    requires v.TiledAt(b, n)
    ensures Stretch(v.log, n - if v.Covered() then 1 else 0, Pending(v.hand, v.queue))
  {
    var start, pending := n - if v.Covered() then 1 else 0, Pending(v.hand, v.queue);
    if v.hand.Some? {
      OneMoreStretch(v.log, start, v.hand.value, v.queue);
    }
  }

  lemma OneMoreStretch(log: seq<Event>, start: nat, e: Event, rest: seq<Event>)
    requires start < |log| && log[start] == e && Stretch(log, start + 1, rest)
    ensures Stretch(log, start, [e] + rest)
  {
  }

  lemma {:induction false} AppliedInOrder(entries: seq<Entry>)
    requires Sorted(EventsOf(entries))
    ensures Sorted(AppliedEvents(entries))
    ensures forall e :: e in AppliedEvents(entries) ==> e in EventsOf(entries)
  {
    if entries != [] {
      var n := |entries| - 1;
      var front, all := entries[..n], EventsOf(entries);
      assert forall i :: 0 <= i < n ==> EventsOf(front)[i] == all[i];
      AppliedInOrder(front);
      assert all[n] in all;
      forall e | e in AppliedEvents(front) ensures e in all && e.pos.Before(all[n].pos) {
        var i :| 0 <= i < n && EventsOf(front)[i] == e;
        assert all[i] == e;
      }
    }
  }

  /** In every run, with crashes anywhere and in both wirings, the events whose changesets commit form
      a strictly increasing subsequence of the log; so no event's changesets commit twice, and the
      event at (0,0) never commits. */
  lemma CommitsAtMostOnceInOrder(c: Config, actions: seq<Action>, s: State)
    requires IsRun(c, actions, s)
    ensures Sorted(Committed(s.commits))
    ensures forall e :: e in Committed(s.commits) ==> e in s.log && ORIGIN.Before(e.pos)
  {
    RunKeeps(c, actions, s);
    ReadTiling(c, actions, s);
    LedgerInOrder(ViewOf(s), First(s.log), Passed(s));
    AppliedInOrder(s.ledger);
  }

  lemma LedgerInOrder(v: View, b: nat, n: nat)
    requires Sorted(v.log) && v.TiledAt(b, n)
    ensures Sorted(v.judged)
    ensures forall e :: e in v.judged ==> e in v.log && ORIGIN.Before(e.pos)
  {
    forall e | e in v.judged ensures e in v.log && ORIGIN.Before(e.pos) {
      var i :| 0 <= i < |v.judged| && v.judged[i] == e;
      assert e == v.log[b + i];
      assert i > 0 ==> v.log[b].pos.Before(v.log[b + i].pos);
    }
  }

  /** Ledger entry `j` is the one and only verdict on `e`. */
  ghost predicate OnlyVerdict(ledger: seq<Entry>, j: int, e: Event) {
    && 0 <= j < |ledger| && ledger[j].event == e
    && forall k :: 0 <= k < |ledger| && ledger[k].event == e ==> k == j
  }

  lemma {:induction false} NoneCounted(entries: seq<Entry>, v: Verdict, j: nat)
    requires Count(entries, v) == 0 && j < |entries|
    ensures entries[j].verdict != v
  {
    if j < |entries| - 1 {
      NoneCounted(entries[..|entries| - 1], v, j);
    }
  }

  lemma VerdictsAreUnique(s: State, b: nat)
    requires Sorted(s.log) && Stretch(s.log, b, EventsOf(s.ledger))
    ensures forall j :: 0 <= j < |s.ledger| ==> s.ledger[j].event == s.log[b + j]
    ensures forall i :: b <= i < b + |s.ledger| ==> OnlyVerdict(s.ledger, i - b, s.log[i])
  {
    forall j | 0 <= j < |s.ledger| ensures s.ledger[j].event == s.log[b + j] {
      assert EventsOf(s.ledger)[j] == s.ledger[j].event;
    }
    forall i, k | b <= i < b + |s.ledger| && 0 <= k < |s.ledger| && s.ledger[k].event == s.log[i] ensures k == i - b {
      assert s.log[b + k] == s.log[i];
    }
  }

  /** The event at log index `i` is waiting in hand, or was applied, skipped, failed or passed over. */
  ghost predicate Accounted(s: State, i: nat)
    requires i < |s.log|
  {
    || (s.Holding() && !s.Settled() && s.phase.e == s.log[i])
    || exists j :: 0 <= j < |s.ledger| && s.ledger[j].event == s.log[i] && s.ledger[j].verdict != Lost
  }

  ghost predicate GapFree(s: State) {
    forall i :: First(s.log) <= i < Passed(s) ==> Accounted(s, i)
  }

  /** The length of the log prefix that has verdicts: up to the cursor, except for an event in hand
      that a detached cursor is already on. */
  function JudgedUpTo(s: State): int {
    Passed(s) - if s.Exposed() then 1 else 0
  }

  /** Every log event after (0,0) that the cursor has passed has exactly one verdict, and no event
      beyond the cursor has one. */
  lemma OneVerdictEach(c: Config, actions: seq<Action>, s: State)
    requires IsRun(c, actions, s)
    ensures 0 <= JudgedUpTo(s) - First(s.log) == |s.ledger|
    ensures forall i :: First(s.log) <= i < JudgedUpTo(s) ==> OnlyVerdict(s.ledger, i - First(s.log), s.log[i])
    ensures forall j :: 0 <= j < |s.ledger| ==> s.ledger[j].event == s.log[First(s.log) + j]
  {
    LedgerInPlace(c, actions, s);
    VerdictsAreUnique(s, First(s.log));
  }

  lemma LedgerInPlace(c: Config, actions: seq<Action>, s: State)
    requires IsRun(c, actions, s)
    ensures Sorted(s.log) && JudgedUpTo(s) == First(s.log) + |s.ledger|
    ensures Stretch(s.log, First(s.log), EventsOf(s.ledger))
  {
    ReadTiling(c, actions, s);
    JudgedInPlace(ViewOf(s), First(s.log), Passed(s));
  }

  lemma JudgedInPlace(v: View, b: nat, n: nat)
    requires v.TiledAt(b, n)
    ensures v.Judged(n) == b + |v.judged| && Stretch(v.log, b, v.judged)
    ensures v.Exposed() ==> v.log[v.Judged(n)] == v.hand.value
    ensures v.hand.Some? && !v.Covered() ==> n < |v.log| && v.log[n] == v.hand.value
  {
  }

  lemma ExposedIsNext(c: Config, actions: seq<Action>, s: State)
    requires IsRun(c, actions, s) && s.Exposed()
    ensures c.wiring.Detached? && 0 <= JudgedUpTo(s) < |s.log| && s.log[JudgedUpTo(s)] == s.phase.e
  {
    RunKeeps(c, actions, s);
    ReadTiling(c, actions, s);
    JudgedInPlace(ViewOf(s), First(s.log), Passed(s));
  }

  lemma {:induction false} SomeCounted(entries: seq<Entry>, v: Verdict) returns (j: nat)
    requires Count(entries, v) > 0
    ensures j < |entries| && entries[j].verdict == v
  {
    if entries[|entries| - 1].verdict == v {
      j := |entries| - 1;
    } else {
      j := SomeCounted(entries[..|entries| - 1], v);
    }
  }

  /** There is a gap exactly when an event was lost: the ledger of losses is the ledger of gaps. */
  lemma GapFreeIffNoneLost(c: Config, actions: seq<Action>, s: State)
    requires IsRun(c, actions, s)
    ensures GapFree(s) <==> Count(s.ledger, Lost) == 0
  {
    OneVerdictEach(c, actions, s);
    if Count(s.ledger, Lost) > 0 {
      var j := SomeCounted(s.ledger, Lost);
      JudgedIsNotInHand(c, actions, s, First(s.log) + j);
      assert OnlyVerdict(s.ledger, j, s.log[First(s.log) + j]);
      assert !Accounted(s, First(s.log) + j);
    } else {
      NoneLostNoGap(c, actions, s);
    }
  }

  lemma NoneLostNoGap(c: Config, actions: seq<Action>, s: State)
    requires IsRun(c, actions, s) && Count(s.ledger, Lost) == 0
    ensures GapFree(s)
  {
    OneVerdictEach(c, actions, s);
    if s.Exposed() {
      ExposedIsNext(c, actions, s);
    }
    forall i | First(s.log) <= i < Passed(s) ensures Accounted(s, i) {
      if i < JudgedUpTo(s) {
        NoneCounted(s.ledger, Lost, i - First(s.log));
      }
    }
  }

  lemma JudgedIsNotInHand(c: Config, actions: seq<Action>, s: State, i: nat)
    requires IsRun(c, actions, s) && i < JudgedUpTo(s)
    ensures i < |s.log| && (s.Holding() && !s.Settled() ==> s.log[i] != s.phase.e)
  {
    ReadTiling(c, actions, s);
    JudgedInPlace(ViewOf(s), First(s.log), Passed(s));
    if s.Holding() && !s.Settled() {
      assert s.log[i].pos.Before(s.phase.e.pos);
    }
  }

  /** No gaps: when the cursor is transactional, or the run has no crash, every event the cursor has
      passed was applied, skipped, failed or passed over, or is still in hand. */
  lemma NoGaps(c: Config, actions: seq<Action>, s: State)
    requires IsRun(c, actions, s) && (c.wiring.Transactional? || s.crashes == 0)
    ensures GapFree(s)
  {
    RunKeeps(c, actions, s);
    GapFreeIffNoneLost(c, actions, s);
  }

  /** A transaction is open that holds changes and whose cursor write is durable already. */
  predicate InWindow(c: Config, s: State) {
    c.wiring.Detached? && s.phase.Committing? && s.phase.work.Changes?
  }

  /** How many of the run's crashes fall between a detached cursor write and the end of its transaction,
      when that transaction holds changes. */
  ghost function WindowCrashes(c: Config, actions: seq<Action>): nat {
    if actions == [] then 0
    else
      var front, last := actions[..|actions| - 1], actions[|actions| - 1];
      WindowCrashes(c, front)
      + if last.Crash? && Exec(c, front).Some? && InWindow(c, Exec(c, front).value) then 1 else 0
  }

  /** Every crash in that window loses one event, and nothing else loses any. */
  lemma {:induction false} LostAreWindowCrashes(c: Config, actions: seq<Action>, s: State)
    requires IsRun(c, actions, s)
    ensures Count(s.ledger, Lost) == WindowCrashes(c, actions)
  {
    if actions != [] {
      var front, last := actions[..|actions| - 1], actions[|actions| - 1];
      var before := Exec(c, front).value;
      LostAreWindowCrashes(c, front, before);
      RunKeeps(c, front, before);
      LossStep(c, before, last);
    }
  }

  lemma LossStep(c: Config, s: State, a: Action)
    requires PhaseOk(c, s) && Enabled(c, s, a)
    ensures Count(Do(c, s, a).ledger, Lost) == Count(s.ledger, Lost) + if a.Crash? && InWindow(c, s) then 1 else 0
  {
    LedgerOnlyGrows(c, s, a);
    var v := VerdictOf(s, a);
    if v.Some? {
      RecordAppends(s, s.phase.e, v.value);
    }
  }

  /** Which runs have no gap: exactly those none of whose crashes falls between a detached cursor write
      and the end of its transaction, when that transaction holds changes. An event without changes has
      nothing that such a crash could lose. */
  lemma GapFreeIff(c: Config, actions: seq<Action>, s: State)
    requires IsRun(c, actions, s)
    ensures GapFree(s) <==> WindowCrashes(c, actions) == 0
  {
    GapFreeIffNoneLost(c, actions, s);
    LostAreWindowCrashes(c, actions, s);
  }

  /** A shutdown passes over at most one event, and a crash loses at most one. */
  lemma CostOfSignalsAndCrashes(c: Config, actions: seq<Action>, s: State)
    requires IsRun(c, actions, s)
    ensures Count(s.ledger, PassedOver) <= s.signals && Count(s.ledger, Lost) <= s.crashes
  {
    RunKeeps(c, actions, s);
  }

  /** The one action that opens a gap, in any state any run reaches: a crash in that window. A gap that
      is open stays open. */
  lemma GapOpensIff(c: Config, actions: seq<Action>, s: State, a: Action)
    requires IsRun(c, actions, s) && Enabled(c, s, a)
    ensures GapFree(Do(c, s, a)) <==> GapFree(s) && !(a.Crash? && InWindow(c, s))
  {
    RunStep(c, actions, s, a);
    assert (actions + [a])[..|actions|] == actions;
    GapFreeIff(c, actions, s);
    GapFreeIff(c, actions + [a], Do(c, s, a));
  }

  /** The cursor never goes back, so neither does the stretch of the log that later fetches return. */
  lemma CursorNeverGoesBack(c: Config, actions: seq<Action>, s: State, a: Action)
    requires IsRun(c, actions, s) && Enabled(c, s, a)
    ensures s.From().UpTo(Do(c, s, a).From())
  {
    ReadTiling(c, actions, s);
    JudgedInPlace(ViewOf(s), First(s.log), Passed(s));
  }

  lemma {:induction false} LedgerExtends(c: Config, actions: seq<Action>, more: seq<Action>, s: State, t: State)
    requires IsRun(c, actions, s) && IsRun(c, actions + more, t)
    ensures s.ledger <= t.ledger
  {
    if more == [] {
      assert actions + more == actions;
    } else {
      var front := more[..|more| - 1];
      assert (actions + more)[..|actions + more| - 1] == actions + front;
      var before := Exec(c, actions + front).value;
      LedgerExtends(c, actions, front, s, before);
      RunKeeps(c, actions + front, before);
      LedgerOnlyGrows(c, before, more[|more| - 1]);
    }
  }

  lemma {:induction false} AppliedHasEntry(entries: seq<Entry>, e: Event)
    requires e in AppliedEvents(entries)
    ensures Entry(e, Applied) in entries
  {
    var front, last := entries[..|entries| - 1], entries[|entries| - 1];
    if e in AppliedEvents(front) {
      AppliedHasEntry(front, e);
      assert Entry(e, Applied) in front;
    } else {
      assert last == Entry(e, Applied);
    }
  }

  /** A lost event stays lost: no continuation of the run ever commits its changesets. */
  lemma LostForever(c: Config, actions: seq<Action>, more: seq<Action>, s: State, t: State, e: Event)
    requires IsRun(c, actions, s) && IsRun(c, actions + more, t) && Entry(e, Lost) in s.ledger
    ensures e !in Committed(t.commits)
  {
    LedgerExtends(c, actions, more, s, t);
    OneVerdictEach(c, actions + more, t);
    RunKeeps(c, actions + more, t);
    var b := First(t.log);
    var k :| 0 <= k < |t.ledger| && t.ledger[k] == Entry(e, Lost);
    assert OnlyVerdict(t.ledger, b + k - b, t.log[b + k]);
    LostIsNotApplied(t.ledger, k, e);
    if e in AppliedEvents(t.ledger) {
      AppliedHasEntry(t.ledger, e);
    }
  }

  lemma LostIsNotApplied(ledger: seq<Entry>, k: nat, e: Event)
    requires OnlyVerdict(ledger, k, e) && ledger[k].verdict.Lost?
    ensures Entry(e, Applied) !in ledger
  {
  }

  lemma OneEventInHand(c: Config, e: Event) returns (actions: seq<Action>, s: State)
    requires c.fetchLimit > 0 && ORIGIN.Before(e.pos)
    ensures IsRun(c, actions, s)
    ensures s == State([e], None, [], [], Retrying(e, 0), false, [], 0, 0)
  {
    assert INITIAL.log + [e] == [e];
    actions, s := Continue(c, [], INITIAL, Grow([e]));
    actions, s := Continue(c, actions, s, Start);
    assert After([e], ORIGIN) == [e];
    actions, s := Continue(c, actions, s, Fetch);
    assert s.queue == [e] && s.queue[1..] == [];
    actions, s := Continue(c, actions, s, Pop);
  }

  /** With the detached cursor a single crash is enough to lose an event. */
  lemma DetachedCanLose(c: Config, e: Event, q: Quote) returns (actions: seq<Action>, s: State)
    requires c.wiring.Detached? && c.fetchLimit > 0 && ORIGIN.Before(e.pos)
    ensures IsRun(c, actions, s) && s.crashes == 1 && s.ledger == [Entry(e, Lost)]
  {
    actions, s := OneEventInHand(c, e);
    actions, s := Continue(c, actions, s, CheckSignal);
    actions, s := Continue(c, actions, s, Handled(Changes(q)));
    actions, s := Continue(c, actions, s, WriteCursor);
    actions, s := Continue(c, actions, s, Crash);
  }

  lemma Continue(c: Config, actions: seq<Action>, s: State, a: Action) returns (longer: seq<Action>, t: State)
    requires IsRun(c, actions, s) && Enabled(c, s, a)
    ensures IsRun(c, longer, t) && t == Do(c, s, a)
  {
    RunStep(c, actions, s, a);
    longer, t := actions + [a], Do(c, s, a);
  }
}
