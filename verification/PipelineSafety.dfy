/** What every run of the pipeline keeps, in either wiring and wherever it crashes. */
module PipelineSafety {
  import opened Domain
  import opened EventLog
  import opened Pipeline
  import opened Cursor

  // ---------------------------------------------------------------- vocabulary

  function EventsOf(entries: seq<Entry>): (r: seq<Event>)
    ensures |r| == |entries|
  {
    seq(|entries|, i requires 0 <= i < |entries| => entries[i].event)
  }

  function Count(entries: seq<Entry>, v: Verdict): (n: nat)
    ensures n <= |entries|
  {
    if entries == [] then 0
    else Count(entries[..|entries| - 1], v) + if entries[|entries| - 1].verdict == v then 1 else 0
  }

  /** The events applied according to the ledger, in ledger order. */
  function AppliedEvents(entries: seq<Entry>): seq<Event> {
    if entries == [] then []
    else
      var last := entries[|entries| - 1];
      AppliedEvents(entries[..|entries| - 1]) + if last.verdict.Applied? then [last.event] else []
  }

  function Committed(commits: seq<Commit>): (r: seq<Event>)
    ensures |r| == |commits|
  {
    seq(|commits|, i requires 0 <= i < |commits| => commits[i].event)
  }

  function ViewOf(s: State): View {
    View(s.log, s.cursor, s.queue, s.Hand(), s.Settled(), EventsOf(s.ledger))
  }

  // ---------------------------------------------------------------- the invariant

  ghost predicate PhaseOk(c: Config, s: State) {
    && (s.Settled() ==> s.Covered())
    && (s.phase.Committing? ==> (s.Covered() <==> c.wiring.Detached?))
    && (s.Covered() ==> !s.phase.Retrying? && !s.phase.Handling? && !s.phase.Writing?)
    && (s.Exposed() ==> c.wiring.Detached?)
    && (s.phase.Down? ==> !s.aborted && s.queue == [])
    && (s.phase.Throwing? && s.phase.cause.Aborted? ==> s.aborted && (s.Covered() ==> s.phase.committed))
    && (s.phase.Retrying? || s.phase.Handling? ==> s.phase.attempts == 0 || s.phase.attempts < c.maxAttempts)
  }

  ghost predicate Bookkeeping(c: Config, s: State) {
    && Committed(s.commits) == AppliedEvents(s.ledger)
    && Count(s.ledger, Lost) <= s.crashes
    && (c.wiring.Transactional? ==> Count(s.ledger, Lost) == 0)
    && Count(s.ledger, PassedOver) + (if s.aborted && !s.phase.Top? then 1 else 0) <= s.signals
  }

  ghost predicate Inv(c: Config, s: State) {
    Sorted(s.log) && PhaseOk(c, s) && Bookkeeping(c, s) && ViewOf(s).Tiled()
  }

  function Landing(work: Work): Verdict {
    if work.Changes? then Applied else Skipped
  }

  function Complaint(cause: Cause): Verdict {
    if cause.Aborted? then PassedOver else Failed
  }

  /** The verdict an action gives the event in hand, if it gives one. */
  function VerdictOf(s: State, a: Action): Option<Verdict> {
    match a
    case Crash => if s.Exposed() then Some(Parting(s.phase)) else None
    case CommitOk => if s.phase.Committing? then Some(Landing(s.phase.work)) else None
    case CommitThrows(reached) => if s.phase.Committing? && reached then Some(Landing(s.phase.work)) else None
    case SaveOk => if s.phase.Throwing? && !s.phase.committed then Some(Complaint(s.phase.cause)) else None
    case SaveThrows(reached) =>
      if s.phase.Throwing? && !s.phase.committed && reached then Some(Complaint(s.phase.cause))
      else if s.Exposed() then Some(Failed)
      else None
    case _ => None
  }

  // ---------------------------------------------------------------- preservation

  lemma RecordAppends(s: State, e: Event, v: Verdict)
    ensures var l := s.Record(e, v).ledger;
            && EventsOf(l) == EventsOf(s.ledger) + [e]
            && AppliedEvents(l) == AppliedEvents(s.ledger) + (if v.Applied? then [e] else [])
            && Count(l, Lost) == Count(s.ledger, Lost) + (if v.Lost? then 1 else 0)
            && Count(l, PassedOver) == Count(s.ledger, PassedOver) + (if v.PassedOver? then 1 else 0)
  {
    assert s.Record(e, v).ledger[..|s.ledger|] == s.ledger;
  }

  /** Every action that settles the event in hand acts on the view as `Judge`. */
  lemma SettlingJudges(s: State, t: State, v: Verdict)
    requires s.Holding() && !s.Settled()
    requires t == s.Save(s.phase.e).Record(s.phase.e, v).(commits := t.commits, phase := t.phase)
    requires t.Holding() ==> t.Settled() && t.phase.e == s.phase.e
    ensures ViewOf(t) == if t.Holding() then Judge(ViewOf(s)) else Released(Judge(ViewOf(s)))
  {
    RecordAppends(s, s.phase.e, v);
  }

  lemma SettlingTiles(s: State, t: State, v: Verdict)
    requires s.Holding() && !s.Settled() && ViewOf(s).Tiled() && Sorted(s.log)
    requires t == s.Save(s.phase.e).Record(s.phase.e, v).(commits := t.commits, phase := t.phase)
    requires t.Holding() ==> t.Settled() && t.phase.e == s.phase.e
    ensures ViewOf(t).Tiled()
  {
    SettlingJudges(s, t, v);
    JudgeTiled(ViewOf(s));
    ReleasedTiled(Judge(ViewOf(s)));
  }

  lemma GoneTiles(s: State)
    requires ViewOf(s).Tiled() && !s.Exposed()
    ensures ViewOf(s.Gone()).Tiled()
  {
    EmptiedTiled(ViewOf(s));
    assert ViewOf(s.Gone()) == Emptied(ViewOf(s));
  }

  /** Actions on the log and the queue. */
  lemma FeedTiles(c: Config, s: State, a: Action)
    requires Sorted(s.log) && ViewOf(s).Tiled() && Enabled(c, s, a) && (a.Grow? || a.Fetch? || a.Pop?)
    ensures ViewOf(Do(c, s, a)).Tiled()
  {
    var t, v := Do(c, s, a), ViewOf(s);
    if a.Grow? {
      GrownTiled(v, s.log + a.more);
      assert ViewOf(t) == Grown(v, s.log + a.more);
    } else if a.Fetch? {
      FilledTiled(v, c.fetchLimit);
      assert ViewOf(t) == Filled(v, c.fetchLimit);
    } else if s.queue != [] {
      TakenTiled(v);
      assert ViewOf(t) == Taken(v);
    }
  }

  /** Actions inside an open transaction. */
  lemma WriteTiles(c: Config, s: State, a: Action)
    requires Sorted(s.log) && ViewOf(s).Tiled() && Enabled(c, s, a) && (a.WriteThrows? || a.WriteCursor?)
    ensures ViewOf(Do(c, s, a)).Tiled()
  {
    MovedTiled(ViewOf(s));
    assert ViewOf(Do(c, s, a)) == ViewOf(s) || ViewOf(Do(c, s, a)) == Moved(ViewOf(s));
  }

  lemma ReturnTiles(c: Config, s: State)
    requires ViewOf(s).Tiled() && s.phase.Finished?
    ensures ViewOf(Do(c, s, Return)).Tiled()
  {
    ReleasedTiled(ViewOf(s));
    assert ViewOf(Do(c, s, Return)) == if s.aborted then ViewOf(s) else Released(ViewOf(s));
  }

  /** Actions the cursor discipline does not see. */
  lemma IdleTiles(c: Config, s: State, a: Action)
    requires Enabled(c, s, a)
    requires a.Start? || a.Signal? || a.FetchThrows? || a.Proceed? || a.CheckSignal? || a.Handled? || a.HandlerThrows?
    ensures ViewOf(Do(c, s, a)) == ViewOf(s)
  {
  }

  lemma CommitTiles(c: Config, s: State, a: Action)
    requires Sorted(s.log) && ViewOf(s).Tiled() && Enabled(c, s, a) && (a.CommitOk? || a.CommitThrows?)
    ensures ViewOf(Do(c, s, a)).Tiled()
  {
    var t := Do(c, s, a);
    if a.CommitOk? || a.reached {
      SettlingTiles(s, t, Landing(s.phase.work));
    } else {
      assert ViewOf(t) == ViewOf(s);
    }
  }

  lemma CrashTiles(c: Config, s: State)
    requires Sorted(s.log) && ViewOf(s).Tiled() && Enabled(c, s, Crash)
    ensures ViewOf(Do(c, s, Crash)).Tiled()
  {
    if s.Exposed() {
      var m := s.Abandoned().(phase := Finished(s.phase.e));
      SettlingTiles(s, m, Parting(s.phase));
      GoneTiles(m);
      assert ViewOf(Do(c, s, Crash)) == ViewOf(m.Gone());
    } else {
      GoneTiles(s);
      assert ViewOf(Do(c, s, Crash)) == ViewOf(s.Gone());
    }
  }

  lemma SaveTiles(s: State)
    requires Sorted(s.log) && ViewOf(s).Tiled() && s.phase.Throwing?
    ensures ViewOf(Saved(s).(phase := Top)).Tiled()
  {
    if s.phase.committed {
      ReleasedTiled(ViewOf(s));
      assert ViewOf(Saved(s).(phase := Top)) == Released(ViewOf(s));
    } else {
      SettlingTiles(s, Saved(s).(phase := Top), Complaint(s.phase.cause));
    }
  }

  lemma SaveThrowsTiles(c: Config, s: State, reached: bool)
    requires Sorted(s.log) && ViewOf(s).Tiled() && Enabled(c, s, SaveThrows(reached))
    ensures ViewOf(Do(c, s, SaveThrows(reached))).Tiled()
  {
    if reached {
      SaveTiles(s);
      GoneTiles(Saved(s).(phase := Top));
      assert ViewOf(Saved(s).Gone()) == ViewOf(Saved(s).(phase := Top).Gone());
    } else if s.Exposed() {
      var m := s.Record(s.phase.e, Failed).(phase := Finished(s.phase.e));
      SettlingTiles(s, m, Failed);
      GoneTiles(m);
      assert ViewOf(Do(c, s, SaveThrows(reached))) == ViewOf(m.Gone());
    } else {
      GoneTiles(s);
      assert ViewOf(Do(c, s, SaveThrows(reached))) == ViewOf(s.Gone());
    }
  }

  lemma PhaseKeeps(c: Config, s: State, a: Action)
    requires PhaseOk(c, s) && Enabled(c, s, a)
    requires a.Pop? && s.queue != [] ==> s.cursor != Some(s.queue[0].pos)
    ensures PhaseOk(c, Do(c, s, a))
  {
  }

  lemma LedgerOnlyGrows(c: Config, s: State, a: Action)
    requires Enabled(c, s, a)
    ensures var t, v := Do(c, s, a), VerdictOf(s, a);
            && (v.Some? ==> s.Holding())
            && t.ledger == (if v.Some? then s.Record(s.phase.e, v.value).ledger else s.ledger)
            && Committed(t.commits) == Committed(s.commits) + (if v == Some(Applied) then [s.phase.e] else [])
  {
  }

  lemma CountersKeep(c: Config, s: State, a: Action)
    requires PhaseOk(c, s) && Enabled(c, s, a)
    ensures var t, v := Do(c, s, a), VerdictOf(s, a);
            && t.crashes == s.crashes + (if a.Crash? then 1 else 0)
            && t.signals == s.signals + (if a.Signal? then 1 else 0)
            && (v == Some(Lost) ==> a.Crash? && c.wiring.Detached?)
            && (v == Some(PassedOver) ==> s.aborted && !s.phase.Top? && (t.phase.Top? || !t.aborted))
            && (t.aborted && !t.phase.Top? ==> a.Signal? || (s.aborted && !s.phase.Top?))
  {
  }

  lemma BookkeepingKeeps(c: Config, s: State, a: Action)
    requires PhaseOk(c, s) && Bookkeeping(c, s) && Enabled(c, s, a)
    ensures Bookkeeping(c, Do(c, s, a))
  {
    LedgerOnlyGrows(c, s, a);
    CountersKeep(c, s, a);
    var v := VerdictOf(s, a);
    if v.Some? {
      RecordAppends(s, s.phase.e, v.value);
    }
  }

  lemma ViewKeeps(c: Config, s: State, a: Action)
    requires Sorted(s.log) && ViewOf(s).Tiled() && Enabled(c, s, a)
    ensures ViewOf(Do(c, s, a)).Tiled()
  {
    if a.Grow? || a.Fetch? || a.Pop? {
      FeedTiles(c, s, a);
    } else if a.WriteThrows? || a.WriteCursor? {
      WriteTiles(c, s, a);
    } else if a.CommitOk? || a.CommitThrows? {
      CommitTiles(c, s, a);
    } else if a.SaveOk? {
      SaveTiles(s);
    } else if a.SaveThrows? {
      SaveThrowsTiles(c, s, a.reached);
    } else if a.Crash? {
      CrashTiles(c, s);
    } else if a.Exit? {
      GoneTiles(s);
    } else if a.Return? {
      ReturnTiles(c, s);
    } else {
      IdleTiles(c, s, a);
    }
  }

  lemma StepKeeps(c: Config, s: State, a: Action)
    requires Inv(c, s) && Enabled(c, s, a)
    ensures Inv(c, Do(c, s, a))
  {
    if a.Pop? && s.queue != [] {
      TakenTiled(ViewOf(s));
    }
    PhaseKeeps(c, s, a);
    BookkeepingKeeps(c, s, a);
    ViewKeeps(c, s, a);
  }

  /** The invariant holds after every run, in both wirings, wherever the run crashed. */
  lemma {:induction false} RunKeeps(c: Config, actions: seq<Action>, s: State)
    requires IsRun(c, actions, s)
    ensures Inv(c, s)
  {
    if actions == [] {
      FreshTiled();
      assert ViewOf(s) == FRESH;
    } else {
      var before := Exec(c, actions[..|actions| - 1]).value;
      RunKeeps(c, actions[..|actions| - 1], before);
      StepKeeps(c, before, actions[|actions| - 1]);
    }
  }
}
