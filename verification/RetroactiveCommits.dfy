/** When a retroactive pass handles an event again, and when that commits its changes twice: told from
    the places where the pass was cut short, not from what was handled. */
module RetroactiveCommits {
  import opened EventLog
  import opened Retroactive

  /** What the stops so far have left to be done again: whether the next target is to be handled again,
      and whether its changes have landed already. */
  datatype Debt = Debt(due: bool, landed: bool)

  /** An event has been handled, and the checkpoint write that is next would move the checkpoint onto it. */
  predicate Unsaved(s: State) {
    s.phase.Saving? && s.pointer != s.Resume()
  }

  /** A repetition falls due when the pass stops between an event and its checkpoint; it is settled when
      the checkpoint is written. */
  function OwedAfter(s: State, d: Debt, a: Action): Debt {
    match a
    case Attempt(landed) => Debt(d.due, landed || (d.due && d.landed))
    case Save => if Unsaved(s) then Debt(false, false) else d
    case SaveThrows(reached) => if !Unsaved(s) then d else if reached then Debt(false, false) else Debt(true, d.landed)
    case Crash => if Unsaved(s) then Debt(true, d.landed) else d
    case _ => d
  }

  ghost function Owed(c: Pass, actions: seq<Action>): Debt {
    if actions == [] then Debt(false, false)
    else
      var front, d := actions[..|actions| - 1], Owed(c, actions[..|actions| - 1]);
      match Exec(c, front)
      case None => d
      case Some(s) => OwedAfter(s, d, actions[|actions| - 1])
  }

  /** The attempt lands, and so did an earlier one that a stop kept from being checkpointed. */
  predicate LandsAgain(d: Debt, a: Action) {
    a == Attempt(true) && d.due && d.landed
  }

  ghost function Recommits(c: Pass, actions: seq<Action>): nat {
    if actions == [] then 0
    else
      var front := actions[..|actions| - 1];
      Recommits(c, front) + if LandsAgain(Owed(c, front), actions[|actions| - 1]) then 1 else 0
  }

  // ---------------------------------------------------------------- what a debt means

  /** The debt is about the next event of the course. */
  ghost predicate Fits(s: State, d: Debt) {
    var n, course := s.Saved(), s.course;
    && (!Unsaved(s) ==> (d.due <==> s.Progress() == n + 1))
    && (d.due || Unsaved(s) ==> n < |course| && (d.landed <==> course[n] in s.commits))
  }

  /** The parts of the invariant that concern the checkpoint. */
  ghost predicate Positioned(s: State) {
    var n, m, course := s.Saved(), s.Progress(), s.course;
    && n <= m <= n + 1 && m <= |course|
    && (s.phase.Looping? ==> s.pointer == s.Resume())
    && (s.phase.Handling? ==> n < |course| && course[n] == s.phase.e && s.Pointed() == n + 1)
    && (Unsaved(s) ==> m == n + 1 && s.Pointed() == n + 1)
    && (m == n < |course| ==> course[n] !in s.commits)
  }

  lemma PositionKept(c: Pass, s: State)
    requires c.Valid() && Inv(c, s) && !Over(c, s)
    ensures Positioned(s)
  {
    if s.Progress() == s.Saved() < |s.course| {
      NextIsNotCommitted(s, s.Saved());
    }
  }

  lemma NextIsNotCommitted(s: State, n: nat)
    requires CourseOk(s) && Tally(s) && s.Progress() == n < |s.course|
    ensures s.course[n] !in s.commits
  {
    AttemptedIff(s, n);
    var e := s.course[n];
    assert multiset(s.attempts)[e] == 0;
    assert multiset(s.commits)[e] == 0;
  }

  lemma AttemptFits(c: Pass, s: State, d: Debt, landed: bool, t: State)
    requires Enabled(c, s, Attempt(landed)) && t == Do(c, s, Attempt(landed)) && Positioned(s) && Fits(s, d)
    requires t.Progress() == s.Saved() + 1
    ensures Fits(t, OwedAfter(s, d, Attempt(landed))) && Unsaved(t)
  {
  }

  /** A start keeps what a debt is about. */
  ghost predicate SameNext(s: State, t: State) {
    && t.Saved() == s.Saved()
    && (s.Progress() == s.Saved() + 1 ==>
          s.Saved() < |s.course| && s.Saved() < |t.course| && t.course[s.Saved()] == s.course[s.Saved()])
  }

  lemma BeginSameNext(c: Pass, s: State, last: Position)
    requires c.Valid() && Inv(c, s) && Enabled(c, s, Begin(last))
    ensures SameNext(s, Do(c, s, Begin(last)))
  {
    BeginCourse(c, s, last);
    if s.Progress() == s.Saved() + 1 {
      BeginRepeats(c, s, last);
    }
  }

  lemma StepFits(c: Pass, s: State, d: Debt, a: Action, t: State)
    requires Enabled(c, s, a) && t == Do(c, s, a) && Positioned(s) && Fits(s, d)
    requires Positioned(t) && !s.phase.Deleting? && (a.Begin? ==> SameNext(s, t))
    ensures Fits(t, OwedAfter(s, d, a))
    ensures a.Attempt? ==> Unsaved(t)
  {
    if a.Attempt? {
      AttemptFits(c, s, d, a.landed, t);
    }
  }

  lemma OverStays(c: Pass, s: State, a: Action)
    requires Enabled(c, s, a) && Over(c, s)
    ensures Over(c, Do(c, s, a))
  {
  }

  lemma {:induction false} DebtFits(c: Pass, actions: seq<Action>, s: State)
    requires c.Valid() && IsRun(c, actions, s)
    ensures Over(c, s) || (Positioned(s) && Fits(s, Owed(c, actions)))
  {
    RunKeeps(c, actions, s);
    if !Over(c, s) {
      PositionKept(c, s);
      if actions != [] {
        var front, a := actions[..|actions| - 1], actions[|actions| - 1];
        var before := Exec(c, front).value;
        DebtFits(c, front, before);
        if Over(c, before) {
          OverStays(c, before, a);
        }
        RunKeeps(c, front, before);
        NotDeleting(c, before);
        if a.Begin? {
          BeginSameNext(c, before, a.last);
        }
        StepFits(c, before, Owed(c, front), a, s);
      }
    }
  }

  lemma NotDeleting(c: Pass, s: State)
    requires Inv(c, s) && !Over(c, s)
    ensures !s.phase.Deleting?
  {
  }

  /** The attempt about to be made repeats an earlier one if and only if a stop left one due, and its
      changes are in the database already if and only if, besides, one of the earlier attempts landed. */
  lemma RepeatsIff(c: Pass, actions: seq<Action>, s: State)
    requires c.Valid() && IsRun(c, actions, s) && s.phase.Handling?
    ensures s.phase.e in s.attempts <==> Owed(c, actions).due
    ensures s.phase.e in s.commits <==> Owed(c, actions).due && Owed(c, actions).landed
  {
    RunKeeps(c, actions, s);
    DebtFits(c, actions, s);
    AttemptedIff(s, s.Saved());
  }

  lemma AttemptedIff(s: State, n: nat)
    requires CourseOk(s) && Tally(s) && n < |s.course| && n <= s.Progress() <= n + 1
    ensures s.course[n] in s.attempts <==> s.Progress() == n + 1
  {
    var xs, course := Collapse(s.attempts), s.course;
    CollapseMembers(s.attempts, course[n]);
    if s.Progress() == n + 1 {
      assert xs[n] == course[n];
    } else {
      forall i | 0 <= i < |xs| ensures xs[i] != course[n] {
        assert course[i].pos.Before(course[n].pos);
      }
    }
  }

  /** The next event to handle has been attempted already. */
  ghost predicate NextIsRepetition(s: State) {
    s.Saved() < |s.course| && s.course[s.Saved()] in s.attempts
  }

  lemma NextIsRepetitionIff(c: Pass, actions: seq<Action>, s: State)
    requires c.Valid() && IsRun(c, actions, s) && !Over(c, s)
    ensures NextIsRepetition(s) <==> Unsaved(s) || Owed(c, actions).due
  {
    RunKeeps(c, actions, s);
    DebtFits(c, actions, s);
    if s.Saved() < |s.course| {
      AttemptedIff(s, s.Saved());
    }
  }

  /** A stop leaves a repetition to be made if and only if it falls between an event and its checkpoint
      and the write of the checkpoint does not reach the database, or, falling anywhere else, it finds
      one still to be made. */
  lemma StopLeavesRepetitionIff(c: Pass, actions: seq<Action>, s: State, a: Action)
    requires c.Valid() && IsRun(c, actions, s) && Enabled(c, s, a) && (a.Crash? || a.SaveThrows?)
    requires !Over(c, s)
    ensures NextIsRepetition(Do(c, s, a)) <==>
              if Unsaved(s) then a != SaveThrows(true) else NextIsRepetition(s)
  {
    RunStep(c, actions, s, a);
    assert (actions + [a])[..|actions|] == actions;
    NextIsRepetitionIff(c, actions, s);
    NextIsRepetitionIff(c, actions + [a], Do(c, s, a));
  }

  // ---------------------------------------------------------------- exactly once

  function Distinct(events: seq<Event>): set<Event> {
    set e | e in events
  }

  lemma DistinctSnoc(events: seq<Event>, e: Event)
    ensures |Distinct(events + [e])| == |Distinct(events)| + if e in events then 0 else 1
  {
    assert Distinct(events + [e]) == Distinct(events) + {e};
  }

  /** The surplus of commits over events is the number of attempts that landed again. */
  lemma {:induction false} SurplusIsRecommits(c: Pass, actions: seq<Action>, s: State)
    requires c.Valid() && IsRun(c, actions, s)
    ensures |s.commits| == |Distinct(s.commits)| + Recommits(c, actions)
  {
    if actions != [] {
      var front, a := actions[..|actions| - 1], actions[|actions| - 1];
      var before := Exec(c, front).value;
      SurplusIsRecommits(c, front, before);
      if a.Attempt? {
        RepeatsIff(c, front, before);
        DistinctSnoc(before.commits, before.phase.e);
      }
    }
  }

  /** A repetition that is due has cost a stop, and no stop pays for two. */
  lemma {:induction false} RecommitsArePaid(c: Pass, actions: seq<Action>, s: State)
    requires c.Valid() && IsRun(c, actions, s)
    ensures Recommits(c, actions) + (if Owed(c, actions).due && !Unsaved(s) && !Over(c, s) then 1 else 0) <= s.restarts
  {
    if actions != [] {
      var front, a := actions[..|actions| - 1], actions[|actions| - 1];
      var before := Exec(c, front).value;
      RecommitsArePaid(c, front, before);
      RunKeeps(c, front, before);
      if !Over(c, before) {
        PositionKept(c, before);
      }
      if a.Attempt? {
        AttemptIsUnsaved(c, before, s, a.landed);
      }
      PaidStep(c, before, Owed(c, front), a, Recommits(c, front), s);
    }
  }

  lemma PaidStep(c: Pass, s: State, d: Debt, a: Action, recommits: nat, t: State)
    requires Enabled(c, s, a) && t == Do(c, s, a) && (Running(s) ==> !Over(c, s))
    requires !Over(c, s) ==> Positioned(s)
    requires a.Attempt? ==> Unsaved(t)
    requires recommits + (if d.due && !Unsaved(s) && !Over(c, s) then 1 else 0) <= s.restarts
    ensures recommits + (if LandsAgain(d, a) then 1 else 0)
            + (if OwedAfter(s, d, a).due && !Unsaved(t) && !Over(c, t) then 1 else 0) <= t.restarts
  {
  }

  lemma AttemptIsUnsaved(c: Pass, s: State, t: State, landed: bool)
    requires c.Valid() && Inv(c, s) && Enabled(c, s, Attempt(landed)) && t == Do(c, s, Attempt(landed))
    ensures Unsaved(t)
  {
    PositionKept(c, s);
  }

  /** In every run: each stop makes at most one event commit once more; and every event that commits
      commits exactly once if and only if no attempt that lands repeats one that a stop kept from being
      checkpointed after it had landed. */
  lemma ExactlyOnceIff(c: Pass, actions: seq<Action>, s: State)
    requires c.Valid() && IsRun(c, actions, s)
    ensures |s.commits| <= |Distinct(s.commits)| + s.restarts
    ensures |s.commits| == |Distinct(s.commits)| <==> Recommits(c, actions) == 0
  {
    SurplusIsRecommits(c, actions, s);
    RecommitsArePaid(c, actions, s);
  }
}
