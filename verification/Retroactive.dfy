/** Replaying a strategy's history up to the last position the orchestrator has processed, with a
    checkpoint that is written after each event, outside the event's transaction. The last position is
    read anew at each start and never goes back. This is one strategy; `RetroactiveRun` has them all, at
    work on the same tables. */
module Retroactive {
  import opened Domain
  import opened EventLog
  import opened IndexerClient

  /** `log` is the indexed log; what is indexed while the pass runs lies beyond its last position
      (`MineStable`). */
  datatype Pass = Pass(log: seq<Event>, sources: set<Address>, limit: nat) {
    ghost predicate Valid() {
      Sorted(log) && limit > 0
    }
  }

  /** `hasReachedLastEvent` */
  predicate HasReached(current: Position, last: Position) {
    current.block > last.block || (current.block == last.block && current.logIndex >= last.logIndex)
  }

  // ---------------------------------------------------------------- what is to be processed

  predicate IsDue(bounds: map<Address, Position>, e: Event) {
    e.srcAddress in bounds && ORIGIN.Before(e.pos) && e.pos.Before(bounds[e.srcAddress])
  }

  /** The events of each source strictly after (0,0) and strictly before its bound, in log order. */
  function Due(log: seq<Event>, bounds: map<Address, Position>): (r: seq<Event>)
    ensures forall e :: e in r <==> e in log && IsDue(bounds, e)
  {
    if log == [] then []
    else
      assert log == [log[0]] + log[1..];
      (if IsDue(bounds, log[0]) then [log[0]] else []) + Due(log[1..], bounds)
  }

  // ---------------------------------------------------------------- the machine

  datatype Phase =
    | Idle
    | Looping
    | Popping
    | Handling(e: Event)
    | Saving
    | Finishing
    | Deleting
    | Complete

  /** `checkpoint`, `marked` and `commits` are durable; `last` is read when the pass starts. The rest is
      bookkeeping: `course` is what the queries since the checkpoint can return, after what came before;
      `markedAt` is where each address was marked; `attempts` are the events whose handling ended, and
      `restarts` the times the strategy stopped short, by a crash or an error. */
  datatype State = State(
    checkpoint: Option<Position>, marked: set<Address>, commits: seq<Event>,
    phase: Phase, pointer: Position, queue: seq<Event>, last: Position,
    course: seq<Event>, markedAt: map<Address, Position>, attempts: seq<Event>, restarts: nat)
  {
    function Resume(): Position {
      if checkpoint.Some? then checkpoint.value else ORIGIN
    }

    function Stop(): State {
      this.(phase := Idle, queue := [], restarts := restarts + 1)
    }

    /** The number of events of the course up to the checkpoint. */
    function Saved(): nat {
      Reach(course, Resume())
    }

    /** The number of events of the course up to the pointer. */
    function Pointed(): nat {
      Reach(course, pointer)
    }

    /** The number of events of the course to process: those strictly before the last position. */
    function Goal(): (g: nat)
      ensures g <= |course|
    {
      if course != [] && !course[|course| - 1].pos.Before(last) then |course| - 1 else |course|
    }

    /** How much of the course has been attempted at least once. */
    function Progress(): nat {
      |Collapse(attempts)|
    }

    function Marking(some: set<Address>): State {
      this.(marked := marked + some,
            markedAt := map a | a in markedAt.Keys + some :: if a in markedAt then markedAt[a] else last)
    }
  }

  /** How far each source is to be processed: to where it was marked, or else to the last position. */
  function Bounds(c: Pass, s: State): map<Address, Position> {
    map a | a in c.sources :: if a in s.markedAt then s.markedAt[a] else s.last
  }

  datatype Action =
    | Begin(last: Position)
    | Crash
    | Refill
    | RefillThrows
    | Proceed
    | Pop
    | Attempt(landed: bool)
    | Save
    | SaveThrows(reached: bool)
    | Mark
    | MarkThrows(some: set<Address>)
    | Delete
    | DeleteThrows(reached: bool)

  ghost predicate Enabled(c: Pass, s: State, a: Action) {
    match a
    // only strategies with an unhandled address are processed
    case Begin(last) => s.phase.Idle? && !(c.sources <= s.marked) && s.last.UpTo(last)
    case Crash => !s.phase.Idle? && !s.phase.Complete?
    case Refill => s.phase.Looping? && s.queue == []
    case RefillThrows => s.phase.Looping? && s.queue == []
    case Proceed => s.phase.Looping? && s.queue != []
    case Pop => s.phase.Popping?
    case Attempt(_) => s.phase.Handling?
    case Save => s.phase.Saving?
    case SaveThrows(_) => s.phase.Saving?
    case Mark => s.phase.Finishing?
    case MarkThrows(some) => s.phase.Finishing? && some <= c.sources
    case Delete => s.phase.Deleting?
    case DeleteThrows(_) => s.phase.Deleting?
  }

  ghost function Do(c: Pass, s: State, a: Action): State
    requires Enabled(c, s, a)
  {
    match a
    case Begin(last) => Begun(c, s, last)
    case Crash => s.Stop()
    case Refill =>
      s.(queue := GetEvents(c.log, c.sources - s.marked, s.pointer, s.last, c.limit), phase := Popping)
    case RefillThrows => s.(phase := Saving)
    case Proceed => s.(phase := Popping)
    case Pop =>
      if s.queue == [] then s.(phase := Finishing)
      else
        var e := s.queue[0];
        s.(queue := s.queue[1..], pointer := e.pos,
           phase := if HasReached(e.pos, s.last) then Finishing else Handling(e))
    case Attempt(landed) =>
      var t := s.(attempts := s.attempts + [s.phase.e], phase := Saving);
      if landed then t.(commits := s.commits + [s.phase.e]) else t
    case Save => s.(checkpoint := Some(s.pointer), phase := Looping)
    case SaveThrows(reached) => (if reached then s.(checkpoint := Some(s.pointer)) else s).Stop()
    case Mark => s.Marking(c.sources).(phase := Deleting)
    case MarkThrows(some) => s.Marking(some).Stop()
    case Delete => s.(checkpoint := None, phase := Complete)
    case DeleteThrows(reached) => (if reached then s.(checkpoint := None) else s).Stop()
  }

  function Begun(c: Pass, s: State, last: Position): State {
    s.(phase := Looping, pointer := s.Resume(), queue := [], last := last,
       course := s.course[..s.Saved()] + Mine(c.log, c.sources - s.marked, s.Resume(), last))
  }

  const INITIAL := State(None, {}, [], Idle, ORIGIN, [], ORIGIN, [], map[], [], 0)

  ghost function Exec(c: Pass, actions: seq<Action>): Option<State> {
    if actions == [] then Some(INITIAL)
    else
      match Exec(c, actions[..|actions| - 1])
      case None => None
      case Some(s) =>
        var a := actions[|actions| - 1];
        if Enabled(c, s, a) then Some(Do(c, s, a)) else None
  }

  ghost predicate IsRun(c: Pass, actions: seq<Action>, s: State) {
    Exec(c, actions) == Some(s)
  }

  // ---------------------------------------------------------------- what every run keeps

  /** The sequence with adjacent repetitions removed. */
  function Collapse(xs: seq<Event>): seq<Event> {
    if |xs| <= 1 then xs
    else
      var front := xs[..|xs| - 1];
      if xs[|xs| - 1] == xs[|xs| - 2] then Collapse(front) else Collapse(front) + [xs[|xs| - 1]]
  }

  /** No source is left to process. */
  ghost predicate Over(c: Pass, s: State) {
    c.sources <= s.marked
  }

  ghost predicate Running(s: State) {
    !s.phase.Idle? && !s.phase.Deleting? && !s.phase.Complete?
  }

  ghost predicate Within(course: seq<Event>, last: Position) {
    Sorted(course) && forall e :: e in course ==> ORIGIN.Before(e.pos) && e.pos.UpTo(last)
  }

  ghost predicate CourseOk(s: State) {
    Within(s.course, s.last)
  }

  /** The attempts, repetitions collapsed, are a prefix of what there is to process. */
  ghost predicate Tally(s: State) {
    && Stretch(s.course, 0, Collapse(s.attempts)) && s.Progress() <= s.Goal()
    && NoMoreThan(s.commits, s.attempts)
  }

  ghost predicate NoMoreThan(commits: seq<Event>, attempts: seq<Event>) {
    multiset(commits) <= multiset(attempts)
  }

  /** What there is to process is what is due. */
  ghost predicate Covers(c: Pass, s: State) {
    s.markedAt.Keys == s.marked && HoldsDue(c.log, Bounds(c, s), s.course[..s.Goal()])
  }

  ghost predicate HoldsDue(log: seq<Event>, bounds: map<Address, Position>, part: seq<Event>) {
    forall e :: e in part <==> e in log && IsDue(bounds, e)
  }

  /** What the queries return from the checkpoint on is the rest of the course. */
  ghost predicate Rest(c: Pass, s: State) {
    IsRest(c.log, c.sources - s.marked, s.Resume(), s.last, s.course)
  }

  ghost predicate IsRest(log: seq<Event>, sources: set<Address>, start: Position, last: Position, course: seq<Event>) {
    forall from: Position :: start.UpTo(from) ==> Mine(log, sources, from, last) == After(course, from)
  }

  /** The checkpoint is on an event of the course, beyond everything due of the addresses marked. */
  ghost predicate Anchored(s: State) {
    var n := s.Saved();
    && (s.Resume() == ORIGIN || (n > 0 && s.course[n - 1].pos == s.Resume()))
    && Behind(s.course, s.Goal(), s.markedAt, n)
  }

  ghost predicate Behind(course: seq<Event>, goal: nat, markedAt: map<Address, Position>, n: nat) {
    forall i :: 0 <= i < goal && i < |course| && course[i].srcAddress in markedAt ==> i < n
  }

  /** Where the checkpoint, the pointer and the attempts are in each phase. */
  ghost predicate Placed(s: State) {
    var n, p, m, t := s.Saved(), s.Pointed(), s.Progress(), s.Goal();
    && n <= t && n <= m <= n + 1
    && match s.phase
       case Idle => |s.attempts| <= n + s.restarts
       case Looping => s.pointer == s.Resume() && |s.attempts| <= n + s.restarts
       case Popping => s.pointer == s.Resume() && |s.attempts| <= n + s.restarts
       case Handling(e) =>
         && p == n + 1 <= t && |s.attempts| <= n + s.restarts
         && s.course[n] == e && e.pos == s.pointer
       case Saving =>
         && |s.attempts| <= p + s.restarts
         && (s.pointer == s.Resume() || (p == n + 1 == m && s.course[n].pos == s.pointer))
       case Finishing => m == t && n == t && |s.attempts| <= t + s.restarts
       case Deleting => true
       case Complete => true
  }

  /** The queue is the course from the pointer on, and it is empty after a fetch only at the end. */
  ghost predicate Queued(s: State) {
    && Stretch(s.course, s.Pointed(), s.queue)
    && (s.phase.Popping? && s.queue == [] ==> s.Pointed() == |s.course|)
  }

  ghost predicate Midway(c: Pass, s: State) {
    && Placed(s) && Anchored(s)
    && (Running(s) || s.Progress() == s.Saved() + 1 ==> Rest(c, s))
    && (Running(s) ==> Queued(s))
  }

  ghost predicate Inv(c: Pass, s: State) {
    && CourseOk(s) && Tally(s) && Covers(c, s)
    && (Running(s) ==> !Over(c, s))
    && (s.phase.Deleting? || s.phase.Complete? ==> Over(c, s))
    && if Over(c, s) then s.Progress() == s.Goal() && |s.attempts| <= s.Goal() + s.restarts
       else Midway(c, s)
  }

  // ---------------------------------------------------------------- preservation: starting

  lemma SourcesLeft(c: Pass, s: State)
    requires !Over(c, s)
    ensures c.sources - s.marked != {}
  {
    var a :| a in c.sources && a !in s.marked;
    assert a in c.sources - s.marked;
  }

  lemma {:induction false} AfterConcat(a: seq<Event>, b: seq<Event>, from: Position)
    ensures After(a + b, from) == After(a, from) + After(b, from)
  {
    if a == [] {
      assert a + b == b;
    } else {
      AfterConcat(a[1..], b, from);
      assert (a + b)[1..] == a[1..] + b;
    }
  }

  lemma {:induction false} AfterTwice(log: seq<Event>, from: Position, later: Position)
    requires from.UpTo(later)
    ensures After(After(log, from), later) == After(log, later)
  {
    if log != [] {
      AfterTwice(log[1..], from, later);
      AfterConcat(if from.Before(log[0].pos) then [log[0]] else [], After(log[1..], from), later);
      assert After([log[0]], later) == if later.Before(log[0].pos) then [log[0]] else [];
    }
  }

  lemma {:induction false} NothingAfter(part: seq<Event>, from: Position)
    requires forall e :: e in part ==> e.pos.UpTo(from)
    ensures After(part, from) == []
  {
    if part != [] {
      assert part[0] in part;
      NothingAfter(part[1..], from);
    }
  }

  /** A query from a later position is answered with what is left of the answer to an earlier one. */
  lemma MineLater(c: Pass, sources: set<Address>, from: Position, later: Position, to: Position)
    requires from.UpTo(later)
    ensures Mine(c.log, sources, later, to) == After(Mine(c.log, sources, from, to), later)
  {
    MineAfter(c.log, sources, later, to);
    MineAfter(c.log, sources, from, to);
    AfterTwice(Mine(c.log, sources, ORIGIN, to), from, later);
  }

  /** Of two answers to one query the one with the lower upper bound is a prefix of the other. */
  lemma {:induction false} MinePrefix(log: seq<Event>, sources: set<Address>, from: Position,
                                      to: Position, further: Position)
    requires Sorted(log) && to.UpTo(further)
    ensures Mine(log, sources, from, to) <= Mine(log, sources, from, further)
  {
    if log != [] {
      if log[0].pos.UpTo(to) {
        MinePrefix(log[1..], sources, from, to, further);
      } else {
        MineNone(log, sources, from, to);
      }
    }
  }

  lemma FrontIsReached(s: State)
    requires Sorted(s.course)
    ensures forall i :: 0 <= i < s.Saved() ==> s.course[i].pos.UpTo(s.Resume())
  {
    var n := s.Saved();
    forall i | 0 <= i < n ensures s.course[i].pos.UpTo(s.Resume()) {
      assert i < n - 1 ==> s.course[i].pos.Before(s.course[n - 1].pos);
    }
  }

  /** A stretch of events up to a position, and then events after it. */
  lemma Spliced(front: seq<Event>, tail: seq<Event>, from: Position)
    requires Sorted(front) && Sorted(tail)
    requires forall i :: 0 <= i < |front| ==> front[i].pos.UpTo(from)
    requires forall i :: 0 <= i < |tail| ==> from.Before(tail[i].pos)
    ensures Sorted(front + tail) && Reach(front + tail, from) == |front|
  {
    var all, n := front + tail, |front|;
    forall i, j | 0 <= i < j < |all| ensures all[i].pos.Before(all[j].pos) {
      if j < n {
        assert all[i] == front[i] && all[j] == front[j];
      } else if i < n {
        assert all[i] == front[i] && all[j] == tail[j - n];
      } else {
        assert all[i] == tail[i - n] && all[j] == tail[j - n];
      }
    }
    ReachUnique(all, from, n);
  }

  lemma SortedPrefix(events: seq<Event>, n: nat)
    requires Sorted(events) && n <= |events|
    ensures Sorted(events[..n])
  {
  }

  lemma SplicedWithin(front: seq<Event>, tail: seq<Event>, last: Position)
    requires forall e :: e in front ==> ORIGIN.Before(e.pos) && e.pos.UpTo(last)
    requires forall e :: e in tail ==> ORIGIN.Before(e.pos) && e.pos.UpTo(last)
    requires Sorted(front + tail)
    ensures Within(front + tail, last)
  {
  }

  lemma BeginCourse(c: Pass, s: State, last: Position)
    requires c.Valid() && CourseOk(s) && s.last.UpTo(last)
    ensures var t := Begun(c, s, last);
            CourseOk(t) && t.Saved() == s.Saved() && t.Pointed() == s.Saved()
  {
    var front, tail := s.course[..s.Saved()], Mine(c.log, c.sources - s.marked, s.Resume(), last);
    FrontIsReached(s);
    SortedPrefix(s.course, s.Saved());
    MineSorted(c.log, c.sources - s.marked, s.Resume(), last);
    assert forall i :: 0 <= i < |tail| ==> tail[i] in tail;
    Spliced(front, tail, s.Resume());
    assert forall e :: e in front ==> e in s.course;
    SplicedWithin(front, tail, last);
  }

  lemma BeginMembers(c: Pass, s: State, last: Position)
    ensures var t := Begun(c, s, last);
            && |t.course| >= s.Saved()
            && (forall i :: 0 <= i < s.Saved() ==> t.course[i] == s.course[i])
            && forall e :: e in t.course <==>
                 e in s.course[..s.Saved()] || e in Mine(c.log, c.sources - s.marked, s.Resume(), last)
  {
  }

  lemma BeginRest(c: Pass, s: State, last: Position)
    requires c.Valid() && CourseOk(s)
    ensures Rest(c, Begun(c, s, last))
  {
    var t, sources, from := Begun(c, s, last), c.sources - s.marked, s.Resume();
    var front, tail := s.course[..s.Saved()], Mine(c.log, sources, from, last);
    FrontIsReached(s);
    forall later: Position | from.UpTo(later) ensures Mine(c.log, sources, later, last) == After(t.course, later) {
      MineLater(c, sources, from, later, last);
      AfterConcat(front, tail, later);
      NothingAfter(front, later);
    }
  }

  /** A repetition that is due stays due: the query from the checkpoint still returns that event first. */
  lemma BeginRepeats(c: Pass, s: State, last: Position)
    requires c.Valid() && CourseOk(s) && Rest(c, s) && s.last.UpTo(last) && s.Saved() < |s.course|
    ensures var t, n := Begun(c, s, last), s.Saved();
            n < |t.course| && t.course[n] == s.course[n]
  {
    var n, sources := s.Saved(), c.sources - s.marked;
    AfterIsSuffix(s.course, s.Resume(), n);
    MinePrefix(c.log, sources, s.Resume(), s.last, last);
    assert Mine(c.log, sources, s.Resume(), s.last)[0] == s.course[n];
  }

  lemma GoalIs(s: State)
    requires CourseOk(s)
    ensures forall i :: 0 <= i < |s.course| ==> (i < s.Goal() <==> s.course[i].pos.Before(s.last))
    ensures forall e :: e in s.course[..s.Goal()] <==> e in s.course && e.pos.Before(s.last)
  {
    var n := |s.course| - 1;
    forall i | 0 <= i < n ensures s.course[i].pos.Before(s.last) {
      assert s.course[n] in s.course && s.course[i].pos.Before(s.course[n].pos);
    }
  }

  /** What the start leaves as it was, and where it puts the pointer. */
  lemma BeginFront(c: Pass, s: State, last: Position)
    requires c.Valid() && CourseOk(s) && s.last.UpTo(last)
    requires s.Saved() <= s.Goal() && s.Saved() <= s.Progress() <= s.Saved() + 1 && s.Progress() <= s.Goal()
    requires s.Progress() == s.Saved() + 1 ==> Rest(c, s)
    ensures var t := Begun(c, s, last);
            && s.Progress() <= t.Goal()
            && forall i :: 0 <= i < s.Progress() ==> t.course[i] == s.course[i]
  {
    var t, n, m := Begun(c, s, last), s.Saved(), s.Progress();
    BeginCourse(c, s, last);
    BeginMembers(c, s, last);
    if m == n + 1 {
      BeginRepeats(c, s, last);
    }
    GoalReaches(s, t, m);
  }

  lemma GoalReaches(s: State, t: State, m: nat)
    requires CourseOk(s) && CourseOk(t) && s.last.UpTo(t.last)
    requires m <= s.Goal() && m <= |t.course| && (m > 0 ==> t.course[m - 1] == s.course[m - 1])
    ensures m <= t.Goal()
  {
    GoalIs(s);
    GoalIs(t);
  }

  lemma BeginAnchored(c: Pass, s: State, last: Position)
    requires c.Valid() && CourseOk(s) && s.last.UpTo(last) && Anchored(s) && s.markedAt.Keys == s.marked
    ensures Anchored(Begun(c, s, last))
  {
    var t, n := Begun(c, s, last), s.Saved();
    BeginCourse(c, s, last);
    BeginMembers(c, s, last);
    BeginTail(c, s, last);
  }

  lemma BeginTail(c: Pass, s: State, last: Position)
    ensures forall i :: s.Saved() <= i < |Begun(c, s, last).course| ==>
              Begun(c, s, last).course[i].srcAddress !in s.marked
  {
    var t, n := Begun(c, s, last), s.Saved();
    var tail := Mine(c.log, c.sources - s.marked, s.Resume(), last);
    forall i | n <= i < |t.course| ensures t.course[i].srcAddress !in s.marked {
      assert t.course[i] == tail[i - n] && tail[i - n] in tail;
    }
  }

  /** Up to the checkpoint, what was due before the start is what is in the course. */
  lemma DueBefore(c: Pass, s: State, e: Event)
    requires CourseOk(s) && Covers(c, s) && Anchored(s) && s.Saved() <= s.Goal()
    ensures e in s.course[..s.Saved()] <==> e in c.log && IsDue(Bounds(c, s), e) && e.pos.UpTo(s.Resume())
  {
    FrontIsReached(s);
    var n, t := s.Saved(), s.Goal();
    if e in s.course[..n] {
      assert e in s.course[..t];
    }
    forall i | n <= i < t ensures !s.course[i].pos.UpTo(s.Resume()) {
      assert s.course[n].pos.UpTo(s.course[i].pos);
    }
    if e in s.course[..t] && e.pos.UpTo(s.Resume()) {
      var i :| 0 <= i < t && s.course[i] == e;
      assert s.course[..n][i] == e;
    }
  }

  /** A marked address is done with as far as it is due. */
  lemma MarkedIsBehind(c: Pass, s: State, e: Event)
    requires CourseOk(s) && Covers(c, s) && Anchored(s) && s.Saved() <= s.Goal()
    requires e in c.log && IsDue(Bounds(c, s), e) && e.srcAddress in s.markedAt
    ensures e.pos.UpTo(s.Resume())
  {
    FrontIsReached(s);
    var i :| 0 <= i < s.Goal() && s.course[i] == e;
  }

  lemma ResumeBeforeLast(s: State)
    requires CourseOk(s) && Anchored(s) && s.Saved() <= s.Goal()
    ensures s.Resume() == ORIGIN || s.Resume().Before(s.last)
  {
    GoalIs(s);
  }

  lemma BeginCovers(c: Pass, s: State, last: Position)
    requires c.Valid() && Inv(c, s) && Enabled(c, s, Begin(last))
    ensures Covers(c, Begun(c, s, last))
  {
    var t := Begun(c, s, last);
    BeginCourse(c, s, last);
    BeginMembers(c, s, last);
    GoalIs(t);
    forall e ensures e in t.course[..t.Goal()] <==> e in c.log && IsDue(Bounds(c, t), e) {
      BeginCoversOne(c, s, last, e);
    }
  }

  lemma BeginCoversOne(c: Pass, s: State, last: Position, e: Event)
    requires c.Valid() && Inv(c, s) && Enabled(c, s, Begin(last))
    ensures var tail := Mine(c.log, c.sources - s.marked, s.Resume(), last);
            (e in s.course[..s.Saved()] || e in tail) && e.pos.Before(last)
            <==> e in c.log && IsDue(Bounds(c, Begun(c, s, last)), e)
  {
    DueBefore(c, s, e);
    ResumeBeforeLast(s);
    if e in c.log && IsDue(Bounds(c, s), e) && e.srcAddress in s.markedAt {
      MarkedIsBehind(c, s, e);
    }
  }

  lemma BeginPlaced(c: Pass, s: State, last: Position)
    requires c.Valid() && CourseOk(s) && Tally(s) && Placed(s) && s.phase.Idle? && s.last.UpTo(last)
    requires s.Progress() == s.Saved() + 1 ==> Rest(c, s)
    ensures Tally(Begun(c, s, last)) && Placed(Begun(c, s, last)) && Queued(Begun(c, s, last))
  {
    BeginCourse(c, s, last);
    BeginMembers(c, s, last);
    BeginFront(c, s, last);
    var t := Begun(c, s, last);
    assert Collapse(t.attempts) == Collapse(s.attempts);
  }

  lemma BeginKeeps(c: Pass, s: State, last: Position)
    requires c.Valid() && Inv(c, s) && Enabled(c, s, Begin(last))
    ensures Inv(c, Begun(c, s, last))
  {
    BeginCourse(c, s, last);
    BeginMembers(c, s, last);
    BeginPlaced(c, s, last);
    BeginAnchored(c, s, last);
    BeginCovers(c, s, last);
    BeginRest(c, s, last);
  }

  // ---------------------------------------------------------------- preservation: the loop

  /** The parts of the invariant that hold whatever the phase. */
  ghost predicate Steady(c: Pass, s: State) {
    CourseOk(s) && Tally(s) && Covers(c, s)
  }

  /** Nothing has changed but where the process is, what it holds, and how often it was stopped. */
  ghost predicate SameWork(s: State, t: State) {
    && t.course == s.course && t.last == s.last && t.marked == s.marked && t.markedAt == s.markedAt
    && t.attempts == s.attempts && t.commits == s.commits
  }

  lemma SteadyKept(c: Pass, s: State, t: State)
    requires Steady(c, s) && SameWork(s, t)
    ensures Steady(c, t)
  {
    assert t.Goal() == s.Goal() && t.Progress() == s.Progress() && Bounds(c, t) == Bounds(c, s);
  }

  lemma AnchorKept(c: Pass, s: State, t: State)
    requires Anchored(s) && SameWork(s, t) && t.Resume() == s.Resume()
    ensures Anchored(t) && t.Saved() == s.Saved() && (Rest(c, s) ==> Rest(c, t))
  {
    assert t.Goal() == s.Goal();
  }

  lemma Parts(c: Pass, s: State)
    requires Inv(c, s)
    ensures Steady(c, s) && (Running(s) ==> !Over(c, s))
    ensures if Over(c, s) then s.Progress() == s.Goal() && |s.attempts| <= s.Goal() + s.restarts else Midway(c, s)
  {
  }

  lemma Whole(c: Pass, s: State)
    requires Steady(c, s) && !Over(c, s) && Midway(c, s) && !s.phase.Deleting? && !s.phase.Complete?
    ensures Inv(c, s)
  {
  }

  /** The query is never sent without a source, which would select every event there is. */
  lemma RefillQueued(c: Pass, s: State, t: State)
    requires c.Valid() && CourseOk(s) && Rest(c, s) && !Over(c, s) && s.pointer == s.Resume()
    requires Enabled(c, s, Refill) && t == Do(c, s, Refill)
    ensures Queued(t)
  {
    SourcesLeft(c, s);
    AfterIsSuffix(s.course, s.pointer, s.Pointed());
    LimitIsStretch(s.course, s.Pointed(), c.limit);
    assert Mine(c.log, c.sources - s.marked, s.pointer, s.last) == s.course[s.Pointed()..];
  }

  lemma RefillKeeps(c: Pass, s: State, t: State)
    requires c.Valid() && Inv(c, s) && Enabled(c, s, Refill) && t == Do(c, s, Refill)
    ensures Inv(c, t)
  {
    Parts(c, s);
    SteadyKept(c, s, t);
    AnchorKept(c, s, t);
    RefillQueued(c, s, t);
    Whole(c, t);
  }

  /** The head of the queue is the next event of the course, and it is processed unless it is at the
      last position. */
  lemma HeadOfQueue(s: State)
    requires CourseOk(s) && Placed(s) && Queued(s) && s.phase.Popping? && s.queue != []
    ensures var e, n := s.queue[0], s.Saved();
            && n < |s.course| && s.course[n] == e && Reach(s.course, e.pos) == n + 1
            && if HasReached(e.pos, s.last) then n == s.Goal() else n < s.Goal()
  {
    var n := s.Saved();
    assert s.course[n] == s.queue[0] && s.course[n] in s.course;
    ReachUnique(s.course, s.course[n].pos, n + 1);
    GoalIs(s);
  }

  lemma PopQueued(s: State, e: Event)
    requires CourseOk(s) && Placed(s) && Queued(s) && s.phase.Popping? && s.queue != [] && e == s.queue[0]
    ensures Stretch(s.course, Reach(s.course, e.pos), s.queue[1..])
  {
    HeadOfQueue(s);
  }

  lemma PopPlaced(c: Pass, s: State, t: State)
    requires CourseOk(s) && Tally(s) && Placed(s) && Queued(s) && Enabled(c, s, Pop) && t == Do(c, s, Pop)
    ensures Placed(t) && Queued(t)
  {
    GoalIs(s);
    if s.queue != [] {
      HeadOfQueue(s);
      PopQueued(s, s.queue[0]);
    }
  }

  lemma PopKeeps(c: Pass, s: State, t: State)
    requires c.Valid() && Inv(c, s) && Enabled(c, s, Pop) && t == Do(c, s, Pop)
    ensures Inv(c, t)
  {
    Parts(c, s);
    SteadyKept(c, s, t);
    AnchorKept(c, s, t);
    PopPlaced(c, s, t);
    Whole(c, t);
  }

  lemma {:induction false} CollapseEnds(xs: seq<Event>)
    ensures xs != [] ==> Collapse(xs) != [] && Collapse(xs)[|Collapse(xs)| - 1] == xs[|xs| - 1]
    ensures xs == [] ==> Collapse(xs) == []
    ensures |Collapse(xs)| <= |xs|
  {
    if |xs| > 1 {
      CollapseEnds(xs[..|xs| - 1]);
    }
  }

  lemma CollapseSnoc(xs: seq<Event>, e: Event)
    ensures Collapse(xs + [e]) == if xs != [] && xs[|xs| - 1] == e then Collapse(xs) else Collapse(xs) + [e]
  {
    assert (xs + [e])[..|xs|] == xs;
  }

  lemma SnocStretch(range: seq<Event>, xs: seq<Event>, e: Event)
    requires Stretch(range, 0, xs) && |xs| < |range| && range[|xs|] == e
    ensures Stretch(range, 0, xs + [e])
  {
  }

  /** Handling the next event either extends the attempted prefix by it or repeats its last element. */
  lemma AttemptExtends(range: seq<Event>, attempts: seq<Event>, e: Event, n: nat)
    requires Stretch(range, 0, Collapse(attempts))
    requires n <= |Collapse(attempts)| <= n + 1 && n < |range| && range[n] == e
    requires n > 0 ==> range[n - 1] != e
    ensures var xs := Collapse(attempts + [e]);
            |xs| == n + 1 && Stretch(range, 0, xs)
  {
    CollapseEnds(attempts);
    CollapseSnoc(attempts, e);
    var xs := Collapse(attempts);
    assert |xs| > 0 ==> xs[|xs| - 1] == range[|xs| - 1];
    if attempts == [] || attempts[|attempts| - 1] != e {
      assert |xs| == n;
      SnocStretch(range, xs, e);
    }
  }

  lemma AttemptTally(s: State, e: Event, t: State)
    requires CourseOk(s) && Tally(s) && Placed(s) && s.phase == Handling(e)
    requires t.course == s.course && t.last == s.last && t.attempts == s.attempts + [e]
    requires t.commits == s.commits || t.commits == s.commits + [e]
    ensures Tally(t) && t.Progress() == s.Saved() + 1
  {
    var n := s.Saved();
    assert n > 0 ==> s.course[n - 1].pos.Before(s.course[n].pos);
    AttemptExtends(s.course, s.attempts, e, n);
    MoreAttempts(s.commits, s.attempts, e);
    assert t.Goal() == s.Goal();
  }

  lemma AttemptPlaced(s: State, t: State)
    requires Placed(s) && Queued(s) && s.phase.Handling? && t.phase.Saving?
    requires t == s.(attempts := t.attempts, commits := t.commits, phase := t.phase)
    requires |t.attempts| == |s.attempts| + 1 && t.Progress() == s.Saved() + 1
    ensures Placed(t) && Queued(t)
  {
    assert t.Goal() == s.Goal() && t.Saved() == s.Saved() && t.Pointed() == s.Pointed();
  }

  lemma MoreAttempts(commits: seq<Event>, attempts: seq<Event>, e: Event)
    requires NoMoreThan(commits, attempts)
    ensures NoMoreThan(commits, attempts + [e]) && NoMoreThan(commits + [e], attempts + [e])
  {
  }

  lemma AttemptKeeps(c: Pass, s: State, landed: bool, t: State)
    requires c.Valid() && Inv(c, s) && Enabled(c, s, Attempt(landed)) && t == Do(c, s, Attempt(landed))
    ensures Inv(c, t)
  {
    Parts(c, s);
    AttemptTally(s, s.phase.e, t);
    AttemptPlaced(s, t);
    var same := t.(attempts := s.attempts, commits := s.commits);
    SteadyKept(c, s, same);
    AnchorKept(c, s, same);
    AttemptSteady(c, same, t);
    Whole(c, t);
  }

  /** Attempts and commits are beside the course. */
  lemma AttemptSteady(c: Pass, s: State, t: State)
    requires Steady(c, s) && Anchored(s) && Rest(c, s) && t == s.(attempts := t.attempts, commits := t.commits)
    requires Tally(t)
    ensures Steady(c, t) && Anchored(t) && Rest(c, t)
  {
    assert t.Goal() == s.Goal() && t.Saved() == s.Saved() && Bounds(c, t) == Bounds(c, s);
  }

  lemma RestLater(log: seq<Event>, sources: set<Address>, start: Position, later: Position, last: Position,
                  course: seq<Event>)
    requires IsRest(log, sources, start, last, course) && start.UpTo(later)
    ensures IsRest(log, sources, later, last, course)
  {
  }

  /** The checkpoint written is the pointer: where it was, or one event further on. */
  lemma PointerAhead(s: State)
    requires Placed(s) && s.phase.Saving?
    ensures s.Resume().UpTo(s.pointer)
    ensures s.Pointed() == if s.pointer == s.Resume() then s.Saved() else s.Saved() + 1
    ensures s.pointer != s.Resume() ==> s.Saved() < |s.course| && s.course[s.Saved()].pos == s.pointer
  {
    if s.pointer != s.Resume() {
      assert s.Resume().Before(s.course[s.Saved()].pos);
    }
  }

  lemma SaveMoves(c: Pass, s: State, t: State)
    requires Placed(s) && Anchored(s) && Rest(c, s) && s.phase.Saving?
    requires SameWork(s, t) && t.checkpoint == Some(s.pointer)
    ensures Anchored(t) && Rest(c, t)
    ensures t.Saved() == if s.pointer == s.Resume() then s.Saved() else s.Saved() + 1
  {
    PointerAhead(s);
    RestLater(c.log, c.sources - s.marked, s.Resume(), s.pointer, s.last, s.course);
    assert t.Resume() == s.pointer && t.Saved() == s.Pointed() && t.Goal() == s.Goal();
  }

  /** After a write that reached the database: back at the top, or stopped. */
  lemma SavePlaced(s: State, t: State)
    requires Placed(s) && s.phase.Saving? && SameWork(s, t)
    requires t.checkpoint == Some(s.pointer) && t.pointer == s.pointer
    requires (t.phase.Looping? && t.restarts == s.restarts) || (t.phase.Idle? && t.restarts == s.restarts + 1)
    requires s.Pointed() <= s.Goal()
    ensures Placed(t)
  {
    PointerAhead(s);
    assert t.Saved() == s.Pointed() && t.Progress() == s.Progress() && t.Goal() == s.Goal();
  }

  lemma SaveFailedPlaced(s: State, t: State)
    requires Placed(s) && s.phase.Saving? && SameWork(s, t)
    requires t.checkpoint == s.checkpoint && t.phase.Idle? && t.restarts == s.restarts + 1
    ensures Placed(t)
  {
    PointerAhead(s);
    assert t.Saved() == s.Saved() && t.Progress() == s.Progress() && t.Goal() == s.Goal();
  }

  lemma SaveKeeps(c: Pass, s: State, a: Action, t: State)
    requires c.Valid() && Inv(c, s) && Enabled(c, s, a) && (a.Save? || a.SaveThrows?) && t == Do(c, s, a)
    ensures Inv(c, t)
  {
    Parts(c, s);
    SteadyKept(c, s, t);
    if a.Save? || a.reached {
      PointerAhead(s);
      SaveMoves(c, s, t);
      SavePlaced(s, t);
    } else {
      AnchorKept(c, s, t);
      SaveFailedPlaced(s, t);
    }
    Whole(c, t);
  }

  lemma MarkSteady(c: Pass, s: State, some: set<Address>, t: State)
    requires Steady(c, s) && t == s.Marking(some).(phase := t.phase, queue := t.queue, restarts := t.restarts)
    ensures Steady(c, t) && t.Saved() == s.Saved() && t.Goal() == s.Goal() && t.Progress() == s.Progress()
  {
    assert Bounds(c, t) == Bounds(c, s);
  }

  lemma MarkMidway(c: Pass, s: State, t: State)
    requires Placed(s) && Anchored(s) && s.phase.Finishing? && t.phase.Idle? && t.restarts == s.restarts + 1
    requires t.course == s.course && t.checkpoint == s.checkpoint && t.attempts == s.attempts
    requires t.Saved() == s.Saved() && t.Goal() == s.Goal() && t.Progress() == s.Progress()
    ensures Midway(c, t)
  {
  }

  lemma MarkKeeps(c: Pass, s: State, a: Action, t: State)
    requires c.Valid() && Inv(c, s) && Enabled(c, s, a) && (a.Mark? || a.MarkThrows?) && t == Do(c, s, a)
    ensures Inv(c, t)
  {
    Parts(c, s);
    MarkSteady(c, s, if a.Mark? then c.sources else a.some, t);
    if Over(c, t) {
      WholeOver(c, t);
    } else {
      MarkMidway(c, s, t);
      Whole(c, t);
    }
  }

  lemma WholeOver(c: Pass, s: State)
    requires Steady(c, s) && Over(c, s) && !Running(s)
    requires s.Progress() == s.Goal() && |s.attempts| <= s.Goal() + s.restarts
    ensures Inv(c, s)
  {
  }

  lemma OtherPlaced(c: Pass, s: State, a: Action, t: State)
    requires Placed(s) && (Running(s) ==> Queued(s))
    requires Enabled(c, s, a) && (a.Crash? || a.RefillThrows? || a.Proceed?) && t == Do(c, s, a)
    requires !s.phase.Deleting?
    ensures Placed(t) && (Running(t) ==> Queued(t))
  {
    assert t.Progress() == s.Progress() && t.Goal() == s.Goal() && t.Saved() == s.Saved();
  }

  lemma OtherKeeps(c: Pass, s: State, a: Action, t: State)
    requires c.Valid() && Inv(c, s) && Enabled(c, s, a) && t == Do(c, s, a)
    requires a.Crash? || a.RefillThrows? || a.Proceed?
    ensures Inv(c, t)
  {
    Parts(c, s);
    SteadyKept(c, s, t);
    if Over(c, s) {
      WholeOver(c, t);
    } else {
      AnchorKept(c, s, t);
      OtherPlaced(c, s, a, t);
      Whole(c, t);
    }
  }

  lemma DeleteKeeps(c: Pass, s: State, a: Action, t: State)
    requires c.Valid() && Inv(c, s) && Enabled(c, s, a) && (a.Delete? || a.DeleteThrows?) && t == Do(c, s, a)
    ensures Inv(c, t)
  {
    Parts(c, s);
    SteadyKept(c, s, t);
    WholeOver(c, t);
  }

  lemma StepKeeps(c: Pass, s: State, a: Action)
    requires c.Valid() && Inv(c, s) && Enabled(c, s, a)
    ensures Inv(c, Do(c, s, a))
  {
    var t := Do(c, s, a);
    match a
    case Begin(last) => BeginKeeps(c, s, last);
    case Refill => RefillKeeps(c, s, t);
    case Pop => PopKeeps(c, s, t);
    case Attempt(landed) => AttemptKeeps(c, s, landed, t);
    case Save => SaveKeeps(c, s, a, t);
    case SaveThrows(_) => SaveKeeps(c, s, a, t);
    case Mark => MarkKeeps(c, s, a, t);
    case MarkThrows(_) => MarkKeeps(c, s, a, t);
    case Delete => DeleteKeeps(c, s, a, t);
    case DeleteThrows(_) => DeleteKeeps(c, s, a, t);
    case _ => OtherKeeps(c, s, a, t);
  }

  lemma InitialInv(c: Pass)
    ensures Inv(c, INITIAL)
  {
    assert Rest(c, INITIAL) || INITIAL.Progress() == 0;
  }

  lemma {:induction false} RunKeeps(c: Pass, actions: seq<Action>, s: State)
    requires c.Valid() && IsRun(c, actions, s)
    ensures Inv(c, s)
  {
    if actions == [] {
      InitialInv(c);
    } else {
      var before := Exec(c, actions[..|actions| - 1]).value;
      RunKeeps(c, actions[..|actions| - 1], before);
      StepKeeps(c, before, actions[|actions| - 1]);
    }
  }

  // ---------------------------------------------------------------- theorems

  lemma {:induction false} DueSorted(log: seq<Event>, bounds: map<Address, Position>)
    requires Sorted(log)
    ensures Sorted(Due(log, bounds))
  {
    if log != [] {
      DueSorted(log[1..], bounds);
      forall e | e in Due(log[1..], bounds) ensures log[0].pos.Before(e.pos) {
        var i :| 0 <= i < |log[1..]| && log[1..][i] == e;
        assert log[i + 1] == e;
      }
    }
  }

  lemma {:induction false} SortedSame(a: seq<Event>, b: seq<Event>)
    requires Sorted(a) && Sorted(b) && forall e :: e in a <==> e in b
    ensures a == b
  {
    assert b == [] || b[0] in b;
    if a != [] {
      assert a[0] in b && b[0] in a;
      assert a[0] == b[0] by {
        var i :| 0 <= i < |b| && b[i] == a[0];
        var j :| 0 <= j < |a| && a[j] == b[0];
      }
      forall e ensures e in a[1..] <==> e in b[1..] {
        RestIn(a, e);
        RestIn(b, e);
      }
      SortedSame(a[1..], b[1..]);
    }
  }

  lemma RestIn(a: seq<Event>, e: Event)
    requires Sorted(a) && a != []
    ensures e in a[1..] <==> e in a && e != a[0]
  {
    if e in a[1..] {
      var i :| 0 <= i < |a[1..]| && a[1..][i] == e;
      assert a[0].pos.Before(a[i + 1].pos);
    }
  }

  lemma CourseIsDue(c: Pass, s: State)
    requires c.Valid() && CourseOk(s) && Covers(c, s)
    ensures s.course[..s.Goal()] == Due(c.log, Bounds(c, s))
  {
    DueSorted(c.log, Bounds(c, s));
    SortedPrefix(s.course, s.Goal());
    SortedSame(s.course[..s.Goal()], Due(c.log, Bounds(c, s)));
  }

  /** However often the pass is cut short and resumed, and however far the last position has moved on by
      then: the attempts, repetitions collapsed, are a prefix of what is due, in order; each restart
      repeats at most one attempt; nothing commits more often than it is attempted. When the pass is over,
      everything due has been attempted, which for each address is everything up to the last position of
      the start in which it was marked. (What the restarts do to the commits is in `RetroactiveCommits`.) */
  lemma Resumption(c: Pass, actions: seq<Action>, s: State)
    requires c.Valid() && IsRun(c, actions, s)
    ensures Stretch(Due(c.log, Bounds(c, s)), 0, Collapse(s.attempts))
    ensures |s.attempts| <= |Collapse(s.attempts)| + s.restarts
    ensures multiset(s.commits) <= multiset(s.attempts)
    ensures Over(c, s) ==> c.sources <= s.markedAt.Keys && Collapse(s.attempts) == Due(c.log, Bounds(c, s))
  {
    RunKeeps(c, actions, s);
    CourseIsDue(c, s);
    var due := s.course[..s.Goal()];
    assert forall i :: 0 <= i < s.Goal() ==> due[i] == s.course[i];
  }

  lemma {:induction false} CollapseFull(xs: seq<Event>)
    requires |Collapse(xs)| == |xs|
    ensures Collapse(xs) == xs
  {
    if |xs| > 1 {
      CollapseEnds(xs[..|xs| - 1]);
      CollapseFull(xs[..|xs| - 1]);
      assert xs == xs[..|xs| - 1] + [xs[|xs| - 1]];
    }
  }

  lemma {:induction false} FirstLife(c: Pass, actions: seq<Action>, s: State)
    requires IsRun(c, actions, s) && s.restarts == 0
    ensures s.phase.Idle? ==> s.markedAt == map[]
    ensures forall a :: a in s.markedAt ==> s.markedAt[a] == s.last
  {
    if actions != [] {
      FirstLife(c, actions[..|actions| - 1], Exec(c, actions[..|actions| - 1]).value);
    }
  }

  /** A pass that is never cut short attempts each event of its addresses strictly between (0,0) and the
      last position exactly once, in order. */
  lemma ExactlyOnceWithoutRestarts(c: Pass, actions: seq<Action>, s: State)
    requires c.Valid() && IsRun(c, actions, s) && s.restarts == 0 && s.phase.Complete?
    ensures s.attempts == Due(c.log, map a | a in c.sources :: s.last)
  {
    RunKeeps(c, actions, s);
    Resumption(c, actions, s);
    FirstLife(c, actions, s);
    CollapseEnds(s.attempts);
    CollapseFull(s.attempts);
    assert Bounds(c, s) == map a | a in c.sources :: s.last;
  }

  /** Until it is deleted at the end, the checkpoint never goes back. */
  lemma CheckpointNeverGoesBack(c: Pass, actions: seq<Action>, s: State, a: Action)
    requires c.Valid() && IsRun(c, actions, s) && Enabled(c, s, a) && !a.Delete? && !a.DeleteThrows?
    ensures s.Resume().UpTo(Do(c, s, a).Resume())
  {
    RunKeeps(c, actions, s);
  }

  lemma {:induction false} CollapseMembers(xs: seq<Event>, e: Event)
    ensures e in xs <==> e in Collapse(xs)
  {
    if |xs| > 1 {
      var front := xs[..|xs| - 1];
      CollapseMembers(front, e);
      CollapseEnds(front);
      assert xs == front + [xs[|xs| - 1]];
      assert front[|front| - 1] in front;
    }
  }

  /** The events are queried up to and including the last position, but the loop stops on reaching it: all
      of them are attempted exactly when none of an address sits at the last position of the start in
      which the address was marked. */
  lemma InclusiveCoverageIff(c: Pass, actions: seq<Action>, s: State)
    requires c.Valid() && IsRun(c, actions, s) && Over(c, s)
    ensures (forall e :: e in c.log && Queried(c, s, e) ==> e in s.attempts) <==>
              !exists e :: e in c.log && Queried(c, s, e) && e.pos == s.markedAt[e.srcAddress]
  {
    Resumption(c, actions, s);
    forall e ensures e in s.attempts <==> e in c.log && IsDue(Bounds(c, s), e) {
      CollapseMembers(s.attempts, e);
    }
    assert forall e :: Queried(c, s, e) ==> (IsDue(Bounds(c, s), e) <==> e.pos != s.markedAt[e.srcAddress]);
  }

  ghost predicate Queried(c: Pass, s: State, e: Event) {
    && e.srcAddress in c.sources && e.srcAddress in s.markedAt
    && ORIGIN.Before(e.pos) && e.pos.UpTo(s.markedAt[e.srcAddress])
  }

  /** Popping an event that is not at the last position moves the pointer forward by exactly one event. */
  lemma PopAdvances(c: Pass, actions: seq<Action>, s: State)
    requires c.Valid() && IsRun(c, actions, s) && s.phase.Popping? && s.queue != []
    ensures Reach(s.course, s.queue[0].pos) == s.Pointed() + 1 <= |s.course|
  {
    RunKeeps(c, actions, s);
    HeadOfQueue(s);
  }

  lemma RunStep(c: Pass, actions: seq<Action>, s: State, a: Action)
    requires IsRun(c, actions, s) && Enabled(c, s, a)
    ensures IsRun(c, actions + [a], Do(c, s, a))
  {
    assert (actions + [a])[..|actions|] == actions;
  }

  lemma Continue(c: Pass, actions: seq<Action>, s: State, a: Action) returns (longer: seq<Action>, t: State)
    requires IsRun(c, actions, s) && Enabled(c, s, a)
    ensures IsRun(c, longer, t) && t == Do(c, s, a)
  {
    RunStep(c, actions, s, a);
    longer, t := actions + [a], Do(c, s, a);
  }

  lemma HandleOnly(c: Pass, e: Event, last: Position, actions: seq<Action>, s: State)
      returns (longer: seq<Action>, t: State)
    requires c.Valid() && c.log == [e] && c.sources == {e.srcAddress} && ORIGIN.Before(e.pos) && e.pos.Before(last)
    requires IsRun(c, actions, s) && s.phase.Idle? && s.checkpoint.None? && s.marked == {} && s.last.UpTo(last)
    requires s.course == [] || s.course == [e]
    ensures IsRun(c, longer, t) && t.phase.Saving? && t.checkpoint.None? && t.marked == {} && t.last == last
    ensures t.commits == s.commits + [e] && t.restarts == s.restarts && t.course == [e]
  {
    assert Mine([e], {e.srcAddress} - {}, ORIGIN, last) == [e];
    assert s.Saved() == 0;
    longer, t := Continue(c, actions, s, Begin(last));
    assert t.course == [e];
    longer, t := Continue(c, longer, t, Refill);
    assert t.queue == [e];
    longer, t := Continue(c, longer, t, Pop);
    longer, t := Continue(c, longer, t, Attempt(true));
  }

  /** A single crash is enough for an event's changes to commit twice. */
  lemma CanCommitTwice(c: Pass, e: Event, last: Position) returns (actions: seq<Action>, s: State)
    requires c.Valid() && c.log == [e] && c.sources == {e.srcAddress} && ORIGIN.Before(e.pos) && e.pos.Before(last)
    ensures IsRun(c, actions, s) && s.restarts == 1 && s.commits == [e, e]
  {
    actions, s := HandleOnly(c, e, last, [], INITIAL);
    actions, s := Continue(c, actions, s, Crash);
    actions, s := HandleOnly(c, e, last, actions, s);
  }
}
