/** All the strategies of a chain at once: their steps interleave in any order, and they share the
    strategy table, the checkpoint table and the tables their events commit to. */
module RetroactiveRun {
  import opened Domain
  import opened EventLog
  import opened Retroactive
  import opened RetroactiveCommits
  import opened StrategyRegistry

  /** What a run of the retroactive processor starts from. */
  datatype Chain = Chain(log: seq<Event>, rows: Rows, handlers: set<nat>, limit: nat) {
    ghost predicate Valid() {
      Sorted(log) && limit > 0
    }

    /** The strategies that `findNewHandleableStrategies` finds. */
    function Found(): set<nat> {
      set a | a in Todo(rows, handlers) :: rows[a].id
    }

    function PassOf(id: nat): Pass {
      Pass(log, AddressesOf(rows, handlers, id), limit)
    }
  }

  datatype Landed = Landed(strategy: nat, event: Event)

  /** What one strategy keeps in memory, and the bookkeeping about it. */
  datatype Worker = Worker(
    phase: Phase, pointer: Position, queue: seq<Event>, last: Position,
    course: seq<Event>, markedAt: map<Address, Position>, attempts: seq<Event>, restarts: nat)

  datatype World = World(
    rows: Rows, checkpoints: map<nat, Position>, commits: seq<Landed>, workers: map<nat, Worker>)

  function Initial(c: Chain): World {
    World(c.rows, map[], [], map id | id in c.Found() :: Worker(Idle, ORIGIN, [], ORIGIN, [], map[], [], 0))
  }

  function CommitsOf(commits: seq<Landed>, id: nat): seq<Event> {
    if commits == [] then []
    else
      var last := commits[|commits| - 1];
      CommitsOf(commits[..|commits| - 1], id) + if last.strategy == id then [last.event] else []
  }

  /** What the shared tables hold for one strategy: its checkpoint row, those of its addresses that are
      marked, its commits. */
  function View(c: Chain, w: World, id: nat): State
    requires id in w.workers
  {
    var own := w.workers[id];
    State(if id in w.checkpoints then Some(w.checkpoints[id]) else None,
          (set a | a in c.PassOf(id).sources && a in w.rows && w.rows[a].handled),
          CommitsOf(w.commits, id), own.phase, own.pointer, own.queue, own.last,
          own.course, own.markedAt, own.attempts, own.restarts)
  }

  /** A crash of the process is a `Crash` of every strategy that is at work. */
  datatype Step = Step(strategy: nat, action: Action)

  ghost predicate Possible(c: Chain, w: World, step: Step) {
    step.strategy in w.workers && Enabled(c.PassOf(step.strategy), View(c, w, step.strategy), step.action)
  }

  /** The statement an action sends to the strategy table. */
  function RowsAfter(c: Chain, w: World, step: Step): Rows {
    match step.action
    case Mark => Marked(w.rows, c.PassOf(step.strategy).sources)
    case MarkThrows(some) => Marked(w.rows, some)
    case _ => w.rows
  }

  /** The statement an action sends to the checkpoint table. */
  function CheckpointsAfter(w: World, step: Step): map<nat, Position>
    requires step.strategy in w.workers
  {
    var saved := w.checkpoints[step.strategy := w.workers[step.strategy].pointer];
    match step.action
    case Save => saved
    case SaveThrows(reached) => if reached then saved else w.checkpoints
    case Delete => w.checkpoints - {step.strategy}
    case DeleteThrows(reached) => if reached then w.checkpoints - {step.strategy} else w.checkpoints
    case _ => w.checkpoints
  }

  function CommitsAfter(w: World, step: Step): seq<Landed>
    requires step.strategy in w.workers
  {
    var phase := w.workers[step.strategy].phase;
    if step.action == Attempt(true) && phase.Handling? then w.commits + [Landed(step.strategy, phase.e)] else w.commits
  }

  ghost function Perform(c: Chain, w: World, step: Step): World
    requires Possible(c, w, step)
  {
    var t := Do(c.PassOf(step.strategy), View(c, w, step.strategy), step.action);
    var own := Worker(t.phase, t.pointer, t.queue, t.last, t.course, t.markedAt, t.attempts, t.restarts);
    World(RowsAfter(c, w, step), CheckpointsAfter(w, step), CommitsAfter(w, step), w.workers[step.strategy := own])
  }

  ghost function ExecAll(c: Chain, steps: seq<Step>): Option<World> {
    if steps == [] then Some(Initial(c))
    else
      match ExecAll(c, steps[..|steps| - 1])
      case None => None
      case Some(w) => if Possible(c, w, steps[|steps| - 1]) then Some(Perform(c, w, steps[|steps| - 1])) else None
  }

  function Of(steps: seq<Step>, id: nat): seq<Action> {
    if steps == [] then []
    else
      var step := steps[|steps| - 1];
      Of(steps[..|steps| - 1], id) + if step.strategy == id then [step.action] else []
  }

  // ---------------------------------------------------------------- strategies do not disturb each other

  /** Of the strategy table nothing has changed but that addresses to do are handled. */
  ghost predicate RowsOk(c: Chain, rows: Rows) {
    && rows.Keys == c.rows.Keys
    && (forall a :: a in rows ==> rows[a].id == c.rows[a].id)
    && (forall a :: a in rows && a !in Todo(c.rows, c.handlers) ==> rows[a] == c.rows[a])
  }

  lemma CommitsOfSnoc(commits: seq<Landed>, more: Landed, id: nat)
    ensures CommitsOf(commits + [more], id) == CommitsOf(commits, id) + if more.strategy == id then [more.event] else []
  {
    assert (commits + [more])[..|commits|] == commits;
  }

  /** To the strategy that takes it, a step on the shared tables is its own step. */
  lemma OwnStep(c: Chain, w: World, step: Step)
    requires RowsOk(c, w.rows) && Possible(c, w, step)
    ensures View(c, Perform(c, w, step), step.strategy)
         == Do(c.PassOf(step.strategy), View(c, w, step.strategy), step.action)
  {
    var id := step.strategy;
    if step.action == Attempt(true) {
      CommitsOfSnoc(w.commits, Landed(id, w.workers[id].phase.e), id);
    }
    assert View(c, Perform(c, w, step), id).marked == Do(c.PassOf(id), View(c, w, id), step.action).marked;
  }

  lemma OthersRows(c: Chain, w: World, step: Step, id: nat)
    requires Possible(c, w, step) && id != step.strategy
    ensures forall a :: a in c.PassOf(id).sources && a in w.rows ==> RowsAfter(c, w, step)[a] == w.rows[a]
  {
    assert forall a :: a in c.PassOf(id).sources ==> a !in c.PassOf(step.strategy).sources;
  }

  lemma OthersTables(c: Chain, w: World, step: Step, id: nat)
    requires Possible(c, w, step) && id != step.strategy
    ensures var checkpoints := CheckpointsAfter(w, step);
            && (id in checkpoints <==> id in w.checkpoints)
            && (id in checkpoints ==> checkpoints[id] == w.checkpoints[id])
    ensures CommitsOf(CommitsAfter(w, step), id) == CommitsOf(w.commits, id)
  {
    var phase := w.workers[step.strategy].phase;
    if step.action == Attempt(true) && phase.Handling? {
      CommitsOfSnoc(w.commits, Landed(step.strategy, phase.e), id);
    }
  }

  lemma SameView(c: Chain, w: World, u: World, id: nat)
    requires id in w.workers && id in u.workers && u.workers[id] == w.workers[id] && u.rows.Keys == w.rows.Keys
    requires forall a :: a in c.PassOf(id).sources && a in w.rows ==> u.rows[a] == w.rows[a]
    requires id in u.checkpoints <==> id in w.checkpoints
    requires id in u.checkpoints ==> u.checkpoints[id] == w.checkpoints[id]
    requires CommitsOf(u.commits, id) == CommitsOf(w.commits, id)
    ensures View(c, u, id) == View(c, w, id)
  {
    assert View(c, u, id).marked == View(c, w, id).marked;
  }

  /** To every other strategy it is nothing: no address has two ids, and no checkpoint row two strategies. */
  lemma OthersStep(c: Chain, w: World, step: Step, id: nat)
    requires Possible(c, w, step) && id in w.workers && id != step.strategy
    ensures View(c, Perform(c, w, step), id) == View(c, w, id)
  {
    OthersRows(c, w, step, id);
    OthersTables(c, w, step, id);
    SameView(c, w, Perform(c, w, step), id);
  }

  lemma RowsKept(c: Chain, w: World, step: Step)
    requires RowsOk(c, w.rows) && Possible(c, w, step)
    ensures RowsOk(c, Perform(c, w, step).rows)
  {
  }

  lemma ProjectStep(c: Chain, front: seq<Step>, w: World, step: Step, id: nat)
    requires RowsOk(c, w.rows) && Possible(c, w, step) && id in w.workers
    requires IsRun(c.PassOf(id), Of(front, id), View(c, w, id))
    ensures IsRun(c.PassOf(id), Of(front + [step], id), View(c, Perform(c, w, step), id))
  {
    assert (front + [step])[..|front|] == front;
    if id == step.strategy {
      OwnStep(c, w, step);
      RunStep(c.PassOf(id), Of(front, id), View(c, w, id), step.action);
    } else {
      OthersStep(c, w, step, id);
      assert Of(front, id) + [] == Of(front, id);
    }
  }

  /** Each strategy has made a run of its own, and the strategy table is what their marks make it. */
  ghost predicate Projects(c: Chain, steps: seq<Step>, w: World) {
    && RowsOk(c, w.rows) && w.workers.Keys == c.Found()
    && forall id :: id in w.workers ==> IsRun(c.PassOf(id), Of(steps, id), View(c, w, id))
  }

  lemma InitialProjects(c: Chain)
    ensures Projects(c, [], Initial(c))
  {
    var w := Initial(c);
    forall id | id in w.workers ensures View(c, w, id) == INITIAL {
      assert View(c, w, id).marked == {};
    }
  }

  lemma StepProjects(c: Chain, front: seq<Step>, w: World, step: Step)
    requires Projects(c, front, w) && Possible(c, w, step)
    ensures Projects(c, front + [step], Perform(c, w, step))
  {
    var u := Perform(c, w, step);
    RowsKept(c, w, step);
    assert u.workers.Keys == w.workers.Keys;
    forall id | id in u.workers ensures IsRun(c.PassOf(id), Of(front + [step], id), View(c, u, id)) {
      ProjectStep(c, front, w, step, id);
    }
  }

  /** However the strategies interleave on the shared tables, each of them has made a run of its own, so
      every theorem about one pass holds of each. */
  lemma {:induction false} Interleaved(c: Chain, steps: seq<Step>, w: World)
    requires ExecAll(c, steps) == Some(w)
    ensures Projects(c, steps, w)
  {
    if steps == [] {
      InitialProjects(c);
    } else {
      var front, step, before := LastStep(c, steps, w);
      Interleaved(c, front, before);
      StepProjects(c, front, before, step);
    }
  }

  lemma LastStep(c: Chain, steps: seq<Step>, w: World) returns (front: seq<Step>, step: Step, before: World)
    requires ExecAll(c, steps) == Some(w) && steps != []
    ensures steps == front + [step] && ExecAll(c, front) == Some(before)
    ensures Possible(c, before, step) && Perform(c, before, step) == w
  {
    front, step := steps[..|steps| - 1], steps[|steps| - 1];
    before := ExecAll(c, front).value;
  }

  // ---------------------------------------------------------------- what a run leaves to do

  /** In every reachable state there is nothing left to do in the strategy table if and only if every
      strategy found has marked all its addresses. */
  lemma NothingLeftIff(c: Chain, steps: seq<Step>, w: World)
    requires ExecAll(c, steps) == Some(w)
    ensures w.workers.Keys == c.Found()
    ensures Todo(w.rows, c.handlers) == {} <==> forall id :: id in w.workers ==> Over(c.PassOf(id), View(c, w, id))
  {
    Interleaved(c, steps, w);
    if Todo(w.rows, c.handlers) == {} {
      forall id | id in w.workers ensures Over(c.PassOf(id), View(c, w, id)) {
        forall a | a in c.PassOf(id).sources ensures a in View(c, w, id).marked {
          assert a in w.rows && a !in Todo(w.rows, c.handlers);
        }
      }
    }
    if forall id :: id in w.workers ==> Over(c.PassOf(id), View(c, w, id)) {
      forall a ensures a !in Todo(w.rows, c.handlers) {
        if a in Todo(c.rows, c.handlers) {
          var id := c.rows[a].id;
          assert id in w.workers && a in c.PassOf(id).sources;
          assert a in View(c, w, id).marked;
        }
      }
    }
  }

  /** What is due of a strategy: for each address everything up to where it was marked. */
  ghost function DueOf(c: Chain, w: World, id: nat): seq<Event>
    requires id in w.workers
  {
    Due(c.log, Bounds(c.PassOf(id), View(c, w, id)))
  }

  ghost predicate Done(c: Chain, w: World, id: nat)
    requires id in w.workers
  {
    && c.PassOf(id).sources <= w.workers[id].markedAt.Keys
    && Collapse(w.workers[id].attempts) == DueOf(c, w, id)
    && |w.workers[id].attempts| <= |DueOf(c, w, id)| + w.workers[id].restarts
  }

  /** When nothing is left to do, every strategy has attempted all that was due, in order, each stop
      having repeated at most one attempt. When every pass completed, nothing is left to do. */
  lemma RunCoversAll(c: Chain, steps: seq<Step>, w: World)
    requires c.Valid() && ExecAll(c, steps) == Some(w)
    ensures Todo(w.rows, c.handlers) == {} ==> forall id :: id in w.workers ==> Done(c, w, id)
    ensures (forall id :: id in w.workers ==> w.workers[id].phase.Complete?) ==> Todo(w.rows, c.handlers) == {}
  {
    Interleaved(c, steps, w);
    NothingLeftIff(c, steps, w);
    forall id | id in w.workers
      ensures w.workers[id].phase.Complete? ==> Over(c.PassOf(id), View(c, w, id))
      ensures Over(c.PassOf(id), View(c, w, id)) ==> Done(c, w, id)
    {
      WhenOver(c.PassOf(id), Of(steps, id), View(c, w, id));
    }
  }

  /** Whatever was cut short, each strategy's commits are those of distinct events but for one repetition
      a stop, and for none at all if and only if no attempt landed again. */
  lemma RunRecommits(c: Chain, steps: seq<Step>, w: World, id: nat)
    requires c.Valid() && ExecAll(c, steps) == Some(w) && id in w.workers
    ensures var commits := CommitsOf(w.commits, id);
            && |commits| <= |Distinct(commits)| + w.workers[id].restarts
            && (|commits| == |Distinct(commits)| <==> Recommits(c.PassOf(id), Of(steps, id)) == 0)
  {
    Interleaved(c, steps, w);
    ExactlyOnceIff(c.PassOf(id), Of(steps, id), View(c, w, id));
  }

  lemma WhenOver(pass: Pass, actions: seq<Action>, s: State)
    requires pass.Valid() && IsRun(pass, actions, s)
    ensures s.phase.Complete? ==> Over(pass, s)
    ensures Over(pass, s) ==>
              && pass.sources <= s.markedAt.Keys
              && Collapse(s.attempts) == Due(pass.log, Bounds(pass, s))
              && |s.attempts| <= |Due(pass.log, Bounds(pass, s))| + s.restarts
  {
    RunKeeps(pass, actions, s);
    Resumption(pass, actions, s);
  }

  /** What is left for a strategy that is done is to delete its checkpoint. */
  lemma OverIsQuiet(pass: Pass, actions: seq<Action>, s: State, a: Action)
    requires pass.Valid() && IsRun(pass, actions, s) && Over(pass, s) && Enabled(pass, s, a)
    ensures a.Crash? || a.Delete? || a.DeleteThrows?
  {
    RunKeeps(pass, actions, s);
  }

  ghost predicate SameWork(w: World, u: World) {
    && u.rows == w.rows && u.commits == w.commits && u.workers.Keys == w.workers.Keys
    && forall id :: id in w.workers ==> u.workers[id].attempts == w.workers[id].attempts
  }

  lemma QuietStep(c: Chain, w: World, step: Step)
    requires Possible(c, w, step) && (step.action.Crash? || step.action.Delete? || step.action.DeleteThrows?)
    ensures SameWork(w, Perform(c, w, step))
  {
  }

  /** Once nothing is left to do, no later run, restarted as often as it may be, attempts or commits
      anything or touches the strategy table. */
  lemma {:induction false} LaterRunsApplyNothing(c: Chain, steps: seq<Step>, more: seq<Step>, u: World)
    requires c.Valid() && ExecAll(c, steps + more) == Some(u)
    ensures ExecAll(c, steps).Some?
    ensures var w := ExecAll(c, steps).value;
            Todo(w.rows, c.handlers) == {} ==> SameWork(w, u)
  {
    if more == [] {
      assert steps + more == steps;
    } else {
      var front, step := more[..|more| - 1], more[|more| - 1];
      assert (steps + more)[..|steps + more| - 1] == steps + front;
      var before := ExecAll(c, steps + front).value;
      LaterRunsApplyNothing(c, steps, front, before);
      if Todo(ExecAll(c, steps).value.rows, c.handlers) == {} {
        LaterStep(c, steps + front, before, step);
      }
    }
  }

  lemma LaterStep(c: Chain, steps: seq<Step>, w: World, step: Step)
    requires c.Valid() && ExecAll(c, steps) == Some(w) && Possible(c, w, step) && Todo(w.rows, c.handlers) == {}
    ensures SameWork(w, Perform(c, w, step))
  {
    var id := step.strategy;
    Interleaved(c, steps, w);
    NothingLeftIff(c, steps, w);
    OverIsQuiet(c.PassOf(id), Of(steps, id), View(c, w, id), step.action);
    QuietStep(c, w, step);
  }
}
