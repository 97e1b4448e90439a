/** The event pipeline of one chain as a state machine: every awaited operation of the
    orchestrator loop is one action, so that a crash or a shutdown signal may fall between any two.
    Only `log`, `cursor` and `commits` outlive the process. `ledger`, `crashes` and `signals` are
    bookkeeping no code reads. */
module Pipeline {
  import opened Domain
  import opened EventLog
  import opened Cursor

  /** Whether the cursor written by `InsertProcessedEvent` joins the transaction, or is durable at
      once because `DatabaseEventRegistry` drops the transaction argument. */
  datatype Wiring = Transactional | Detached

  datatype Config = Config(wiring: Wiring, fetchLimit: nat, maxAttempts: nat)

  /** What a handler produced: changesets (computed with a quote), or none, because the strategy has no
      handler or the handler had nothing to change. */
  datatype Work = Changes(quote: Quote) | NoChanges

  datatype Commit = Commit(event: Event, quote: Quote)

  datatype Verdict = Applied | Skipped | Failed | PassedOver | Lost

  datatype Entry = Entry(event: Event, verdict: Verdict)

  datatype Cause = Aborted | Errored

  datatype Phase =
    | Down
    | Top
    | Popping
    | Retrying(e: Event, attempts: nat)
    | Handling(e: Event, attempts: nat)
    | Writing(e: Event, work: Work)
    | Committing(e: Event, work: Work)
    | Finished(e: Event)
    | Throwing(e: Event, cause: Cause, committed: bool)

  /** What becomes of an event that the process leaves under the cursor: its changes were still to be
      committed, there were none to commit, or it had failed already. */
  function Parting(phase: Phase): Verdict {
    if !phase.Committing? then Failed else if phase.work.Changes? then Lost else Skipped
  }

  datatype State = State(
    log: seq<Event>, cursor: Option<Position>, commits: seq<Commit>,
    queue: seq<Event>, phase: Phase, aborted: bool,
    ledger: seq<Entry>, crashes: nat, signals: nat)
  {
    function From(): Position {
      FetchFrom(cursor)
    }

    predicate Holding() {
      !phase.Down? && !phase.Top? && !phase.Popping?
    }

    /** The event in hand has its verdict already. */
    predicate Settled() {
      phase.Finished? || (phase.Throwing? && phase.committed)
    }

    function Hand(): Option<Event> {
      if Holding() then Some(phase.e) else None
    }

    predicate Covered() {
      IsCovered(cursor, Hand())
    }

    /** The cursor is on an event that nothing has been recorded about. */
    predicate Exposed() {
      Covered() && !Settled()
    }

    /** What a process that goes leaves on record. */
    function Abandoned(): State {
      if Exposed() then Record(phase.e, Parting(phase)) else this
    }

    function Record(e: Event, v: Verdict): State {
      this.(ledger := ledger + [Entry(e, v)])
    }

    function Save(e: Event): State {
      this.(cursor := Some(e.pos))
    }

    /** The transaction of `e` reaches the database. */
    function Land(e: Event, work: Work): State {
      var s := Save(e);
      match work
      case Changes(q) => s.(commits := commits + [Commit(e, q)]).Record(e, Applied)
      case NoChanges => s.Record(e, Skipped)
    }

    /** The process is gone, and with it the queue and the signal. */
    function Gone(): State {
      this.(queue := [], phase := Down, aborted := false)
    }
  }

  datatype Action =
    | Grow(more: seq<Event>)
    | Start
    | Crash
    | Signal
    | Exit
    | Fetch
    | FetchThrows
    | Proceed
    | Pop
    | CheckSignal
    | Handled(work: Work)
    | HandlerThrows(retriable: bool)
    | WriteThrows(leaked: bool)
    | WriteCursor
    | CommitOk
    | CommitThrows(reached: bool)
    | Return
    | SaveOk
    | SaveThrows(reached: bool)

  ghost predicate Enabled(c: Config, s: State, a: Action) {
    match a
    case Grow(more) => Sorted(s.log + more)
    case Start => s.phase.Down?
    case Crash => !s.phase.Down?
    case Signal => !s.phase.Down? && !s.aborted
    case Exit => s.phase.Top? && s.aborted
    case Fetch => s.phase.Top? && !s.aborted && s.queue == []
    case FetchThrows => s.phase.Top? && !s.aborted && s.queue == []
    case Proceed => s.phase.Top? && !s.aborted && s.queue != []
    case Pop => s.phase.Popping?
    case CheckSignal => s.phase.Retrying?
    case Handled(_) => s.phase.Handling?
    case HandlerThrows(_) => s.phase.Handling?
    case WriteThrows(leaked) => s.phase.Writing? && (leaked ==> c.wiring.Detached?)
    case WriteCursor => s.phase.Writing?
    case CommitOk => s.phase.Committing?
    case CommitThrows(_) => s.phase.Committing?
    case Return => s.phase.Finished?
    case SaveOk => s.phase.Throwing?
    case SaveThrows(_) => s.phase.Throwing?
  }

  function Saved(s: State): State
    requires s.phase.Throwing?
  {
    var e := s.phase.e;
    var t := s.Save(e);
    if s.phase.committed then t
    else t.Record(e, if s.phase.cause.Aborted? then PassedOver else Failed)
  }

  ghost function Do(c: Config, s: State, a: Action): State
    requires Enabled(c, s, a)
  {
    match a
    case Grow(more) => s.(log := s.log + more)
    case Start => s.(phase := Top)
    case Crash => s.Abandoned().Gone().(crashes := s.crashes + 1)
    case Signal => s.(aborted := true, signals := s.signals + 1)
    case Exit => s.Gone()
    case Fetch => s.(queue := Limit(After(s.log, s.From()), c.fetchLimit), phase := Popping)
    case FetchThrows => s
    case Proceed => s.(phase := Popping)
    case Pop =>
      if s.queue == [] then s.(phase := Top)
      else s.(queue := s.queue[1..], phase := Retrying(s.queue[0], 0))
    case CheckSignal =>
      var e := s.phase.e;
      s.(phase := if s.aborted then Throwing(e, Aborted, false) else Handling(e, s.phase.attempts))
    case Handled(work) => s.(phase := Writing(s.phase.e, work))
    case HandlerThrows(retriable) =>
      var e, n := s.phase.e, s.phase.attempts + 1;
      s.(phase := if retriable && n < c.maxAttempts then Retrying(e, n) else Throwing(e, Errored, false))
    case WriteThrows(leaked) =>
      var t := s.(phase := Throwing(s.phase.e, Errored, false));
      if leaked then t.Save(s.phase.e) else t
    case WriteCursor =>
      var t := s.(phase := Committing(s.phase.e, s.phase.work));
      if c.wiring.Detached? then t.Save(s.phase.e) else t
    case CommitOk => s.Land(s.phase.e, s.phase.work).(phase := Finished(s.phase.e))
    case CommitThrows(reached) =>
      (if reached then s.Land(s.phase.e, s.phase.work) else s).(phase := Throwing(s.phase.e, Errored, reached))
    case Return =>
      s.(phase := if s.aborted then Throwing(s.phase.e, Aborted, true) else Top)
    case SaveOk => Saved(s).(phase := Top)
    case SaveThrows(reached) =>
      (if reached then Saved(s) else s.Abandoned()).Gone()
  }

  /** Nothing indexed, nothing running: the state before the service is first started. */
  const INITIAL := State([], None, [], [], Down, false, [], 0, 0)

  /** The state after running the actions in order, or None if one of them was not enabled. */
  ghost function Exec(c: Config, actions: seq<Action>): Option<State> {
    if actions == [] then Some(INITIAL)
    else
      match Exec(c, actions[..|actions| - 1])
      case None => None
      case Some(s) =>
        var a := actions[|actions| - 1];
        if Enabled(c, s, a) then Some(Do(c, s, a)) else None
  }

  ghost predicate IsRun(c: Config, actions: seq<Action>, s: State) {
    Exec(c, actions) == Some(s)
  }

  lemma RunStep(c: Config, actions: seq<Action>, s: State, a: Action)
    requires IsRun(c, actions, s) && Enabled(c, s, a)
    ensures IsRun(c, actions + [a], Do(c, s, a))
  {
    assert (actions + [a])[..|actions|] == actions;
  }
}
