/** The orchestrator loop itself. Every statement that awaits something is one action of the state
    machine in `Pipeline`, recorded in the world's ghost history, so whatever is proved there about
    all runs holds of this code. What the network, the handlers and the database answer is a script. */
module Orchestration {
  import opened Domain
  import opened EventLog
  import opened Pipeline
  import opened PipelineSafety
  import opened PipelineTheorems
  import opened CircularQueue
  import opened LoopSpec
  import IndexerClient

  // ---------------------------------------------------------------- what outlives the process

  class Transaction {
    var cursor: Option<Position>

    constructor ()
      ensures cursor == None
    {
      cursor := None;
    }
  }

  /** What a crash would leave of the world, and whether there is a process that could crash. */
  datatype Durable = Durable(indexed: nat, cursor: Option<Position>, commits: seq<Commit>, running: bool)

  /** The trail holds what was durable before the first action and after each one. */
  ghost predicate IsTrail(config: Config, chain: seq<Event>, actions: seq<Action>, trail: seq<Durable>)
    requires Sorted(chain)
  {
    && |trail| == |actions| + 1
    && Holds(config, chain, actions, trail[|actions|])
    && (actions != [] ==> IsTrail(config, chain, actions[..|actions| - 1], trail[..|actions|]))
  }

  ghost predicate Holds(config: Config, chain: seq<Event>, actions: seq<Action>, d: Durable) {
    match Exec(config, actions)
    case None => false
    case Some(s) =>
      && d.indexed <= |chain| && s.log == chain[..d.indexed]
      && s.cursor == d.cursor && s.commits == d.commits && d.running == !s.phase.Down?
  }

  lemma TrailMore(config: Config, chain: seq<Event>, actions: seq<Action>, trail: seq<Durable>, a: Action, d: Durable)
    requires Sorted(chain) && IsTrail(config, chain, actions, trail) && Holds(config, chain, actions + [a], d)
    ensures IsTrail(config, chain, actions + [a], trail + [d])
  {
    assert (actions + [a])[..|actions|] == actions && (trail + [d])[..|actions| + 1] == trail;
  }

  lemma {:induction false} TrailCut(config: Config, chain: seq<Event>, actions: seq<Action>, trail: seq<Durable>,
                                    n: nat)
    requires Sorted(chain) && IsTrail(config, chain, actions, trail) && n <= |actions|
    ensures IsTrail(config, chain, actions[..n], trail[..n + 1])
    decreases |actions|
  {
    if n == |actions| {
      assert actions[..n] == actions && trail[..n + 1] == trail;
    } else {
      TrailCut(config, chain, actions[..|actions| - 1], trail[..|actions|], n);
      assert actions[..|actions| - 1][..n] == actions[..n] && trail[..|actions|][..n + 1] == trail[..n + 1];
    }
  }

  /** The indexer, showing a prefix of the chain, and the database of one chain. */
  class World {
    const config: Config
    const chain: seq<Event>
    var indexed: nat
    var cursor: Option<Position>
    var commits: seq<Commit>
    var trail: seq<Durable>
    ghost var state: State
    ghost var actions: seq<Action>

    ghost predicate Valid()
      reads this
    {
      && Sorted(chain) && indexed <= |chain|
      && IsRun(config, actions, state)
      && state.log == chain[..indexed]
      && state.cursor == cursor
      && state.commits == commits
      && IsTrail(config, chain, actions, trail)
    }

    constructor (config: Config, chain: seq<Event>)
      requires Sorted(chain)
      ensures Valid() && actions == [] && this.config == config && this.chain == chain
    {
      this.config, this.chain := config, chain;
      indexed, cursor, commits := 0, None, [];
      trail := [Durable(0, None, [], false)];
      state, actions := INITIAL, [];
    }

    /** An awaited operation has ended, and the tables are as it leaves them. */
    method Note(ghost a: Action, running: bool := true)
      requires Sorted(chain) && indexed <= |chain| && IsTrail(config, chain, actions, trail)
      requires IsRun(config, actions, state) && Enabled(config, state, a)
      requires var t := Do(config, state, a);
               t.log == chain[..indexed] && t.cursor == cursor && t.commits == commits && running == !t.phase.Down?
      modifies `trail, `state, `actions
      ensures Valid() && state == Do(config, old(state), a) && actions == old(actions) + [a]
    {
      var now := Durable(indexed, cursor, commits, running);
      RunStep(config, actions, state, a);
      TrailMore(config, chain, actions, trail, a, now);
      trail := trail + [now];
      actions, state := actions + [a], Do(config, state, a);
    }

    /** The process died after `n` of the actions recorded: what it would have done next never happened. */
    method Kill(n: nat)
      requires Valid() && n < |trail|
      modifies this
      ensures Valid() && state.phase.Down?
      ensures |old(actions)| >= n
      ensures actions == old(actions)[..n] || actions == old(actions)[..n] + [Crash]
    {
      TrailCut(config, chain, actions, trail, n);
      var left := trail[n];
      indexed, cursor, commits := left.indexed, left.cursor, left.commits;
      trail := trail[..n + 1];
      actions := actions[..n];
      state := Exec(config, actions).value;
      if left.running {
        Note(Crash, false);
      }
    }

    method Arrive(more: nat)
      requires Valid() && !state.phase.Down?
      modifies `indexed, `trail, `state, `actions
      ensures Valid() && indexed == if old(indexed) + more <= |chain| then old(indexed) + more else |chain|
      ensures state == old(state).(log := chain[..indexed])
    {
      var next := if indexed + more <= |chain| then indexed + more else |chain|;
      assert chain[..indexed] + chain[indexed..next] == chain[..next];
      ghost var more := chain[indexed..next];
      indexed := next;
      Note(Grow(more));
    }

    method GetLastProcessedEvent() returns (pos: Option<Position>)
      ensures pos == cursor
    {
      pos := cursor;
    }

    /** Upserts the cursor row, inside the transaction if one reaches it: `DatabaseEventRegistry`
        forwards the event but not the transaction. */
    method SaveLastProcessedEvent(e: Event, tx: Transaction?)
      modifies `cursor, tx
      ensures tx != null && config.wiring.Transactional? ==> cursor == old(cursor) && tx.cursor == Some(e.pos)
      ensures tx == null || config.wiring.Detached? ==>
                cursor == Some(e.pos) && (tx != null ==> tx.cursor == old(tx.cursor))
    {
      if tx != null && config.wiring.Transactional? {
        tx.cursor := Some(e.pos);
      } else {
        cursor := Some(e.pos);
      }
    }

    /** COMMIT: what the transaction holds becomes durable. */
    method Land(e: Event, work: Work, tx: Transaction)
      modifies `cursor, `commits
      ensures cursor == if tx.cursor.Some? then tx.cursor else old(cursor)
      ensures commits == old(commits) + Made(e, Some(work))
    {
      if tx.cursor.Some? {
        cursor := tx.cursor;
      }
      match work {
        case Changes(q) => commits := commits + [Commit(e, q)];
        case NoChanges =>
      }
    }
  }

  // ---------------------------------------------------------------- batches and their context

  /** Ready to pop: the queue starts at the first event after the cursor, and it is empty after a
      fetch only when the cursor is at the end of the log. */
  lemma NextIsFirst(c: Config, actions: seq<Action>, s: State)
    requires IsRun(c, actions, s) && s.phase.Popping?
    ensures s.queue != [] ==> Passed(s) < |s.log| && s.queue[0] == s.log[Passed(s)]
    ensures Limit(After(s.log, s.From()), c.fetchLimit) == [] && c.fetchLimit > 0 ==> Passed(s) == |s.log|
  {
    HandThenQueueFollowCursor(c, actions, s);
    RunKeeps(c, actions, s);
    AfterIsSuffix(s.log, s.From(), Passed(s));
  }

  /** A fetch brings as many events as there are after the cursor, up to the limit. */
  lemma FetchedLength(c: Config, actions: seq<Action>, s: State)
    requires IsRun(c, actions, s)
    ensures |Limit(After(s.log, s.From()), c.fetchLimit)| == Min(c.fetchLimit, |s.log| - Passed(s))
  {
    RunKeeps(c, actions, s);
    AfterIsSuffix(s.log, s.From(), Passed(s));
  }

  /** After refilling, the queue holds as many events as the specification says are available. */
  lemma AvailableIs(c: Config, actions: seq<Action>, s: State, turn: Turn, was: Course, queued: seq<Event>)
    requires IsRun(c, actions, s) && (queued != [] || turn.fetchWorks)
    requires was.indexed == |s.log| && was.passed == Passed(s) && was.queued == |queued|
    requires s.queue == if queued == [] then Limit(After(s.log, s.From()), c.fetchLimit) else queued
    ensures |s.queue| == Available(c, was, turn)
  {
    FetchedLength(c, actions, s);
  }

  lemma {:induction false} EndCovers(c: Config, turn: Turn, n: nat)
    ensures !EndOf(c, turn, n).threw ==> EndOf(c, turn, n).covers
    decreases c.maxAttempts - n
  {
    if turn.attempts(n) == HandlerThrew(true) && n + 1 < c.maxAttempts && !turn.signalOn(n) {
      EndCovers(c, turn, n + 1);
    }
  }

  lemma CursorInPlace(c: Config, actions: seq<Action>, s: State)
    requires IsRun(c, actions, s)
    ensures Sorted(s.log) && (s.cursor.Some? ==> 0 < Passed(s) <= |s.log| && s.log[Passed(s) - 1].pos == s.From())
  {
    ReadTiling(c, actions, s);
  }

  lemma {:induction false} ReachMonotone(log: seq<Event>, p: Position, q: Position)
    requires p.UpTo(q)
    ensures Reach(log, p) <= Reach(log, q)
  {
    if log != [] {
      ReachMonotone(log[1..], p, q);
    }
  }

  /** More events do not change how many a position reaches, if it is on one of those there were. */
  lemma ReachStays(log: seq<Event>, all: seq<Event>, p: Position, n: nat)
    requires Sorted(all) && Extends(log, all) && IsReach(log, p, n)
    requires 0 < n <= |log| && log[n - 1].pos == p
    ensures Reach(all, p) == n && Reach(all, ORIGIN) <= n
  {
    GrowthKeepsReach(log, all, p, n);
    ReachUnique(all, p, n);
    ReachMonotone(all, ORIGIN, p);
  }

  /** When events arrive, what the cursor has passed stays, except that the first one may be at (0,0). */
  lemma ArrivedIs(c: Config, actions: seq<Action>, before: seq<Action>, s: State, t: State)
    requires IsRun(c, before, s) && IsRun(c, actions, t)
    requires Extends(s.log, t.log) && t.cursor == s.cursor
    ensures Passed(t) == Max(Passed(s), Reach(t.log, ORIGIN))
  {
    CursorInPlace(c, before, s);
    CursorInPlace(c, actions, t);
    if s.cursor.Some? {
      ReachStays(s.log, t.log, s.From(), Passed(s));
    } else {
      ReachGrows(s.log, t.log, ORIGIN);
    }
  }

  lemma PassedAfter(s: State, from: Position, e: Event, moved: bool)
    requires Sorted(s.log) && Reach(s.log, from) < |s.log| && s.log[Reach(s.log, from)] == e
    requires s.From() == if moved then e.pos else from
    ensures Passed(s) == Reach(s.log, from) + if moved then 1 else 0
  {
    if moved {
      ReachAt(s.log, Reach(s.log, from));
    }
  }

  lemma {:induction false} ReachGrows(log: seq<Event>, all: seq<Event>, p: Position)
    requires Extends(log, all)
    ensures Reach(log, p) <= Reach(all, p)
    decreases |log|
  {
    if log != [] {
      assert all[0] == log[0];
      assert forall i :: 0 <= i < |log[1..]| ==> log[1..][i] == all[1..][i];
      ReachGrows(log[1..], all[1..], p);
    }
  }

  lemma ReachAt(log: seq<Event>, k: nat)
    requires Sorted(log) && k < |log|
    ensures Reach(log, log[k].pos) == k + 1
  {
    ReachUnique(log, log[k].pos, k + 1);
  }

  /** What the end of a transaction makes of the state. */
  lemma CommitEnds(c: Config, s: State, e: Event, work: Work, landed: bool, reached: bool)
    requires s.phase == Committing(e, work) && (landed ==> reached)
    ensures var t := Do(c, s, if landed then CommitOk else CommitThrows(reached));
            && SameFeed(s, t) && t.aborted == s.aborted
            && t.cursor == (if reached then Some(e.pos) else s.cursor)
            && t.commits == s.commits + Made(e, if reached then Some(work) else None)
            && t.phase == if landed then Finished(e) else Throwing(e, Errored, reached)
  {
  }

  ghost predicate SameFeed(s: State, t: State) {
    t.log == s.log && t.queue == s.queue
  }

  /** The events of one block, in batch order. */
  function InBlock(events: seq<Event>, block: nat): seq<Event> {
    if events == [] then []
    else
      var last := events[|events| - 1];
      InBlock(events[..|events| - 1], block) + if last.pos.block == block then [last] else []
  }

  lemma InBlockSnoc(events: seq<Event>, e: Event)
    ensures forall b :: InBlock(events + [e], b) == InBlock(events, b) + if e.pos.block == b then [e] else []
  {
    assert (events + [e])[..|events|] == events;
  }

  /** The context groups the batch by block number. */
  ghost predicate ContextOf(events: seq<Event>, context: map<nat, seq<Event>>) {
    forall b: nat ::
        if b in context then context[b] == InBlock(events, b) && context[b] != [] else InBlock(events, b) == []
  }

  /** `shouldIgnoreTimestampsUpdatedError`: a timestamps event that found no round is not reported when
      a pool is created later in its block. Only the reporting depends on it. */
  predicate ShouldIgnore(context: map<nat, seq<Event>>, e: Event, roundNotFound: bool) {
    && roundNotFound && e.payload.TimestampsUpdated?
    && e.pos.block in context
    && exists x :: x in context[e.pos.block] && x.pos.logIndex > e.pos.logIndex && x.payload.PoolCreated?
  }

  lemma {:induction false} InBlockMeans(events: seq<Event>, block: nat, x: Event)
    ensures x in InBlock(events, block) <==> x in events && x.pos.block == block
  {
    if events != [] {
      InBlockMeans(events[..|events| - 1], block, x);
      assert events == events[..|events| - 1] + [events[|events| - 1]];
    }
  }

  /** The pool is looked for in the current batch only. */
  lemma ShouldIgnoreIff(batch: seq<Event>, context: map<nat, seq<Event>>, e: Event, roundNotFound: bool)
    requires ContextOf(batch, context)
    ensures ShouldIgnore(context, e, roundNotFound) <==>
              && roundNotFound && e.payload.TimestampsUpdated?
              && exists x :: x in batch && x.pos.block == e.pos.block && e.pos.Before(x.pos) && x.payload.PoolCreated?
  {
    forall x ensures x in InBlock(batch, e.pos.block) <==> x in batch && x.pos.block == e.pos.block {
      InBlockMeans(batch, e.pos.block, x);
    }
  }

  // ---------------------------------------------------------------- the loop

  datatype Result = Succeeded | Raised(retriable: bool)

  /** Nothing is running: how far the cursor is, and what has been committed. */
  ghost function Resting(world: World): Course
    reads world
  {
    Course(world.indexed, Passed(world.state), 0, world.commits, false, false)
  }

  class Orchestrator {
    const world: World
    const queue: Queue<Event>
    var aborted: bool
    var context: map<nat, seq<Event>>
    ghost var batch: seq<Event>

    /** The process and the recorded run agree. */
    ghost predicate InSync()
      reads this, world, queue, queue.buffer
    {
      && world.Valid() && queue.Valid()
      && world.state.queue == queue.Contents()
      && world.state.aborted == aborted
    }

    ghost predicate AtTop()
      reads this, world, queue, queue.buffer
    {
      InSync() && world.state.phase.Top?
    }

    constructor (world: World)
      requires world.Valid() && world.state.phase.Down?
      modifies world`trail, world`state, world`actions
      ensures this.world == world && AtTop() && !aborted
      ensures Now(true) == old(Resting(world)).(alive := true)
      ensures fresh(queue) && fresh(queue.buffer)
    {
      this.world := world;
      this.queue := new Queue<Event>(world.config.fetchLimit);
      aborted, context, batch := false, map[], [];
      new;
      RunKeeps(world.config, world.actions, world.state);
      world.Note(Start);
    }

    method Hear(signal: bool)
      requires InSync() && !world.state.phase.Down?
      modifies `aborted, world`trail, world`state, world`actions
      ensures InSync() && aborted == (old(aborted) || signal)
      ensures world.state == old(world.state).(aborted := aborted, signals := world.state.signals)
      ensures !signal ==> world.state.signals == old(world.state.signals)
    {
      if signal && !aborted {
        aborted := true;
        world.Note(Signal);
      }
    }

    method GetNextEventsBatch() returns (events: seq<Event>)
      requires InSync()
      ensures events == Limit(After(world.state.log, world.state.From()), world.config.fetchLimit)
    {
      var last := world.GetLastProcessedEvent();
      var from := match last { case Some(p) => p case None => ORIGIN };
      var log := world.chain[..world.indexed];
      events := IndexerClient.GetEventsAfter(log, log, from, world.config.fetchLimit, true);
    }

    method EnqueueEvents(events: seq<Event>)
      requires queue.Valid()
      modifies this`context, this`batch, queue, queue.buffer
      ensures queue.Valid() && queue.Contents() == old(queue.Contents()) + events
      ensures queue.buffer == old(queue.buffer) || fresh(queue.buffer)
      ensures batch == events && ContextOf(events, context)
    {
      context := map[];
      for i := 0 to |events|
        invariant ContextOf(events[..i], context)
        modifies this`context
      {
        var b := events[i].pos.block;
        InBlockSnoc(events[..i], events[i]);
        assert events[..i + 1] == events[..i] + [events[i]];
        if b !in context {
          context := context[b := []];
        }
        context := context[b := context[b] + [events[i]]];
      }
      assert events[..|events|] == events;
      batch := events;
      queue.Push(events);
    }

    /** `DataLoader.applyChanges`: one transaction holding the changesets and `InsertProcessedEvent`. */
    method ApplyChanges(e: Event, work: Work, reply: TxReply) returns (landed: bool)
      requires InSync() && world.state.phase == Writing(e, work)
      modifies world`cursor, world`commits, world`trail, world`state, world`actions
      ensures InSync() && SameFeed(old(world.state), world.state)
      ensures landed <==> reply.CommitDone?
      ensures world.commits == old(world.commits) + Made(e, Reached(work, reply))
      ensures world.cursor == if Moves(world.config.wiring, reply) then Some(e.pos) else old(world.cursor)
      ensures landed ==> world.state.phase == Finished(e) && world.cursor == Some(e.pos)
      ensures !landed ==> world.state.phase.Throwing? && world.state.phase.e == e
    {
      var tx := new Transaction();
      if reply.WriteThrew? {
        AbandonTransaction(e, work, tx, reply.leaked);
        landed := false;
      } else {
        InsertProcessedEvent(e, work, tx);
        landed := EndTransaction(e, work, tx, reply);
      }
    }

    /** A changeset fails, or the cursor write does: perhaps only after it reached the database, which
        outlives the rollback when that write is not part of the transaction. */
    method AbandonTransaction(e: Event, work: Work, tx: Transaction, leaked: bool)
      requires InSync() && world.state.phase == Writing(e, work)
      modifies world`cursor, world`trail, world`state, world`actions, tx
      ensures InSync() && SameFeed(old(world.state), world.state)
      ensures world.state.phase == Throwing(e, Errored, false)
      ensures world.cursor == if leaked && world.config.wiring.Detached? then Some(e.pos) else old(world.cursor)
    {
      if leaked {
        world.SaveLastProcessedEvent(e, tx);
      }
      world.Note(WriteThrows(leaked && world.config.wiring.Detached?));
    }

    /** COMMIT, which may fail, and may fail after it took effect. */
    method EndTransaction(e: Event, work: Work, tx: Transaction, reply: TxReply) returns (landed: bool)
      requires InSync() && world.state.phase == Committing(e, work) && !reply.WriteThrew?
      requires if world.config.wiring.Transactional? then tx.cursor == Some(e.pos)
               else tx.cursor == None && world.cursor == Some(e.pos)
      modifies world`cursor, world`commits, world`trail, world`state, world`actions
      ensures InSync() && SameFeed(old(world.state), world.state) && landed == reply.CommitDone?
      ensures world.commits == old(world.commits) + Made(e, Reached(work, reply))
      ensures world.state.phase == if landed then Finished(e) else Throwing(e, Errored, reply.reached)
      ensures world.cursor == if landed || reply.reached then Some(e.pos) else old(world.cursor)
    {
      landed := reply.CommitDone?;
      var reached := landed || reply.reached;
      CommitEnds(world.config, world.state, e, work, landed, reached);
      if reached {
        world.Land(e, work, tx);
      }
      world.Note(if landed then CommitOk else CommitThrows(reached));
    }

    /** The last changeset of every transaction. */
    method InsertProcessedEvent(e: Event, work: Work, tx: Transaction)
      requires InSync() && world.state.phase == Writing(e, work) && tx.cursor == None
      modifies world`cursor, world`trail, world`state, world`actions, tx
      ensures InSync() && SameFeed(old(world.state), world.state) && world.state.phase == Committing(e, work)
      ensures if world.config.wiring.Transactional? then tx.cursor == Some(e.pos) && world.cursor == old(world.cursor)
              else tx.cursor == None && world.cursor == Some(e.pos)
    {
      world.SaveLastProcessedEvent(e, tx);
      world.Note(WriteCursor);
    }

    /** One run of the retried operation: the handler, then the transaction. An error of the latter is
        never retriable: `handlePostgresError` only makes non-retriable ones, and an error raised by
        COMMIT is thrown as it comes. */
    method Operation(e: Event, reply: Attempt, signal: bool) returns (result: Result)
      requires InSync() && world.state.phase.Handling? && world.state.phase.e == e
      modifies `aborted, world
      ensures InSync() && world.indexed == old(world.indexed)
      ensures world.state.queue == old(world.state.queue) && aborted == (old(aborted) || signal)
      ensures result == if reply.HandlerThrew? then Raised(reply.retriable)
                        else if reply.tx.CommitDone? then Succeeded else Raised(false)
      ensures world.commits == old(world.commits) +
                if reply.HandlerDone? then Made(e, Reached(reply.work, reply.tx)) else []
      ensures world.cursor == if reply.HandlerDone? && Moves(world.config.wiring, reply.tx) then Some(e.pos)
                              else old(world.cursor)
      ensures match result
              case Succeeded => world.state.phase == Finished(e) && world.cursor == Some(e.pos)
              case Raised(retriable) =>
                var n := old(world.state.phase.attempts) + 1;
                if retriable && n < world.config.maxAttempts then world.state.phase == Retrying(e, n)
                else world.state.phase.Throwing? && world.state.phase.e == e
    {
      Hear(signal);
      match reply
      case HandlerThrew(retriable) =>
        world.Note(HandlerThrows(retriable));
        result := Raised(retriable);
      case HandlerDone(work, txReply) =>
        world.Note(Handled(work));
        var landed := ApplyChanges(e, work, txReply);
        result := if landed then Succeeded else Raised(false);
    }

    /** `RetryHandler.execute`: retries while the error is retriable and attempts are left, stops
        retrying on a shutdown signal, and throws after a signal even when the operation succeeded. */
    method Execute(e: Event, turn: Turn) returns (threw: bool)
      requires InSync() && world.state.phase == Retrying(e, 0)
      modifies `aborted, world
      ensures InSync() && world.indexed == old(world.indexed)
      ensures world.state.queue == old(world.state.queue)
      ensures if threw then world.state.phase.Throwing? && world.state.phase.e == e else world.state.phase.Top?
      ensures Came(e, if old(aborted) then ABORTED else EndOf(world.config, turn, 0), threw,
                   old(world.commits), old(world.cursor))
    {
      var attemptCount := 0;
      while !aborted
        invariant InSync() && world.indexed == old(world.indexed)
        invariant world.state.queue == old(world.state.queue)
        invariant world.state.phase == Retrying(e, attemptCount)
        invariant world.commits == old(world.commits) && world.cursor == old(world.cursor)
        invariant (if old(aborted) then ABORTED else EndOf(world.config, turn, 0))
               == (if aborted then ABORTED else EndOf(world.config, turn, attemptCount))
        decreases world.config.maxAttempts - attemptCount
      {
        var ended := Try(e, turn, attemptCount);
        if ended.Some? {
          return ended.value;
        }
        attemptCount := attemptCount + 1;
      }
      world.Note(CheckSignal);
      threw := true;
    }

    /** It has come to that end: what was committed, where the cursor is, and whether a signal was heard. */
    ghost predicate Came(e: Event, end: End, threw: bool, commits: seq<Commit>, cursor: Option<Position>)
      reads this, world
    {
      && threw == end.threw && aborted == end.heard
      && world.commits == commits + Made(e, end.work)
      && world.cursor == if end.covers then Some(e.pos) else cursor
    }

    /** One round of the retry loop: whether it threw, or None if there is to be another one. */
    method Try(e: Event, turn: Turn, n: nat) returns (threw: Option<bool>)
      requires InSync() && world.state.phase == Retrying(e, n) && !aborted
      modifies `aborted, world
      ensures InSync() && world.indexed == old(world.indexed)
      ensures world.state.queue == old(world.state.queue)
      ensures threw == None ==>
                && world.state.phase == Retrying(e, n + 1) && n + 1 < world.config.maxAttempts
                && world.commits == old(world.commits) && world.cursor == old(world.cursor)
                && EndOf(world.config, turn, n) == if aborted then ABORTED else EndOf(world.config, turn, n + 1)
      ensures threw == Some(true) ==> world.state.phase.Throwing? && world.state.phase.e == e
      ensures threw == Some(false) ==> world.state.phase.Top?
      ensures threw.Some? ==>
                Came(e, EndOf(world.config, turn, n), threw.value, old(world.commits), old(world.cursor))
    {
      world.Note(CheckSignal);
      var result := Operation(e, turn.attempts(n), turn.signalOn(n));
      match result
      case Succeeded =>
        world.Note(Return);
        threw := Some(aborted);
      case Raised(retriable) =>
        threw := if !retriable || n + 1 >= world.config.maxAttempts then Some(true) else None;
    }

    /** The catch block: the event in hand is recorded as processed, whatever went wrong with it. */
    method Catch(e: Event, reply: Reply) returns (alive: bool)
      requires InSync() && world.state.phase.Throwing? && world.state.phase.e == e
      modifies world
      ensures world.Valid() && world.indexed == old(world.indexed) && world.commits == old(world.commits)
      ensures alive <==> reply.Written?
      ensures world.cursor == if alive || reply.reached then Some(e.pos) else old(world.cursor)
      ensures if alive then AtTop() else world.state.phase.Down?
      ensures world.state.queue == if alive then old(world.state.queue) else []
    {
      match reply
      case Written =>
        world.SaveLastProcessedEvent(e, null);
        world.Note(SaveOk);
        alive := true;
      case Threw(reached) =>
        if reached {
          world.SaveLastProcessedEvent(e, null);
        }
        world.Note(SaveThrows(reached), false);
        alive := false;
    }

    /** Refills an empty queue; `false` if the fetch threw. */
    method Refill(turn: Turn) returns (ready: bool)
      requires AtTop() && !aborted
      modifies `context, `batch, world`trail, world`state, world`actions, queue, queue.buffer
      ensures InSync() && (queue.buffer == old(queue.buffer) || fresh(queue.buffer))
      ensures world.state.log == old(world.state.log)
      ensures world.state.phase == if ready then Popping else Top
      ensures world.state.From() == old(world.state.From())
      ensures ready <==> old(world.state.queue) != [] || turn.fetchWorks
      ensures world.state.queue ==
                if ready && old(world.state.queue) == []
                then Limit(After(world.state.log, world.state.From()), world.config.fetchLimit)
                else old(world.state.queue)
      ensures ready && world.state.queue == [] ==>
                Limit(After(world.state.log, world.state.From()), world.config.fetchLimit) == []
    {
      var empty := queue.IsEmpty();
      if empty && !turn.fetchWorks {
        world.Note(FetchThrows);
        return false;
      }
      if empty {
        FetchBatch();
      } else {
        world.Note(Proceed);
      }
      ready := true;
    }

    method FetchBatch()
      requires AtTop() && !aborted && queue.Contents() == []
      modifies `context, `batch, world`trail, world`state, world`actions, queue, queue.buffer
      ensures InSync() && (queue.buffer == old(queue.buffer) || fresh(queue.buffer))
      ensures world.state == Do(world.config, old(world.state), Fetch)
    {
      var events := GetNextEventsBatch();
      EnqueueEvents(events);
      world.Note(Fetch);
    }

    /** The first half of a pass: refill the queue if it is empty, then pop. */
    method TakeNext(turn: Turn) returns (taken: Option<Event>)
      requires AtTop() && !aborted
      modifies this, world`trail, world`state, world`actions, queue, queue.buffer
      ensures InSync() && (queue.buffer == old(queue.buffer) || fresh(queue.buffer))
      ensures world.state.log == old(world.state.log) && world.state.From() == old(world.state.From())
      ensures world.state.phase == if taken.Some? then Retrying(taken.value, 0) else Top
      ensures aborted <==> turn.signalOnFetch && (old(world.state.queue) != [] || turn.fetchWorks)
      ensures taken.Some? ==>
                Passed(world.state) < |world.state.log| && taken.value == world.state.log[Passed(world.state)]
      ensures var available := Available(world.config, old(Now(true)), turn);
              && (taken.Some? <==> available > 0)
              && |world.state.queue| == if available > 0 then available - 1 else 0
    {
      ghost var was, queued := Now(true), world.state.queue;
      var ready := Refill(turn);
      if !ready {
        return None;
      }
      AvailableIs(world.config, world.actions, world.state, turn, was, queued);
      taken := TakeReady(turn);
    }

    method TakeReady(turn: Turn) returns (taken: Option<Event>)
      requires InSync() && world.state.phase.Popping? && !aborted
      modifies this, world`trail, world`state, world`actions, queue, queue.buffer
      ensures InSync() && (queue.buffer == old(queue.buffer) || fresh(queue.buffer))
      ensures world.state.log == old(world.state.log) && world.state.From() == old(world.state.From())
      ensures world.state.phase == if taken.Some? then Retrying(taken.value, 0) else Top
      ensures aborted == turn.signalOnFetch
      ensures taken.Some? ==>
                Passed(world.state) < |world.state.log| && taken.value == world.state.log[Passed(world.state)]
      ensures var available := |old(world.state.queue)|;
              && (taken.Some? <==> available > 0)
              && |world.state.queue| == if available > 0 then available - 1 else 0
    {
      NextIsFirst(world.config, world.actions, world.state);
      Hear(turn.signalOnFetch);
      taken := PopInHand();
    }

    /** Where the loop is, as the specification tells it. */
    ghost function Now(alive: bool): Course
      reads this, world
    {
      Course(world.indexed, Passed(world.state), |world.state.queue|, world.commits, aborted, alive)
    }

    method PopInHand() returns (taken: Option<Event>)
      requires InSync() && world.state.phase.Popping?
      modifies world`trail, world`state, world`actions, queue, queue.buffer
      ensures InSync() && (queue.buffer == old(queue.buffer) || fresh(queue.buffer))
      ensures world.state.log == old(world.state.log) && world.state.From() == old(world.state.From())
      ensures old(world.state.queue) == [] ==> taken.None? && world.state.phase.Top? && world.state.queue == []
      ensures old(world.state.queue) != [] ==>
                && taken == Some(old(world.state.queue)[0]) && world.state.phase == Retrying(taken.value, 0)
                && world.state.queue == old(world.state.queue)[1..]
    {
      taken := queue.Pop();
      world.Note(Pipeline.Pop);
    }

    /** The second half: run the event in hand through the retried operation and the catch block. */
    method Process(e: Event, turn: Turn) returns (alive: bool)
      requires InSync() && world.state.phase == Retrying(e, 0)
      modifies `aborted, world
      ensures world.Valid() && world.indexed == old(world.indexed)
      ensures if alive then AtTop() else world.state.phase.Down?
      ensures world.state.queue == if alive then old(world.state.queue) else []
      ensures var end := if old(aborted) then ABORTED else EndOf(world.config, turn, 0);
              && (alive <==> !end.threw || turn.save.Written?)
              && aborted == end.heard
              && world.commits == old(world.commits) + Made(e, end.work)
              && world.cursor == if alive || end.covers || turn.save.reached then Some(e.pos) else old(world.cursor)
    {
      var threw := Execute(e, turn);
      alive := true;
      if threw {
        alive := Catch(e, turn.save);
      } else {
        EndCovers(world.config, turn, 0);
      }
    }

    /** One pass of the loop does what the specification says: it takes the first event after the cursor,
        if one is queued or a working fetch brings one, commits what its attempts come to, and leaves the
        cursor on it unless the process dies first. */
    method Turn(turn: Turn) returns (alive: bool)
      requires AtTop() && !aborted
      modifies this, world, queue, queue.buffer
      ensures world.Valid() && (if alive then AtTop() else world.state.phase.Down?)
      ensures queue.buffer == old(queue.buffer) || fresh(queue.buffer)
      ensures Now(alive) == Pass(world.config, world.chain, old(Now(true)), turn)
    {
      ghost var was := Now(true);
      world.Arrive(turn.arrivals);
      ArrivedIs(world.config, world.actions, old(world.actions), old(world.state), world.state);
      assert Now(true) == Arrived(world.chain, was, turn.arrivals);
      alive := TakeAndProcess(turn);
    }

    method TakeAndProcess(turn: Turn) returns (alive: bool)
      requires AtTop() && !aborted
      modifies this, world, queue, queue.buffer
      ensures world.Valid() && (if alive then AtTop() else world.state.phase.Down?)
      ensures queue.buffer == old(queue.buffer) || fresh(queue.buffer)
      ensures Now(alive) == Step(world.config, world.chain, old(Now(true)), turn)
    {
      ghost var was := Now(true);
      var taken := TakeNext(turn);
      alive := true;
      if taken.Some? {
        ghost var from, end := world.state.From(), if aborted then ABORTED else EndOf(world.config, turn, 0);
        alive := Process(taken.value, turn);
        PassedAfter(world.state, from, taken.value, world.cursor == Some(taken.value.pos));
        HandledIs(world.config, world.chain, was, turn, end, alive, Now(alive));
      }
    }

    /** `run`, for as many passes as the script has: the passes of the specification, one after the other.
        As long as no signal is heard and every save is written it loops on, and passes as many events as
        there were passes with a working fetch, up to all that was indexed at the start, whatever became
        of the events and however many fetches failed in between. */
    method Run(script: seq<Turn>) returns (alive: bool)
      requires AtTop()
      modifies this, world, queue, queue.buffer
      ensures world.Valid() && (if alive then AtTop() else world.state.phase.Down?)
      ensures Now(alive) == Passes(world.config, world.chain, old(Now(true)), script)
      ensures !old(aborted) && world.config.fetchLimit > 0 && AllSteady(script) ==>
                Advanced(old(Now(true)), Now(alive), QuietCount(script))
    {
      ghost var was := Now(true);
      alive := Loop(script);
      if !was.aborted && world.config.fetchLimit > 0 && AllSteady(script) {
        SteadyProgress(world.config, world.chain, was, script);
      }
    }

    method Loop(script: seq<Turn>) returns (alive: bool)
      requires AtTop()
      modifies this, world, queue, queue.buffer
      ensures world.Valid() && (if alive then AtTop() else world.state.phase.Down?)
      ensures Now(alive) == Passes(world.config, world.chain, old(Now(true)), script)
    {
      ghost var was := Now(true);
      alive := true;
      var i := 0;
      ghost var now := was;
      while i < |script| && alive && !aborted
        invariant i <= |script| && world.Valid() && (if alive then AtTop() else world.state.phase.Down?)
        invariant queue.buffer == old(queue.buffer) || fresh(queue.buffer)
        invariant now == Now(alive) && IsAfter(world.config, world.chain, was, script, i, now)
      {
        alive := Turn(script[i]);
        PassesNext(world.config, world.chain, was, script, i, now, Now(alive));
        now := Now(alive);
        i := i + 1;
      }
      PassesEnd(world.config, world.chain, was, script, i, now);
    }
  }

  /** The service over several lives. A life ends by a shutdown, by an error nothing catches, or by a
      crash after any of its actions. Whatever happened, what is left is a reachable state, with a gap
      exactly if a crash fell between a detached cursor write and the commit of the changes with it. If
      nobody kills it, it is what the specification says; and if besides no signal is heard and every save
      is written, as many events are passed as there were passes with a working fetch. */
  method Serve(world: World, lives: seq<Life>)
    requires world.Valid() && world.state.phase.Down?
    modifies world
    ensures world.Valid() && world.state.phase.Down?
    ensures Sorted(Committed(world.commits))
    ensures GapFree(world.state) <==> WindowCrashes(world.config, world.actions) == 0
    ensures world.config.wiring.Transactional? ==> GapFree(world.state)
    ensures NoneKilled(lives) ==>
              Resting(world) == AfterLives(world.config, world.chain, old(Resting(world)), lives)
    ensures Progresses(world.config, old(Resting(world)), Resting(world), lives)
  {
    ghost var was := Resting(world);
    LiveAll(world, lives);
    Promises(world.config, world.actions, world.state);
    LivesProgressTo(world.config, world.chain, was, lives, Resting(world));
  }

  /** What is so of every reachable state. */
  lemma Promises(c: Config, actions: seq<Action>, s: State)
    requires IsRun(c, actions, s)
    ensures Sorted(Committed(s.commits))
    ensures GapFree(s) <==> WindowCrashes(c, actions) == 0
    ensures c.wiring.Transactional? ==> GapFree(s)
  {
    CommitsAtMostOnceInOrder(c, actions, s);
    GapFreeIff(c, actions, s);
    if c.wiring.Transactional? {
      NoGaps(c, actions, s);
    }
  }

  method LiveAll(world: World, lives: seq<Life>)
    requires world.Valid() && world.state.phase.Down?
    modifies world
    ensures world.Valid() && world.state.phase.Down?
    ensures NoneKilled(lives) ==>
              Resting(world) == AfterLives(world.config, world.chain, old(Resting(world)), lives)
  {
    ghost var was := Resting(world);
    for i := 0 to |lives|
      invariant world.Valid() && world.state.phase.Down?
      invariant NoneKilled(lives[..i]) ==>
                  Resting(world) == AfterLives(world.config, world.chain, was, lives[..i])
    {
      AfterLivesSnoc(world.config, world.chain, was, lives[..i], lives[i]);
      assert lives[..i + 1] == lives[..i] + [lives[i]];
      Live(world, lives[i]);
    }
    assert lives[..|lives|] == lives;
  }

  /** One life. If it is killed, it is after the number of actions given: its start and those. */
  method Live(world: World, life: Life)
    requires world.Valid() && world.state.phase.Down?
    modifies world
    ensures world.Valid() && world.state.phase.Down?
    ensures Resting(world) == AfterLife(world.config, world.chain, old(Resting(world)), life.script)
            || (life.killedAfter.Some? && |world.actions| >= |old(world.actions)| + 1 + life.killedAfter.value)
    ensures life.killedAfter.None? ==>
              Resting(world) == AfterLife(world.config, world.chain, old(Resting(world)), life.script)
  {
    ghost var was := Resting(world);
    var start := |world.trail|;
    assert start == |world.actions| + 1;
    var o := new Orchestrator(world);
    assert o.Now(true) == was.(alive := true);
    var alive := o.Run(life.script);
    assert |world.trail| == |world.actions| + 1;
    if life.killedAfter.Some? && start + life.killedAfter.value < |world.trail| {
      world.Kill(start + life.killedAfter.value);
    } else if alive {
      world.Note(if o.aborted then Exit else Crash, false);
    }
  }
}
