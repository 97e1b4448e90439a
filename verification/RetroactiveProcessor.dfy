/** `processRetroactiveStrategy` as it is written, its awaited operations recorded as actions of the
    machine in `Retroactive`. */
module RetroactiveProcessing {
  import opened Domain
  import opened EventLog
  import opened IndexerClient
  import opened Retroactive
  import opened CircularQueue

  lemma RunTo(pass: Pass, actions: seq<Action>, s: State, a: Action, t: State)
    requires IsRun(pass, actions, s) && Enabled(pass, s, a) && t == Do(pass, s, a)
    ensures IsRun(pass, actions + [a], t)
  {
    RunStep(pass, actions, s, a);
  }

  /** The checkpoint row and the strategy rows of one strategy, and the changes its events committed. */
  class Store {
    const pass: Pass
    var checkpoint: Option<Position>
    var marked: set<Address>
    var commits: seq<Event>
    ghost var state: State
    ghost var actions: seq<Action>

    ghost predicate Valid()
      reads this
    {
      && pass.Valid()
      && IsRun(pass, actions, state)
      && state.checkpoint == checkpoint && state.marked == marked && state.commits == commits
    }

    constructor (pass: Pass)
      requires pass.Valid()
      ensures Valid() && actions == [] && this.pass == pass
    {
      this.pass := pass;
      checkpoint, marked, commits := None, {}, [];
      state, actions := INITIAL, [];
    }

    ghost method Note(a: Action)
      requires IsRun(pass, actions, state) && Enabled(pass, state, a)
      modifies `state, `actions
      ensures state == Do(pass, old(state), a) && IsRun(pass, actions, state)
    {
      var next := Do(pass, state, a);
      RunTo(pass, actions, state, a, next);
      actions, state := actions + [a], next;
    }

    method UpsertCheckpoint(pointer: Position, reply: Reply) returns (ok: bool)
      requires Valid() && state.phase.Saving? && state.pointer == pointer
      modifies this
      ensures Valid() && SameLog(old(state), state) && (ok <==> reply.Written?)
      ensures checkpoint == if ok || reply.reached then Some(pointer) else old(checkpoint)
      ensures ok ==> SameCourse(old(state), state) && state.phase.Looping?
      ensures !ok ==> state.phase.Idle? && state.restarts == old(state.restarts) + 1
    {
      if reply.Written? || reply.reached {
        checkpoint := Some(pointer);
      }
      Note(if reply.Written? then Save else SaveThrows(reply.reached));
      ok := reply.Written?;
    }

    /** The retried operation on one event: its changesets land, or they do not. */
    method ProcessEvent(e: Event, lands: bool)
      requires Valid() && state.phase == Handling(e)
      modifies this
      ensures Valid() && SameCourse(old(state), state) && state.phase.Saving? && checkpoint == old(checkpoint)
      ensures state.attempts == old(state.attempts) + [e]
      ensures commits == old(commits) + if lands then [e] else []
    {
      if lands {
        commits := commits + [e];
      }
      Note(Attempt(lands));
    }

    /** Marks the addresses, then deletes the checkpoint; an address that is not marked, or a deletion
        that throws, ends the pass short. */
    method MarkAndDelete(marks: set<Address>, marksThrow: bool, deletion: Reply) returns (ok: bool)
      requires Valid() && state.phase.Finishing?
      requires marks <= pass.sources && (!marksThrow ==> marks == pass.sources)
      modifies this
      ensures Valid() && SameLog(old(state), state) && state.last == old(state.last)
      ensures marked == old(marked) + marks
      ensures ok <==> !marksThrow && deletion.Written?
      ensures ok ==> state.phase.Complete? && checkpoint == None && state.restarts == old(state.restarts)
      ensures !ok ==> state.phase.Idle? && state.restarts == old(state.restarts) + 1
    {
      marked := marked + marks;
      if marksThrow {
        Note(MarkThrows(marks));
        return false;
      }
      Note(Mark);
      if deletion.Written? || deletion.reached {
        checkpoint := None;
      }
      Note(if deletion.Written? then Delete else DeleteThrows(deletion.reached));
      ok := deletion.Written?;
    }
  }

  /** The events whose changesets land, of those handled. */
  function Landing(events: seq<Event>, lands: Event -> bool): seq<Event> {
    if events == [] then []
    else Landing(events[..|events| - 1], lands) + if lands(events[|events| - 1]) then [events[|events| - 1]] else []
  }

  /** Between the two states exactly the events of `handled` were handled, and landed or not as `lands` says. */
  ghost predicate Worked(s: State, t: State, handled: seq<Event>, lands: Event -> bool) {
    t.attempts == s.attempts + handled && t.commits == s.commits + Landing(handled, lands)
  }

  function Listed(next: Option<Event>): seq<Event> {
    if next.Some? then [next.value] else []
  }

  lemma LandingOne(e: Event, lands: Event -> bool)
    ensures Landing([e], lands) == if lands(e) then [e] else []
  {
    assert [e][..0] == [];
  }

  lemma WorkedOnce(s: State, t: State, e: Event, lands: Event -> bool)
    requires t.attempts == s.attempts + [e] && t.commits == s.commits + if lands(e) then [e] else []
    ensures Worked(s, t, Listed(Some(e)), lands)
  {
    LandingOne(e, lands);
  }

  lemma LandingMore(handled: seq<Event>, next: Option<Event>, lands: Event -> bool)
    ensures Landing(handled + Listed(next), lands) == Landing(handled, lands) + Landing(Listed(next), lands)
  {
    if next.Some? {
      assert (handled + [next.value])[..|handled|] == handled;
      LandingOne(next.value, lands);
    } else {
      assert handled + [] == handled;
    }
  }

  lemma Associative(a: seq<Event>, b: seq<Event>, c: seq<Event>)
    ensures (a + b) + c == a + (b + c)
  {
  }

  lemma WorkedMore(s: State, t: State, u: State, handled: seq<Event>, next: Option<Event>, lands: Event -> bool)
    requires Worked(s, t, handled, lands) && Worked(t, u, Listed(next), lands)
    ensures Worked(s, u, handled + Listed(next), lands)
  {
    LandingMore(handled, next, lands);
    Associative(s.attempts, handled, Listed(next));
    Associative(s.commits, Landing(handled, lands), Landing(Listed(next), lands));
  }

  ghost predicate SameLog(s: State, t: State) {
    t.attempts == s.attempts && t.commits == s.commits
  }

  ghost predicate SameCourse(s: State, t: State) {
    && t.queue == s.queue && t.pointer == s.pointer && t.restarts == s.restarts
    && t.course == s.course && t.last == s.last
  }

  /** How much of the course lies ahead of the pointer. */
  function Left(s: State): int {
    |s.course| - s.Pointed()
  }

  /** A pop that does not end the loop takes an event off what is ahead. */
  lemma PopShortens(pass: Pass, actions: seq<Action>, s: State, t: State)
    requires pass.Valid() && IsRun(pass, actions, s) && s.phase.Popping? && t == Do(pass, s, Pop)
    ensures t.phase.Handling? ==> 0 <= Left(t) < Left(s)
    ensures t.course == s.course && t.last == s.last
  {
    if s.queue != [] {
      PopAdvances(pass, actions, s);
    }
  }

  /** How a pass of the loop ends: another one follows, the loop is done, or the strategy fails. */
  datatype Outcome = More | Ended | Died

  class Processor {
    const store: Store
    const events: Queue<Event>
    const lastEventPointer: Position
    var currentPointer: Position

    ghost predicate InSync()
      reads this, store, events, events.buffer
    {
      && store.Valid() && events.Valid()
      && store.state.queue == events.Contents()
      && store.state.pointer == currentPointer && store.state.last == lastEventPointer
    }

    constructor (store: Store, last: Position)
      requires store.Valid() && store.state.phase.Idle? && !(store.pass.sources <= store.marked)
      requires store.state.last.UpTo(last)
      modifies store`state, store`actions
      ensures this.store == store && lastEventPointer == last && fresh(events) && fresh(events.buffer)
      ensures InSync() && store.state.phase.Looping? && store.state.restarts == old(store.state.restarts)
      ensures currentPointer == (if store.checkpoint.Some? then store.checkpoint.value else ORIGIN)
      ensures events.Contents() == []
      ensures SameLog(old(store.state), store.state)
    {
      this.store, lastEventPointer := store, last;
      events := new Queue<Event>();
      currentPointer := match store.checkpoint { case Some(p) => p case None => ORIGIN };
      new;
      store.Note(Begin(last));
    }

    /** What a fetch returns: the next events of the sources not marked yet. */
    ghost function Fetched(): seq<Event>
      reads this, store
    {
      var pass := store.pass;
      GetEvents(pass.log, pass.sources - store.state.marked, currentPointer, lastEventPointer, pass.limit)
    }

    method FetchEvents()
      requires InSync() && store.state.phase.Looping? && events.Contents() == []
      modifies store`state, store`actions, events, events.buffer
      ensures InSync() && (events.buffer == old(events.buffer) || fresh(events.buffer))
      ensures store.state == old(store.state).(queue := Fetched(), phase := Popping)
    {
      var fetched := GetEvents(store.pass.log, store.pass.sources - store.marked, currentPointer,
                               lastEventPointer, store.pass.limit);
      if |fetched| > 0 {
        events.Push(fetched);
      }
      store.Note(Refill);
    }

    /** Fetches into an empty queue; `false` if the fetch threw. */
    method EnqueueEventsIfEmpty(fails: bool) returns (ok: bool)
      requires InSync() && store.state.phase.Looping?
      modifies store`state, store`actions, events, events.buffer
      ensures InSync() && (events.buffer == old(events.buffer) || fresh(events.buffer))
      ensures store.state.restarts == old(store.state.restarts) && SameLog(old(store.state), store.state)
      ensures store.state.phase == if ok then Popping else Saving
      ensures store.state.course == old(store.state.course)
      ensures !ok <==> old(events.Contents()) == [] && fails
      ensures store.state.queue == if ok && old(store.state.queue) == [] then Fetched() else old(store.state.queue)
    {
      var empty := events.IsEmpty();
      if empty && fails {
        store.Note(RefillThrows);
        return false;
      }
      if empty {
        FetchEvents();
      } else {
        store.Note(Proceed);
      }
      ok := true;
    }

    /** Pops the next event and advances the pointer onto it; None when the loop is to end. */
    method Advance() returns (next: Option<Event>)
      requires InSync() && store.state.phase.Popping?
      modifies `currentPointer, store`state, store`actions, events, events.buffer
      ensures InSync() && (events.buffer == old(events.buffer) || fresh(events.buffer))
      ensures store.state.restarts == old(store.state.restarts) && SameLog(old(store.state), store.state)
      ensures store.state.phase == if next.Some? then Handling(next.value) else Finishing
      ensures var was := old(store.state.queue);
              if was == [] then next == None && currentPointer == old(currentPointer)
              else
                && currentPointer == was[0].pos && store.state.queue == was[1..]
                && next == if HasReached(was[0].pos, lastEventPointer) then None else Some(was[0])
      ensures next.Some? ==> 0 <= Left(store.state) < Left(old(store.state))
    {
      PopShortens(store.pass, store.actions, store.state, Do(store.pass, store.state, Pop));
      next := events.Pop();
      store.Note(Pop);
      if next.Some? {
        currentPointer := next.value.pos;
        if HasReached(currentPointer, lastEventPointer) {
          next := None;
        }
      }
    }

    /** What a pass does before its checkpoint: it fetches if there is nothing queued, and handles the
        next event, unless there is none or it is at the last position. */
    method HandleNext(fails: bool, lands: Event -> bool) returns (ended: bool, ghost handled: Option<Event>)
      requires InSync() && store.state.phase.Looping?
      modifies this, store, events, events.buffer
      ensures InSync() && (events.buffer == old(events.buffer) || fresh(events.buffer))
      ensures store.state.restarts == old(store.state.restarts)
      ensures store.state.phase == if ended then Finishing else Saving
      ensures store.checkpoint == old(store.checkpoint)
      ensures Worked(old(store.state), store.state, Listed(handled), lands)
      ensures !ended ==> if fails && old(events.Contents()) == [] then Left(store.state) == Left(old(store.state))
                         else 0 <= Left(store.state) < Left(old(store.state))
    {
      handled := None;
      var ok := EnqueueEventsIfEmpty(fails);
      if !ok {
        return false, None;
      }
      var event := Advance();
      if event.None? {
        return true, None;
      }
      store.ProcessEvent(event.value, lands(event.value));
      WorkedOnce(old(store.state), store.state, event.value, lands);
      return false, event;
    }

    /** One pass of the loop. One that neither ends the loop nor meets a failing fetch takes an event off
        what is ahead and handles it; a checkpoint that cannot be written ends the strategy short. */
    method Turn(fails: bool, lands: Event -> bool, save: Reply) returns (next: Outcome, ghost handled: Option<Event>)
      requires InSync() && store.state.phase.Looping?
      modifies this, store, events, events.buffer
      ensures store.Valid() && (next != Died ==> InSync())
      ensures events.buffer == old(events.buffer) || fresh(events.buffer)
      ensures next == Died ==> !save.Written?
      ensures store.checkpoint == if next != Ended && (save.Written? || save.reached) then Some(currentPointer)
                                  else old(store.checkpoint)
      ensures store.state.restarts == old(store.state.restarts) + if next == Died then 1 else 0
      ensures store.state.phase == match next { case More => Looping case Ended => Finishing case Died => Idle }
      ensures next == More ==>
                if fails && old(events.Contents()) == [] then Left(store.state) == Left(old(store.state))
                else 0 <= Left(store.state) < Left(old(store.state))
      ensures Worked(old(store.state), store.state, Listed(handled), lands)
    {
      var ended;
      ended, handled := HandleNext(fails, lands);
      if ended {
        return Ended, handled;
      }
      var saved := store.UpsertCheckpoint(currentPointer, save);
      next := if saved then More else Died;
    }

    /** The loop and what follows it. `fetchFails` says which fetches throw: finitely many. An event's
        failure is logged and passed over like its success, so the loop ends whatever `lands` says; a
        write of the strategy's own that throws cuts it short. */
    method Run(fetchFails: seq<bool>, lands: Event -> bool, saves: nat -> Reply,
               marks: set<Address>, marksThrow: bool, deletion: Reply)
        returns (completed: bool, ghost handled: seq<Event>)
      requires InSync() && store.state.phase.Looping?
      requires marks <= store.pass.sources && (!marksThrow ==> marks == store.pass.sources)
      modifies this, store, events, events.buffer
      ensures store.Valid() && Worked(old(store.state), store.state, handled, lands)
      ensures (forall i :: saves(i).Written?) && !marksThrow && deletion.Written? ==> completed
      ensures completed ==>
                && store.state.phase.Complete? && store.state.restarts == old(store.state.restarts)
                && store.pass.sources <= store.marked && store.checkpoint == None
      ensures !completed ==> store.state.phase.Idle? && store.state.restarts == old(store.state.restarts) + 1
      ensures completed && store.state.restarts == 0 ==>
                store.state.attempts == Due(store.pass.log, map a | a in store.pass.sources :: lastEventPointer)
    {
      handled := [];
      var fetches, passes := 0, 0;
      var next := More;
      while next == More
        invariant store.Valid() && (next != Died ==> InSync())
        invariant next == Died ==> !(forall i :: saves(i).Written?)
        invariant store.state.phase == match next { case More => Looping case Ended => Finishing case Died => Idle }
        invariant store.state.restarts == old(store.state.restarts) + if next == Died then 1 else 0
        invariant events.buffer == old(events.buffer) || fresh(events.buffer)
        invariant fetches <= |fetchFails|
        invariant Worked(old(store.state), store.state, handled, lands)
        decreases next == More, |fetchFails| - fetches, Left(store.state)
      {
        var empty := events.IsEmpty();
        var fails := empty && fetches < |fetchFails| && fetchFails[fetches];
        if empty && fetches < |fetchFails| {
          fetches := fetches + 1;
        }
        ghost var before, event := store.state, None;
        next, event := Turn(fails, lands, saves(passes));
        passes := passes + 1;
        WorkedMore(old(store.state), before, store.state, handled, event, lands);
        handled := handled + Listed(event);
      }
      if next == Died {
        return false, handled;
      }
      completed := store.MarkAndDelete(marks, marksThrow, deletion);
      if completed && store.state.restarts == 0 {
        ExactlyOnceWithoutRestarts(store.pass, store.actions, store.state);
      }
    }
  }
}
