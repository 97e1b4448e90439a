/** The part of the pipeline the gap theorems are about: the log, the cursor, the event in hand, the
    queue, and the events that have been given a verdict, in the order they were given it. */
module Cursor {
  import opened Domain
  import opened EventLog

  /** The position the next fetch asks for. */
  function FetchFrom(cursor: Option<Position>): Position {
    if cursor.Some? then cursor.value else ORIGIN
  }

  /** The cursor is already on the event in hand. */
  predicate IsCovered(cursor: Option<Position>, hand: Option<Event>) {
    hand.Some? && cursor == Some(hand.value.pos)
  }

  datatype View = View(
    log: seq<Event>, cursor: Option<Position>, queue: seq<Event>,
    hand: Option<Event>, settled: bool, judged: seq<Event>)
  {
    function From(): Position {
      FetchFrom(cursor)
    }

    predicate Covered() {
      IsCovered(cursor, hand)
    }

    /** The cursor is on an event that has no verdict yet. */
    predicate Exposed() {
      Covered() && !settled
    }

    /** With `n` events passed by the cursor: the first log index not yet handed to this process. */
    function Next(n: nat): nat {
      n + if hand.Some? && !Covered() then 1 else 0
    }

    /** With `n` events passed by the cursor: the length of the log prefix that has verdicts. */
    function Judged(n: nat): int {
      n - if Exposed() then 1 else 0
    }

    /** The event in hand sits right after the cursor, or exactly under it. */
    ghost predicate HandInPlace(n: nat) {
      hand.Some? ==>
        if Covered() then 0 < n <= |log| && log[n - 1] == hand.value
        else n < |log| && log[n] == hand.value
    }

    /** The queue is the contiguous stretch of the log that follows. */
    ghost predicate QueueInPlace(n: nat) {
      Stretch(log, Next(n), queue)
    }

    /** The verdicts cover the log from index `b` to the cursor: each event once, in order, none left out. */
    ghost predicate VerdictsTile(b: nat, n: nat) {
      Judged(n) == b + |judged| && Stretch(log, b, judged)
    }

    /** The cursor has passed `n` log events, `b` of which no fetch could return (see `Unfetchable`). */
    ghost predicate TiledAt(b: nat, n: nat) {
      && IsReach(log, ORIGIN, b)
      && IsReach(log, From(), n)
      && (cursor.Some? ==> n > b && log[n - 1].pos == cursor.value)
      && (settled ==> Covered())
      && HandInPlace(n)
      && QueueInPlace(n)
      && VerdictsTile(b, n)
    }

    ghost predicate Tiled() {
      exists b: nat, n: nat :: TiledAt(b, n)
    }
  }

  const FRESH := View([], None, [], None, false, [])

  // The ways the view changes.

  function Grown(v: View, all: seq<Event>): View {
    v.(log := all)
  }

  function Filled(v: View, limit: nat): View {
    v.(queue := Limit(After(v.log, v.From()), limit))
  }

  function Taken(v: View): View
    requires v.queue != []
  {
    v.(hand := Some(v.queue[0]), settled := false, queue := v.queue[1..])
  }

  function Moved(v: View): View
    requires v.hand.Some?
  {
    v.(cursor := Some(v.hand.value.pos))
  }

  function Judge(v: View): View
    requires v.hand.Some?
  {
    Moved(v).(settled := true, judged := v.judged + [v.hand.value])
  }

  function Released(v: View): View {
    v.(hand := None, settled := false)
  }

  function Emptied(v: View): View {
    Released(v).(queue := [])
  }

  lemma FreshTiled()
    ensures FRESH.Tiled()
  {
    assert FRESH.TiledAt(0, 0);
  }

  lemma BornTiled(v: View, all: seq<Event>)
    requires v.Tiled() && v.log == []
    ensures Grown(v, all).Tiled()
  {
    var k := Reach(all, ORIGIN);
    assert Grown(v, all).TiledAt(k, k);
  }

  lemma GrownTiledAt(v: View, all: seq<Event>, b: nat, n: nat)
    requires v.TiledAt(b, n) && Extends(v.log, all)
    requires IsReach(all, ORIGIN, b) && IsReach(all, v.From(), n)
    ensures Grown(v, all).TiledAt(b, n)
  {
  }

  lemma GrownTiled(v: View, all: seq<Event>)
    requires v.Tiled() && Extends(v.log, all) && Sorted(all)
    ensures Grown(v, all).Tiled()
  {
    if v.log == [] {
      BornTiled(v, all);
    } else {
      var b: nat, n: nat :| v.TiledAt(b, n);
      GrowthKeepsReach(v.log, all, ORIGIN, b);
      GrowthKeepsReach(v.log, all, v.From(), n);
      GrownTiledAt(v, all, b, n);
    }
  }

  /** A refetch on an empty queue neither repeats nor skips an event. */
  lemma FilledTiled(v: View, limit: nat)
    requires v.Tiled() && Sorted(v.log) && v.hand.None?
    ensures Filled(v, limit).Tiled()
  {
    var b: nat, n: nat :| v.TiledAt(b, n);
    AfterIsSuffix(v.log, v.From(), n);
    LimitIsStretch(v.log, n, limit);
    assert Filled(v, limit).TiledAt(b, n);
  }

  lemma TakenTiled(v: View)
    requires v.Tiled() && v.hand.None? && v.queue != []
    ensures Taken(v).Tiled() && !Taken(v).Covered()
  {
    var b: nat, n: nat :| v.TiledAt(b, n);
    assert v.queue[0] == v.log[n];
    assert Taken(v).TiledAt(b, n);
  }

  /** Moving the cursor onto the event in hand passes that event and no other. */
  lemma MovedTiled(v: View)
    requires v.Tiled() && Sorted(v.log) && v.hand.Some?
    ensures Moved(v).Tiled()
  {
    var b: nat, n: nat :| v.TiledAt(b, n);
    assert IsReach(v.log, v.hand.value.pos, v.Next(n));
    assert Moved(v).TiledAt(b, v.Next(n));
  }

  /** Giving the event in hand its verdict extends the judged stretch of the log by that event. */
  lemma JudgeTiled(v: View)
    requires v.Tiled() && Sorted(v.log) && v.hand.Some? && !v.settled
    ensures Judge(v).Tiled()
  {
    var b: nat, n: nat :| v.TiledAt(b, n);
    assert IsReach(v.log, v.hand.value.pos, v.Next(n));
    assert Judge(v).TiledAt(b, v.Next(n));
  }

  lemma ReleasedTiled(v: View)
    requires v.Tiled() && (v.hand.Some? ==> v.settled)
    ensures Released(v).Tiled()
  {
    var b: nat, n: nat :| v.TiledAt(b, n);
    assert Released(v).TiledAt(b, n);
  }

  lemma EmptiedTiled(v: View)
    requires v.Tiled() && !v.Exposed()
    ensures Emptied(v).Tiled()
  {
    var b: nat, n: nat :| v.TiledAt(b, n);
    assert Emptied(v).TiledAt(b, n);
  }
}
