/** Positions of events on a chain and the indexer's append-only log of them. */
module EventLog {
  import opened Domain

  datatype Position = Position(block: nat, logIndex: nat) {
    predicate Before(that: Position) {
      block < that.block || (block == that.block && logIndex < that.logIndex)
    }

    predicate UpTo(that: Position) {
      this == that || Before(that)
    }
  }

  const ORIGIN := Position(0, 0)

  datatype Event = Event(pos: Position, srcAddress: Address, payload: Payload)

  ghost predicate Sorted(log: seq<Event>) {
    forall i, j :: 0 <= i < j < |log| ==> log[i].pos.Before(log[j].pos)
  }

  /** `part` is the contiguous stretch of the log that starts at index `start`. */
  ghost predicate Stretch(log: seq<Event>, start: int, part: seq<Event>) {
    && 0 <= start <= start + |part| <= |log|
    && forall i :: 0 <= i < |part| ==> part[i] == log[start + i]
  }

  /** The events strictly after `from`: the `where` clause of the indexer query. */
  function After(log: seq<Event>, from: Position): (r: seq<Event>) {
    if log == [] then []
    else (if from.Before(log[0].pos) then [log[0]] else []) + After(log[1..], from)
  }

  function Limit(events: seq<Event>, limit: nat): (r: seq<Event>)
    ensures r <= events && |r| <= limit && (|r| < limit ==> r == events)
  {
    if |events| <= limit then events else events[..limit]
  }

  /** The first `k` events are the ones at or before `p` (when the log is sorted). */
  ghost predicate IsReach(log: seq<Event>, p: Position, k: nat) {
    && k <= |log|
    && (k > 0 ==> log[k - 1].pos.UpTo(p))
    && (k < |log| ==> p.Before(log[k].pos))
  }

  /** How many leading events of the log are at or before `p`. */
  function Reach(log: seq<Event>, p: Position): (k: nat)
    ensures IsReach(log, p, k)
  {
    if log == [] || p.Before(log[0].pos) then 0 else 1 + Reach(log[1..], p)
  }

  lemma ReachUnique(log: seq<Event>, p: Position, k: nat)
    requires Sorted(log) && IsReach(log, p, k)
    ensures Reach(log, p) == k
  {
  }

  /** On a sorted log the filtered query is a suffix. */
  lemma {:induction false} AfterIsSuffix(log: seq<Event>, from: Position, k: nat)
    requires Sorted(log) && IsReach(log, from, k)
    ensures After(log, from) == log[k..]
  {
    if log != [] {
      if k == 0 {
        assert 1 < |log| ==> log[0].pos.Before(log[1].pos);
        AfterIsSuffix(log[1..], from, 0);
        assert log == [log[0]] + log[1..];
      } else {
        assert log[0].pos.UpTo(log[k - 1].pos);
        AfterIsSuffix(log[1..], from, k - 1);
      }
    }
  }

  lemma LimitIsStretch(log: seq<Event>, k: nat, limit: nat)
    requires k <= |log|
    ensures Stretch(log, k, Limit(log[k..], limit))
  {
  }

  ghost predicate Extends(log: seq<Event>, all: seq<Event>) {
    |log| <= |all| && forall i :: 0 <= i < |log| ==> log[i] == all[i]
  }

  /** Appending later events never moves the point a position reaches, unless it had run off the end. */
  lemma GrowthKeepsReach(log: seq<Event>, all: seq<Event>, p: Position, k: nat)
    requires Extends(log, all) && Sorted(all) && IsReach(log, p, k)
    requires k < |log| || (log != [] && log[|log| - 1].pos == p)
    ensures IsReach(all, p, k)
  {
    if k == |log| && k < |all| {
      assert all[k - 1].pos.Before(all[k].pos);
    }
  }
}
