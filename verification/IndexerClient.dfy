/** The two queries the indexer client sends, and how it trims a block it received only in part. */
module IndexerClient {
  import opened Domain
  import opened EventLog

  /** How many of the events at indices `lo` to `hi` are in the block. */
  function CountInBlock(events: seq<Event>, lo: nat, hi: nat, block: nat): (n: nat)
    requires lo <= hi <= |events|
    ensures n <= hi - lo
  {
    if lo == hi then 0
    else CountInBlock(events, lo, hi - 1, block) + if events[hi - 1].pos.block == block then 1 else 0
  }

  function Total(events: seq<Event>, block: nat): nat {
    CountInBlock(events, 0, |events|, block)
  }

  function BelowBlock(events: seq<Event>, block: nat): seq<Event> {
    if events == [] then []
    else (if events[0].pos.block < block then [events[0]] else []) + BelowBlock(events[1..], block)
  }

  /** `getEventsAfterBlockNumberAndLogIndex`. The block count comes from a second query, by which time
      the indexer's log may have grown from `log` to `later`. */
  function GetEventsAfter(
    log: seq<Event>, later: seq<Event>, from: Position, limit: nat, allowPartialLastBlock: bool): seq<Event>
  {
    var events := Limit(After(log, from), limit);
    if allowPartialLastBlock || events == [] then events else Trimmed(later, events)
  }

  /** Drops the last block if the indexer has more of it than was fetched. */
  function Trimmed(later: seq<Event>, events: seq<Event>): seq<Event>
    requires events != []
  {
    var lastBlock := events[|events| - 1].pos.block;
    if Total(later, lastBlock) > Total(events, lastBlock) then BelowBlock(events, lastBlock) else events
  }

  lemma {:induction false} CountSplits(events: seq<Event>, lo: nat, mid: nat, hi: nat, block: nat)
    requires lo <= mid <= hi <= |events|
    ensures CountInBlock(events, lo, hi, block)
              == CountInBlock(events, lo, mid, block) + CountInBlock(events, mid, hi, block)
  {
    if mid < hi {
      CountSplits(events, lo, mid, hi - 1, block);
    }
  }

  lemma {:induction false} CountOfStretch(log: seq<Event>, k: nat, events: seq<Event>, n: nat, block: nat)
    requires Stretch(log, k, events) && n <= |events|
    ensures CountInBlock(log, k, k + n, block) == CountInBlock(events, 0, n, block)
  {
    if n > 0 {
      CountOfStretch(log, k, events, n - 1, block);
    }
  }

  /** On a sorted batch the events below a block are a prefix, the longest with that property. */
  lemma {:induction false} BelowBlockIsPrefix(events: seq<Event>, block: nat)
    requires Sorted(events)
    ensures var r := BelowBlock(events, block);
            && Stretch(events, 0, r)
            && (|r| < |events| ==> events[|r|].pos.block >= block)
            && (|r| > 0 ==> events[|r| - 1].pos.block < block)
  {
    if events != [] {
      var rest, r := events[1..], BelowBlock(events[1..], block);
      BelowBlockIsPrefix(rest, block);
      assert forall i :: 0 <= i < |rest| ==> rest[i] == events[i + 1];
    }
  }

  lemma TrimmedIsPrefix(later: seq<Event>, events: seq<Event>)
    requires Sorted(events) && events != []
    ensures Stretch(events, 0, Trimmed(later, events))
  {
    BelowBlockIsPrefix(events, events[|events| - 1].pos.block);
  }

  /** Every fetch returns the first so many events of the log after the cursor. */
  lemma FetchIsPrefix(log: seq<Event>, later: seq<Event>, from: Position, limit: nat, allowPartialLastBlock: bool)
    requires Sorted(log)
    ensures Stretch(log, Reach(log, from), GetEventsAfter(log, later, from, limit, allowPartialLastBlock))
  {
    var events := Fetched(log, from, limit);
    if events != [] {
      StretchSorted(log, Reach(log, from), events);
      TrimmedIsPrefix(later, events);
      StretchOfStretch(log, Reach(log, from), events, Trimmed(later, events));
    }
  }

  lemma StretchOfStretch(log: seq<Event>, k: nat, events: seq<Event>, r: seq<Event>)
    requires Stretch(log, k, events) && Stretch(events, 0, r)
    ensures Stretch(log, k, r)
  {
  }

  lemma StretchSorted(log: seq<Event>, k: nat, events: seq<Event>)
    requires Sorted(log) && Stretch(log, k, events)
    ensures Sorted(events)
  {
  }

  lemma StretchExtends(log: seq<Event>, later: seq<Event>, k: nat, events: seq<Event>)
    requires Extends(log, later) && Stretch(log, k, events)
    ensures Stretch(later, k, events)
  {
  }

  /** What the first query returned, before trimming. */
  lemma Fetched(log: seq<Event>, from: Position, limit: nat) returns (events: seq<Event>)
    requires Sorted(log)
    ensures events == Limit(After(log, from), limit)
    ensures Stretch(log, Reach(log, from), events)
  {
    var k := Reach(log, from);
    events := Limit(After(log, from), limit);
    AfterIsSuffix(log, from, k);
    LimitIsStretch(log, k, limit);
  }

  /** What the trimming keeps: everything, unless the indexer has more of the last block than was fetched;
      then everything below that block. */
  lemma TrimmedExactly(later: seq<Event>, events: seq<Event>)
    requires events != []
    ensures var last := events[|events| - 1].pos.block;
            if Total(later, last) > Total(events, last)
            then forall e :: e in Trimmed(later, events) <==> e in events && e.pos.block < last
            else Trimmed(later, events) == events
  {
    BelowBlockHolds(events, events[|events| - 1].pos.block);
  }

  lemma {:induction false} BelowBlockHolds(events: seq<Event>, block: nat)
    ensures forall e :: e in BelowBlock(events, block) <==> e in events && e.pos.block < block
  {
    if events != [] {
      BelowBlockHolds(events[1..], block);
      assert events == [events[0]] + events[1..];
    }
  }

  /** If there are any such events, from index `k` of the log on, the next one is of a later block. */
  ghost predicate EndsBlock(later: seq<Event>, k: nat, r: seq<Event>) {
    r != [] && k + |r| < |later| ==> later[k + |r|].pos.block > r[|r| - 1].pos.block
  }

  /** With partial last blocks disallowed, a non-empty result ends at a block boundary: the next event of
      the log, as the second query saw it, belongs to a later block. */
  lemma EndsAtBlockBoundary(log: seq<Event>, later: seq<Event>, from: Position, limit: nat)
    requires Sorted(log) && Sorted(later) && Extends(log, later)
    ensures EndsBlock(later, Reach(log, from), GetEventsAfter(log, later, from, limit, false))
  {
    var k := Reach(log, from);
    var events := Fetched(log, from, limit);
    if events != [] {
      StretchExtends(log, later, k, events);
      StretchSorted(later, k, events);
      WholeBlockOrTrimmed(later, k, events);
      ResultIs(log, later, from, limit, events);
    }
  }

  lemma ResultIs(log: seq<Event>, later: seq<Event>, from: Position, limit: nat, events: seq<Event>)
    requires events == Limit(After(log, from), limit) && events != []
    ensures GetEventsAfter(log, later, from, limit, false) == Trimmed(later, events)
  {
  }

  lemma WholeBlockOrTrimmed(later: seq<Event>, k: nat, events: seq<Event>)
    requires Sorted(later) && Sorted(events) && Stretch(later, k, events) && events != []
    ensures EndsBlock(later, k, Trimmed(later, events))
  {
    var n, b := |events|, events[|events| - 1].pos.block;
    if Total(later, b) > Total(events, b) {
      BelowBlockIsPrefix(events, b);
    } else if k + n < |later| {
      assert later[k + n - 1].pos.Before(later[k + n].pos);
      NothingLeftInBlock(later, k, events, b);
    }
  }

  lemma NothingLeftInBlock(later: seq<Event>, k: nat, events: seq<Event>, b: nat)
    requires Stretch(later, k, events) && Total(later, b) <= Total(events, b) && k + |events| < |later|
    ensures later[k + |events|].pos.block != b
  {
    var n := |events|;
    CountOfStretch(later, k, events, n, b);
    CountSplits(later, 0, k, k + n, b);
    CountSplits(later, 0, k + n, |later|, b);
    CountSplits(later, k + n, k + n + 1, |later|, b);
    assert CountInBlock(later, k + n, k + n + 1, b) == 0;
  }

  /** Where progress can stop: the trimmed fetch returns nothing although there are events after the
      cursor exactly when everything it fetched is one block, which has more events than were fetched. */
  lemma StallsIff(log: seq<Event>, later: seq<Event>, from: Position, limit: nat)
    requires Sorted(log) && limit > 0
    ensures var events := Limit(After(log, from), limit);
            events != [] ==>
              (GetEventsAfter(log, later, from, limit, false) == [] <==>
               var b := events[|events| - 1].pos.block;
               events[0].pos.block == b && Total(later, b) > Total(events, b))
  {
    var events := Fetched(log, from, limit);
    if events != [] {
      StretchSorted(log, Reach(log, from), events);
      BelowBlockIsPrefix(events, events[|events| - 1].pos.block);
      assert |events| > 1 ==> events[0].pos.Before(events[|events| - 1].pos);
    }
  }

  // ---------------------------------------------------------------- the query by source and range

  /** The events of the given sources strictly after `from` and up to and including `to`. */
  function Mine(log: seq<Event>, sources: set<Address>, from: Position, to: Position): (r: seq<Event>)
    ensures forall e :: e in r <==> e in log && e.srcAddress in sources && from.Before(e.pos) && e.pos.UpTo(to)
  {
    if log == [] then []
    else
      var e := log[0];
      assert log == [e] + log[1..];
      (if e.srcAddress in sources && from.Before(e.pos) && e.pos.UpTo(to) then [e] else [])
      + Mine(log[1..], sources, from, to)
  }

  /** What the query selects: an empty list of sources is no filter at all. */
  function Selected(log: seq<Event>, sources: set<Address>, from: Position, to: Position): (r: seq<Event>)
    ensures forall e :: e in r <==>
              e in log && (sources == {} || e.srcAddress in sources) && from.Before(e.pos) && e.pos.UpTo(to)
  {
    if sources == {} then Mine(log, set e | e in log :: e.srcAddress, from, to) else Mine(log, sources, from, to)
  }

  /** `getEvents` with both bounds. */
  function GetEvents(log: seq<Event>, sources: set<Address>, from: Position, to: Position, limit: nat): seq<Event> {
    Limit(Selected(log, sources, from, to), limit)
  }

  lemma {:induction false} MineSorted(log: seq<Event>, sources: set<Address>, from: Position, to: Position)
    requires Sorted(log)
    ensures Sorted(Mine(log, sources, from, to))
  {
    if log != [] {
      MineSorted(log[1..], sources, from, to);
      forall e | e in Mine(log[1..], sources, from, to) ensures log[0].pos.Before(e.pos) {
        var i :| 0 <= i < |log[1..]| && log[1..][i] == e;
        assert log[i + 1] == e;
      }
    }
  }

  /** Asking again from a later position returns what is left of the first answer. */
  lemma {:induction false} MineAfter(log: seq<Event>, sources: set<Address>, from: Position, to: Position)
    ensures Mine(log, sources, from, to) == After(Mine(log, sources, ORIGIN, to), from)
  {
    if log != [] {
      MineAfter(log[1..], sources, from, to);
      var e, rest := log[0], Mine(log[1..], sources, ORIGIN, to);
      assert After([e] + rest, from) == (if from.Before(e.pos) then [e] else []) + After(rest, from) by {
        assert ([e] + rest)[1..] == rest;
      }
      assert [] + rest == rest && [] + After(rest, from) == After(rest, from);
      assert from.Before(e.pos) ==> ORIGIN.Before(e.pos);
    }
  }

  lemma {:induction false} MineNone(log: seq<Event>, sources: set<Address>, from: Position, to: Position)
    requires sources == {} || forall e :: e in log ==> !e.pos.UpTo(to)
    ensures Mine(log, sources, from, to) == []
  {
    if log != [] {
      MineNone(log[1..], sources, from, to);
    }
  }

  /** Events indexed later, beyond `to`, do not change the answer. */
  lemma {:induction false} MineStable(log: seq<Event>, more: seq<Event>, sources: set<Address>, from: Position,
                                      to: Position)
    requires forall e :: e in more ==> !e.pos.UpTo(to)
    ensures Mine(log + more, sources, from, to) == Mine(log, sources, from, to)
  {
    if log == [] {
      assert log + more == more;
      MineNone(more, sources, from, to);
    } else {
      MineStable(log[1..], more, sources, from, to);
      assert (log + more)[1..] == log[1..] + more;
    }
  }
}
