/** The strategy table of a chain, the write-through cache in front of it, and how the retroactive
    processor finds strategies to process and marks them. */
module StrategyRegistry {
  import opened Domain

  datatype Strategy = Strategy(id: nat, handled: bool)

  type Rows = map<Address, Strategy>

  // ---------------------------------------------------------------- specification

  /** The unhandled addresses of the strategies that have a handler by now. */
  function Todo(rows: Rows, handlers: set<nat>): set<Address> {
    set a | a in rows && !rows[a].handled && rows[a].id in handlers
  }

  function AddressesOf(rows: Rows, handlers: set<nat>, id: nat): set<Address> {
    set a | a in Todo(rows, handlers) && rows[a].id == id
  }

  function Marked(rows: Rows, addresses: set<Address>): (r: Rows)
    ensures r.Keys == rows.Keys
  {
    map a | a in rows :: if a in addresses then rows[a].(handled := true) else rows[a]
  }

  /** `groups` lists the addresses to do by strategy, and lists no strategy without any. */
  ghost predicate IsGrouping(rows: Rows, handlers: set<nat>, groups: map<nat, set<Address>>) {
    && (forall id :: id in groups <==> AddressesOf(rows, handlers, id) != {})
    && (forall id :: id in groups ==> groups[id] == AddressesOf(rows, handlers, id))
  }

  lemma MarkedTwice(rows: Rows, a: set<Address>, b: set<Address>)
    ensures Marked(Marked(rows, a), b) == Marked(rows, a + b)
  {
  }

  lemma MarkedMore(rows: Rows, some: set<Address>, a: Address)
    requires a in rows
    ensures Marked(rows, some)[a := Strategy(rows[a].id, true)] == Marked(rows, some + {a})
  {
  }

  // ---------------------------------------------------------------- what saves do

  /** The cached row has the same `handled`, so there is nothing to write. */
  predicate Skips(cache: Rows, address: Address, handled: bool) {
    address in cache && cache[address].handled == handled
  }

  /** The write is sent and takes effect. */
  predicate Reaches(cache: Rows, address: Address, handled: bool, reply: Reply) {
    !Skips(cache, address, handled) && (reply.Written? || reply.reached)
  }

  /** Which cached rows are stale after a save: a write that threw after taking effect leaves one behind,
      and only a later write of the same address that succeeds makes up for it. */
  ghost function StaleAfter(cache: Rows, stale: set<Address>, address: Address, handled: bool,
                            reply: Reply): set<Address> {
    if Skips(cache, address, handled) || reply == Threw(false) then stale
    else if reply.Written? then stale - {address}
    else if address in cache then stale + {address}
    else stale
  }

  ghost predicate SameEntry(now: Rows, was: Rows, a: Address) {
    (a in now <==> a in was) && (a in now ==> now[a] == was[a])
  }

  /** How a strategy's pass ends: it stops short, or it gets to marking its addresses. */
  datatype Ending = Stopped | Marks(replies: Address -> Reply)

  function Reached(cache: Rows, addresses: set<Address>, replies: Address -> Reply): set<Address> {
    set a | a in addresses && Reaches(cache, a, true, replies(a))
  }

  lemma ReachedMore(now: Rows, was: Rows, some: set<Address>, a: Address, replies: Address -> Reply)
    requires SameEntry(now, was, a)
    ensures Reached(was, some + {a}, replies)
         == Reached(was, some, replies) + if Reaches(now, a, true, replies(a)) then {a} else {}
    ensures AllSaved(was, some + {a}, replies) <==>
              AllSaved(was, some, replies) && (Skips(now, a, true) || replies(a).Written?)
  {
  }

  ghost predicate AllSaved(cache: Rows, addresses: set<Address>, replies: Address -> Reply) {
    forall a :: a in addresses ==> Skips(cache, a, true) || replies(a).Written?
  }

  function MarksOf(cache: Rows, addresses: set<Address>, ending: Ending): set<Address> {
    match ending
    case Stopped => {}
    case Marks(replies) => Reached(cache, addresses, replies)
  }

  predicate Settles(rows: Rows, cache: Rows, endings: nat -> Ending, a: Address)
    requires a in rows
  {
    var ending := endings(rows[a].id);
    ending.Marks? && Reaches(cache, a, true, ending.replies(a))
  }

  /** What has been marked when the strategies in `left` are still to come. */
  function Settled(rows: Rows, cache: Rows, handlers: set<nat>, endings: nat -> Ending, left: set<nat>): set<Address> {
    set a | a in Todo(rows, handlers) && rows[a].id !in left && Settles(rows, cache, endings, a)
  }

  lemma NoneSettled(rows: Rows, cache: Rows, handlers: set<nat>, groups: map<nat, set<Address>>, endings: nat -> Ending)
    requires IsGrouping(rows, handlers, groups)
    ensures Settled(rows, cache, handlers, endings, groups.Keys) == {} && Marked(rows, {}) == rows
  {
    assert forall a :: a in Todo(rows, handlers) ==> a in AddressesOf(rows, handlers, rows[a].id);
  }

  lemma OneMoreSettled(rows: Rows, was: Rows, cache: Rows, handlers: set<nat>, endings: nat -> Ending,
                       left: set<nat>, id: nat)
    requires id in left
    requires forall a :: a in Todo(rows, handlers) && rows[a].id in left ==> SameEntry(cache, was, a)
    ensures Settled(rows, was, handlers, endings, left - {id})
         == Settled(rows, was, handlers, endings, left) + MarksOf(cache, AddressesOf(rows, handlers, id), endings(id))
  {
  }

  lemma AllSettled(rows: Rows, cache: Rows, handlers: set<nat>, endings: nat -> Ending)
    ensures Todo(Marked(rows, Settled(rows, cache, handlers, endings, {})), handlers) == {} <==>
              forall a :: a in Todo(rows, handlers) ==> Settles(rows, cache, endings, a)
  {
    var now := Marked(rows, Settled(rows, cache, handlers, endings, {}));
    if Todo(now, handlers) == {} {
      forall a | a in Todo(rows, handlers) ensures Settles(rows, cache, endings, a) {
        assert a in now && a !in Todo(now, handlers);
      }
    }
  }

  lemma GroupingComplete(rows: Rows, handlers: set<nat>, listing: seq<Address>, groups: map<nat, set<Address>>)
    requires forall a :: a in listing <==> a in rows && !rows[a].handled
    requires forall id :: id in groups <==>
              exists k :: 0 <= k < |listing| && rows[listing[k]].id == id && id in handlers
    requires forall id :: id in groups ==>
               groups[id] == set k | 0 <= k < |listing| && rows[listing[k]].id == id :: listing[k]
    ensures IsGrouping(rows, handlers, groups)
  {
    forall id ensures id in groups <==> AddressesOf(rows, handlers, id) != {} {
      if id in groups {
        var k :| 0 <= k < |listing| && rows[listing[k]].id == id && id in handlers;
        assert listing[k] in listing && listing[k] in AddressesOf(rows, handlers, id);
      }
      if AddressesOf(rows, handlers, id) != {} {
        var a :| a in AddressesOf(rows, handlers, id);
        var k :| 0 <= k < |listing| && listing[k] == a;
      }
    }
    forall id | id in groups ensures groups[id] == AddressesOf(rows, handlers, id) {
      forall a ensures a in groups[id] <==> a in AddressesOf(rows, handlers, id) {
        if a in AddressesOf(rows, handlers, id) {
          var k :| 0 <= k < |listing| && listing[k] == a;
        }
        if a in groups[id] {
          assert a in listing;
        }
      }
    }
  }

  // ---------------------------------------------------------------- the table and the cache

  class StrategyTable {
    var rows: Rows

    constructor (rows: Rows)
      ensures this.rows == rows
    {
      this.rows := rows;
    }

    method SaveStrategy(address: Address, strategy: Strategy, reply: Reply)
      modifies this
      ensures rows == if reply.Written? || reply.reached then old(rows)[address := strategy] else old(rows)
    {
      if reply.Written? || reply.reached {
        rows := rows[address := strategy];
      }
    }
  }

  class CachedRegistry {
    const table: StrategyTable
    var cache: Rows
    /** The addresses that were cached when the last write of theirs that took effect threw. */
    ghost var stale: set<Address>

    /** Everything cached is in the table, and it is the table's row exactly for the addresses that are
        not stale. */
    ghost predicate Valid()
      reads this, table
    {
      && stale <= cache.Keys <= table.rows.Keys
      && forall a :: a in cache ==> (cache[a] == table.rows[a] <==> a !in stale)
    }

    ghost predicate Agrees()
      reads this, table
    {
      forall a :: a in cache ==> a in table.rows && cache[a] == table.rows[a]
    }

    constructor (table: StrategyTable)
      ensures Valid() && Agrees() && this.table == table && stale == {} && cache == table.rows
    {
      this.table := table;
      cache := table.rows;
      stale := {};
    }

    /** The answer is the table's exactly for the addresses that are not stale. */
    method GetStrategyId(address: Address) returns (strategy: Option<Strategy>)
      requires Valid()
      modifies this
      ensures Valid() && stale == old(stale)
      ensures strategy == (if address in table.rows then Some(table.rows[address]) else None) <==> address !in stale
      ensures address in old(cache) ==> cache == old(cache) && strategy == Some(cache[address])
    {
      if address in cache {
        return Some(cache[address]);
      }
      if address in table.rows {
        cache := cache[address := table.rows[address]];
        strategy := Some(table.rows[address]);
      } else {
        strategy := None;
      }
    }

    /** Skips the write when the cached row has the same `handled`, without looking at the id; updates the
        cache only after a write that did not throw. Cache and table go out of agreement exactly when a
        write over a cached row takes effect and throws. */
    method SaveStrategyId(address: Address, id: nat, handled: bool, reply: Reply) returns (ok: bool)
      requires Valid()
      modifies this, table
      ensures Valid() && (ok <==> Skips(old(cache), address, handled) || reply.Written?)
      ensures table.rows == if Reaches(old(cache), address, handled, reply)
                            then old(table.rows)[address := Strategy(id, handled)] else old(table.rows)
      ensures cache == if ok && !Skips(old(cache), address, handled)
                       then old(cache)[address := Strategy(id, handled)] else old(cache)
      ensures old(Agrees()) ==>
                (Agrees() <==>
                    !(reply == Threw(true) && address in old(cache) && old(cache)[address].handled != handled))
      ensures stale == StaleAfter(old(cache), old(stale), address, handled, reply)
      ensures Agrees() <==> stale == {}
    {
      if address in cache && cache[address].handled == handled {
        return true;
      }
      table.SaveStrategy(address, Strategy(id, handled), reply);
      match reply {
        case Written =>
          cache := cache[address := Strategy(id, handled)];
          stale := stale - {address};
        case Threw(reached) =>
          stale := if reached && address in cache then stale + {address} else stale;
      }
      ok := reply.Written?;
    }

    /** Groups the unhandled strategies that have a handler; `listing` is the query's result. */
    method FindNewHandleableStrategies(handlers: set<nat>, listing: seq<Address>)
        returns (groups: map<nat, set<Address>>)
      requires forall a :: a in listing <==> a in table.rows && !table.rows[a].handled
      ensures IsGrouping(table.rows, handlers, groups)
    {
      groups := map[];
      for i := 0 to |listing|
        invariant forall id :: id in groups <==>
                  exists k :: 0 <= k < i && table.rows[listing[k]].id == id && id in handlers
        invariant forall id :: id in groups ==>
                    groups[id] == set k | 0 <= k < i && table.rows[listing[k]].id == id :: listing[k]
      {
        var address := listing[i];
        assert address in listing;
        var id := table.rows[address].id;
        if id in handlers {
          if id !in groups {
            groups := groups[id := {}];
          }
          groups := groups[id := groups[id] + {address}];
        }
      }
      GroupingComplete(table.rows, handlers, listing, groups);
    }

    /** One more address, after those of `some`. */
    method MarkOne(id: nat, a: Address, replies: Address -> Reply,
                   ghost some: set<Address>, ghost rows: Rows, ghost was: Rows) returns (ok: bool)
      requires Valid() && a in rows && rows[a].id == id && SameEntry(cache, was, a)
      requires table.rows == Marked(rows, Reached(was, some, replies))
      modifies this, table
      ensures Valid() && table.rows == Marked(rows, Reached(was, some + {a}, replies))
      ensures ok && AllSaved(was, some, replies) <==> AllSaved(was, some + {a}, replies)
      ensures forall b :: b != a ==> SameEntry(cache, old(cache), b)
    {
      ReachedMore(cache, was, some, a, replies);
      MarkedMore(rows, Reached(was, some, replies), a);
      ok := SaveStrategyId(a, id, true, replies(a));
    }

    /** Every address of the strategy is saved as handled, each save on its own: one that throws does not
        keep the others from taking effect, but the strategy then fails. */
    method MarkStrategyAsHandled(id: nat, addresses: set<Address>, replies: Address -> Reply) returns (ok: bool)
      requires Valid()
      requires forall a :: a in addresses ==> a in table.rows && table.rows[a].id == id
      modifies this, table
      ensures Valid()
      ensures table.rows == Marked(old(table.rows), Reached(old(cache), addresses, replies))
      ensures ok <==> AllSaved(old(cache), addresses, replies)
      ensures forall a :: a !in addresses ==> SameEntry(cache, old(cache), a)
    {
      var left := addresses;
      ok := true;
      while left != {}
        invariant Valid() && left <= addresses
        invariant table.rows == Marked(old(table.rows), Reached(old(cache), addresses - left, replies))
        invariant ok <==> AllSaved(old(cache), addresses - left, replies)
        invariant forall b :: b !in addresses - left ==> SameEntry(cache, old(cache), b)
        decreases left
      {
        var a :| a in left;
        assert addresses - (left - {a}) == (addresses - left) + {a};
        ghost var before := cache;
        assert SameEntry(before, old(cache), a);
        var saved := MarkOne(id, a, replies, addresses - left, old(table.rows), old(cache));
        forall b | b !in addresses - left && b != a ensures SameEntry(cache, old(cache), b) {
          assert SameEntry(cache, before, b) && SameEntry(before, old(cache), b);
        }
        ok := ok && saved;
        left := left - {a};
      }
      assert addresses - left == addresses;
    }

    method Finish(id: nat, addresses: set<Address>, ending: Ending)
      requires Valid()
      requires forall a :: a in addresses ==> a in table.rows && table.rows[a].id == id
      modifies this, table
      ensures Valid()
      ensures table.rows == Marked(old(table.rows), MarksOf(old(cache), addresses, ending))
      ensures forall a :: a !in addresses ==> SameEntry(cache, old(cache), a)
    {
      match ending
      case Stopped =>
      case Marks(replies) =>
        var ok := MarkStrategyAsHandled(id, addresses, replies);
    }

    /** Every strategy found is processed, and marked if its pass gets that far; each fails on its own. An
        address is marked exactly when its strategy got to marking and its write took effect, so nothing
        is left to do exactly when that was so of every address found. What the passes themselves do, and
        when they get to marking, is in `RetroactiveRun`. */
    method ProcessRetroactiveStrategies(handlers: set<nat>, listing: seq<Address>, endings: nat -> Ending)
      requires Valid()
      requires forall a :: a in listing <==> a in table.rows && !table.rows[a].handled
      modifies this, table
      ensures Valid()
      ensures table.rows == Marked(old(table.rows), Settled(old(table.rows), old(cache), handlers, endings, {}))
      ensures Todo(table.rows, handlers) == {} <==>
                forall a :: a in Todo(old(table.rows), handlers) ==> Settles(old(table.rows), old(cache), endings, a)
    {
      var groups := FindNewHandleableStrategies(handlers, listing);
      ghost var rows, was := table.rows, cache;
      var left := groups.Keys;
      NoneSettled(rows, was, handlers, groups, endings);
      while left != {}
        invariant Valid() && left <= groups.Keys
        invariant table.rows == Marked(rows, Settled(rows, was, handlers, endings, left))
        invariant forall a :: a in Todo(rows, handlers) && rows[a].id in left ==> SameEntry(cache, was, a)
        decreases left
      {
        var id :| id in left;
        OneMoreSettled(rows, was, cache, handlers, endings, left, id);
        MarkedTwice(rows, Settled(rows, was, handlers, endings, left), MarksOf(cache, groups[id], endings(id)));
        Finish(id, groups[id], endings(id));
        left := left - {id};
      }
      AllSettled(rows, was, handlers, endings);
    }
  }

  /** One write that takes effect and throws, and the registry answers what the table no longer holds;
      the write that would set the row back is skipped. */
  method LateWrite() returns (answer: Option<Strategy>, row: Strategy, last: Strategy)
    ensures answer == Some(Strategy(7, false)) && row == Strategy(7, true) && last == row
  {
    var table := new StrategyTable(map[1 := Strategy(7, false)]);
    var registry := new CachedRegistry(table);
    var ok := registry.SaveStrategyId(1, 7, true, Threw(true));
    row := table.rows[1];
    answer := registry.GetStrategyId(1);
    ok := registry.SaveStrategyId(1, 7, false, Written);
    last := table.rows[1];
  }
}
