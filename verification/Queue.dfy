/** The circular buffer the orchestrator and the retroactive processor keep their batches in. */
module QueueCost {
  import opened Domain

  /** Sizes and work of a queue, without its items. `work` counts the slots ever allocated, copied,
      written by `push` or read by `pop`; `ops` counts the items pushed and the calls to `pop`. */
  datatype Profile = Profile(capacity: nat, size: nat, work: nat, ops: nat)

  datatype Operation = Push(items: nat) | Pop

  const SHRINK_ABOVE := 16384

  function HalfUp(n: nat): (h: nat)
    ensures n <= 2 * h <= n + 1
  {
    (n + 1) / 2
  }

  /** `Math.ceil(Math.max(capacity * 2, required * 1.5))` */
  function GrownCapacity(capacity: nat, required: nat): nat {
    Max(capacity * 2, HalfUp(required * 3))
  }

  predicate Shrinks(capacity: nat, size: nat) {
    size * 8 < capacity && capacity > SHRINK_ABOVE
  }

  function Resized(p: Profile, capacity: nat): Profile {
    p.(capacity := capacity, work := p.work + capacity + p.size)
  }

  function PushRoom(p: Profile, items: nat): Profile {
    if p.size + items > p.capacity then Resized(p, GrownCapacity(p.capacity, p.size + items)) else p
  }

  function AfterPush(p: Profile, items: nat): Profile {
    var q := PushRoom(p, items);
    q.(size := q.size + items, work := q.work + items, ops := q.ops + items)
  }

  function AfterPop(p: Profile): Profile {
    if p.size == 0 then p.(work := p.work + 1, ops := p.ops + 1)
    else
      var q := p.(size := p.size - 1, work := p.work + 1, ops := p.ops + 1);
      if Shrinks(q.capacity, q.size) then Resized(q, HalfUp(q.capacity)) else q
  }

  function Perform(p: Profile, op: Operation): Profile {
    match op
    case Push(n) => AfterPush(p, n)
    case Pop => AfterPop(p)
  }

  function Initial(capacity: nat): Profile {
    Profile(capacity, 0, capacity, 0)
  }

  function After(initial: nat, history: seq<Operation>): Profile {
    if history == [] then Initial(initial)
    else
      Perform(After(initial, history[..|history| - 1]), history[|history| - 1])
  }

  lemma AfterOneMore(initial: nat, history: seq<Operation>, op: Operation)
    ensures After(initial, history + [op]) == Perform(After(initial, history), op)
  {
    assert (history + [op])[..|history|] == history;
  }

  /** Four times the work already paid for but not yet done: growth is paid for as the buffer fills
      beyond two thirds, shrinking as it empties below a quarter. */
  function Potential(p: Profile): int {
    12 * Max(0, 3 * p.size - 2 * p.capacity) + 5 * Max(0, p.capacity - 4 * p.size)
  }

  ghost predicate Solvent(initial: nat, p: Profile) {
    p.size <= p.capacity && 4 * p.work + Potential(p) <= 40 * p.ops + 9 * initial
  }

  lemma PushSolvent(initial: nat, p: Profile, items: nat)
    requires Solvent(initial, p)
    ensures Solvent(initial, AfterPush(p, items))
  {
  }

  lemma PopSolvent(initial: nat, p: Profile)
    requires Solvent(initial, p)
    ensures Solvent(initial, AfterPop(p))
  {
  }

  /** Any sequence of pushes and pops costs at most ten slot operations per pushed item and per pop,
      plus two and a quarter per slot of the initial capacity. */
  lemma {:induction false} AmortizedCost(initial: nat, history: seq<Operation>)
    ensures Solvent(initial, After(initial, history))
    ensures After(initial, history).work <= 10 * After(initial, history).ops + 9 * initial / 4
  {
    if history != [] {
      var front := history[..|history| - 1];
      AmortizedCost(initial, front);
      match history[|history| - 1]
      case Push(n) => PushSolvent(initial, After(initial, front), n);
      case Pop => PopSolvent(initial, After(initial, front));
    }
  }

  ghost predicate Lean(initial: nat, p: Profile) {
    p.capacity <= Max(Max(SHRINK_ABOVE, 8 * p.size), initial)
  }

  /** The capacity never exceeds the largest of 16384, eight times the size, and the initial capacity. */
  lemma {:induction false} SpaceBound(initial: nat, history: seq<Operation>)
    ensures Lean(initial, After(initial, history))
    ensures initial <= SHRINK_ABOVE ==>
              After(initial, history).capacity <= Max(SHRINK_ABOVE, 8 * After(initial, history).size)
  {
    if history != [] {
      var front := history[..|history| - 1];
      SpaceBound(initial, front);
      AmortizedCost(initial, front);
    }
  }
}

module CircularQueue {
  import opened Domain
  import opened QueueCost

  // ---------------------------------------------------------------- the live window of a buffer

  /** The slot `i` places after `head`. */
  function Slot(head: nat, i: nat, n: nat): (r: nat)
    requires head < n && i <= n
    ensures r == if head + i < n then head + i else head + i - n
  {
    (head + i) % n
  }

  /** The window of `size` items starts at `head` and wraps around; every slot outside it is empty. */
  ghost predicate IsWindow<T>(b: seq<Option<T>>, head: nat, size: nat) {
    && size <= |b|
    && (if |b| == 0 then head == 0 else head < |b|)
    && (forall i :: 0 <= i < |b| ==> b[Slot(head, i, |b|)].Some? == (i < size))
  }

  ghost function Items<T>(b: seq<Option<T>>, head: nat, size: nat): (items: seq<T>)
    requires IsWindow(b, head, size)
    ensures |items| == size
    ensures forall i :: 0 <= i < size ==> Some(items[i]) == b[Slot(head, i, |b|)]
  {
    seq(size, i requires 0 <= i < size && b[Slot(head, i, |b|)].Some? => b[Slot(head, i, |b|)].value)
  }

  lemma WriteAtTail<T>(b: seq<Option<T>>, head: nat, size: nat, x: T)
    requires IsWindow(b, head, size) && size < |b|
    ensures var c := b[Slot(head, size, |b|) := Some(x)];
            IsWindow(c, head, size + 1) && Items(c, head, size + 1) == Items(b, head, size) + [x]
  {
    var c := b[Slot(head, size, |b|) := Some(x)];
    assert forall i :: 0 <= i < |b| && i != size ==> c[Slot(head, i, |b|)] == b[Slot(head, i, |b|)];
    var before, now := Items(b, head, size) + [x], Items(c, head, size + 1);
    forall i | 0 <= i < |now| ensures Some(now[i]) == Some(before[i]) {
      assert Some(now[i]) == c[Slot(head, i, |b|)];
    }
  }

  lemma ClearAtHead<T>(b: seq<Option<T>>, head: nat, size: nat)
    requires IsWindow(b, head, size) && size > 0
    ensures var c := b[head := None];
            var next := Slot(head, 1, |b|);
            && IsWindow(c, next, size - 1)
            && Items(c, next, size - 1) == Items(b, head, size)[1..]
  {
    var n, c, next := |b|, b[head := None], Slot(head, 1, |b|);
    forall i | 0 <= i < n ensures c[Slot(next, i, n)].Some? == (i < size - 1) {
      assert Slot(next, i, n) == if i + 1 < n then Slot(head, i + 1, n) else head;
    }
    var before, now := Items(b, head, size), Items(c, next, size - 1);
    forall i | 0 <= i < size - 1 ensures Some(now[i]) == Some(before[i + 1]) {
      assert Slot(next, i, n) == Slot(head, i + 1, n);
    }
  }

  lemma Compacted<T>(b: seq<Option<T>>, head: nat, size: nat, c: seq<Option<T>>)
    requires IsWindow(b, head, size) && size <= |c|
    requires forall i :: 0 <= i < size ==> c[i] == b[Slot(head, i, |b|)]
    requires forall i :: size <= i < |c| ==> c[i].None?
    ensures IsWindow(c, 0, size) && Items(c, 0, size) == Items(b, head, size)
  {
    var before, now := Items(b, head, size), Items(c, 0, size);
    forall i | 0 <= i < size ensures Some(now[i]) == Some(before[i]) {
      assert c[Slot(0, i, |c|)] == c[i];
    }
  }

  // ---------------------------------------------------------------- the queue

  class Queue<T> {
    var buffer: array<Option<T>>
    var head: nat
    var tail: nat
    var size: nat
    ghost var initial: nat
    ghost var history: seq<Operation>
    ghost var work: nat
    ghost var ops: nat

    ghost predicate Windowed()
      reads `buffer, `head, `tail, `size, buffer
    {
      && IsWindow(buffer[..], head, size)
      && tail == if buffer.Length == 0 then 0 else Slot(head, size, buffer.Length)
    }

    /** The buffer holds one window of items, and the capacity, the size and the work done so far are
        what the cost model says the history of operations leads to. */
    ghost predicate Valid()
      reads this, buffer
    {
      Windowed() && Cost() == After(initial, history)
    }

    ghost function Cost(): Profile
      reads this
    {
      Profile(buffer.Length, size, work, ops)
    }

    ghost function Contents(): (items: seq<T>)
      reads `buffer, `head, `tail, `size, buffer
      requires Windowed()
      ensures |items| == size
    {
      Items(buffer[..], head, size)
    }

    constructor (initialCapacity: nat := 5000)
      ensures Valid() && fresh(buffer)
      ensures Contents() == [] && initial == initialCapacity && history == []
    {
      buffer := new Option<T>[initialCapacity](_ => None);
      head, tail, size := 0, 0, 0;
      initial, history, work, ops := initialCapacity, [], initialCapacity, 0;
    }

    method Push(items: seq<T>)
      requires Valid()
      modifies this, buffer
      ensures Valid() && (buffer == old(buffer) || fresh(buffer))
      ensures Contents() == old(Contents()) + items
      ensures history == old(history) + [Operation.Push(|items|)] && initial == old(initial)
    {
      MakeRoom(|items|);
      WriteAll(items);
      ops := ops + |items|;
      Log(Operation.Push(|items|));
    }

    method WriteAll(items: seq<T>)
      requires Windowed() && size + |items| <= buffer.Length
      modifies this`tail, this`size, this`work, buffer
      ensures Windowed() && Contents() == old(Contents()) + items
      ensures size == old(size) + |items| && work == old(work) + |items|
    {
      ghost var before := Contents();
      for k := 0 to |items|
        invariant Windowed() && size == old(size) + k && work == old(work) + k
        invariant Contents() == before + items[..k]
      {
        Write(items[k]);
        assert items[..k + 1] == items[..k] + [items[k]];
      }
      assert items[..|items|] == items;
    }

    ghost method Log(op: Operation)
      requires Windowed() && Cost() == Perform(After(initial, history), op)
      modifies `history
      ensures Valid() && history == old(history) + [op]
    {
      AfterOneMore(initial, history, op);
      history := history + [op];
    }

    method MakeRoom(items: nat)
      requires Windowed()
      modifies this`buffer, this`head, this`tail, this`work
      ensures Windowed() && (buffer == old(buffer) || fresh(buffer))
      ensures Contents() == old(Contents()) && size + items <= buffer.Length
      ensures Cost() == PushRoom(old(Cost()), items)
    {
      var requiredCapacity := size + items;
      if requiredCapacity > buffer.Length {
        Resize(GrownCapacity(buffer.Length, requiredCapacity));
      }
    }

    method Write(item: T)
      requires Windowed() && size < buffer.Length
      modifies this`tail, this`size, this`work, buffer
      ensures Windowed() && Contents() == old(Contents()) + [item]
      ensures work == old(work) + 1
    {
      WriteAtTail(buffer[..], head, size, item);
      ghost var written := buffer[..][tail := Some(item)];
      buffer[tail] := Some(item);
      assert buffer[..] == written;
      tail := Slot(tail, 1, buffer.Length);
      size := size + 1;
      work := work + 1;
    }

    method Take() returns (item: T)
      requires Windowed() && size > 0
      modifies this`head, this`size, this`work, buffer
      ensures Windowed() && [item] + Contents() == old(Contents())
      ensures work == old(work) + 1
    {
      ClearAtHead(buffer[..], head, size);
      ghost var cleared := buffer[..][head := None];
      assert Slot(head, 0, buffer.Length) == head;
      item := buffer[head].value;
      buffer[head] := None;
      assert buffer[..] == cleared;
      head := Slot(head, 1, buffer.Length);
      size := size - 1;
      work := work + 1;
    }

    method Pop() returns (item: Option<T>)
      requires Valid()
      modifies this, buffer
      ensures Valid() && (buffer == old(buffer) || fresh(buffer))
      ensures old(Contents()) == [] ==> item == None && Contents() == []
      ensures old(Contents()) != [] ==> item.Some? && [item.value] + Contents() == old(Contents())
      ensures history == old(history) + [Operation.Pop] && initial == old(initial)
    {
      ops := ops + 1;
      if size == 0 {
        item := None;
        work := work + 1;
      } else {
        var first := Take();
        item := Some(first);
        ShrinkIfSparse();
      }
      Log(Operation.Pop);
    }

    method ShrinkIfSparse()
      requires Windowed()
      modifies this`buffer, this`head, this`tail, this`work
      ensures Windowed() && (buffer == old(buffer) || fresh(buffer))
      ensures Contents() == old(Contents())
      ensures Cost() == if Shrinks(old(buffer.Length), size)
                        then Resized(old(Cost()), HalfUp(old(buffer.Length))) else old(Cost())
    {
      if size * 8 < buffer.Length && buffer.Length > SHRINK_ABOVE {
        Resize(HalfUp(buffer.Length));
      }
    }

    /** An empty queue has nothing at its head, wherever the head is. */
    method Peek() returns (item: Option<T>)
      requires Valid()
      ensures item == if Contents() == [] then None else Some(Contents()[0])
    {
      if head < buffer.Length {
        item := buffer[head];
        assert Slot(head, 0, buffer.Length) == head;
      } else {
        item := None;
      }
    }

    method IsEmpty() returns (empty: bool)
      requires Valid()
      ensures empty <==> Contents() == []
    {
      empty := size == 0;
    }

    method Resize(newCapacity: nat)
      requires Windowed() && size < newCapacity
      modifies this`buffer, this`head, this`tail, this`work
      ensures Windowed() && fresh(buffer) && buffer.Length == newCapacity
      ensures Contents() == old(Contents())
      ensures work == old(work) + newCapacity + size
    {
      var newBuffer := new Option<T>[newCapacity](_ => None);
      for i := 0 to size
        invariant forall j :: 0 <= j < i ==> newBuffer[j] == buffer[Slot(head, j, buffer.Length)]
        invariant forall j :: i <= j < newCapacity ==> newBuffer[j].None?
        modifies newBuffer
      {
        newBuffer[i] := buffer[Slot(head, i, buffer.Length)];
      }
      Compacted(buffer[..], head, size, newBuffer[..]);
      buffer := newBuffer;
      head := 0;
      tail := size;
      work := work + newCapacity + size;
    }
  }
}
