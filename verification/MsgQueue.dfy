/** The host's message queue: fixed-size items copied cell by cell into a ring of
    slots. It refines a bounded first-in first-out queue of items, whatever the
    cells of memory are taken to be: bytes, or the members of a struct. */
module MsgQueues {
  import opened DivMod
  import Fifo

  type Item<Cell> = seq<Cell>

  // ---------------------------------------------------------------- slots of the storage

  lemma SlotFits(itemSize: nat, capacity: nat, k: nat)
    requires k < capacity
    ensures 0 <= k * itemSize <= k * itemSize + itemSize <= capacity * itemSize
  {
    SlotsApart(itemSize, k, capacity);
  }

  lemma {:induction false} SlotsApart(itemSize: nat, k: nat, l: nat)
    requires k < l
    ensures 0 <= k * itemSize
    ensures k * itemSize + itemSize <= l * itemSize
    decreases l - k
  {
    assert (k + 1) * itemSize == k * itemSize + itemSize;
    if k + 1 < l {
      SlotsApart(itemSize, k + 1, l);
    }
  }

  /** The k-th slot of the storage. */
  function Slot<Cell>(cells: seq<Cell>, itemSize: nat, capacity: nat, k: nat): (item: Item<Cell>)
    requires |cells| == capacity * itemSize && k < capacity
    ensures |item| == itemSize
  {
    SlotFits(itemSize, capacity, k);
    cells[k * itemSize..k * itemSize + itemSize]
  }

  /** Position i counted from the head, going round. */
  function Wrap(head: nat, i: nat, capacity: nat): (k: nat)
    requires head < capacity && i <= capacity
    ensures k < capacity
  {
    if head + i < capacity then head + i else head + i - capacity
  }

  lemma WrapIsModulo(head: nat, i: nat, capacity: nat)
    requires head < capacity && i <= capacity
    ensures (head + i) % capacity == Wrap(head, i, capacity)
  {
    ModSmall(Wrap(head, i, capacity), capacity);
    ModOfSum(head + i - capacity, 1, capacity);
  }

  /** The items held: `count` slots starting at `head`. */
  function Window<Cell>(cells: seq<Cell>, itemSize: nat, capacity: nat, head: nat, count: nat): (q: seq<Item<Cell>>)
    requires |cells| == capacity * itemSize && head < capacity && count <= capacity
    ensures |q| == count
    ensures forall i :: 0 <= i < count ==> |q[i]| == itemSize
  {
    seq(count, i requires 0 <= i < count => Slot(cells, itemSize, capacity, Wrap(head, i, capacity)))
  }

  /** Memory that differs at most inside slot k. */
  ghost predicate OnlySlotChanged<Cell>(a: seq<Cell>, b: seq<Cell>, itemSize: nat, capacity: nat, k: nat)
    requires |a| == |b| == capacity * itemSize && k < capacity
  {
    forall i :: 0 <= i < |a| && !(k * itemSize <= i < k * itemSize + itemSize) ==> a[i] == b[i]
  }

  lemma OtherSlotsKept<Cell>(a: seq<Cell>, b: seq<Cell>, itemSize: nat, capacity: nat, k: nat, l: nat)
    requires |a| == |b| == capacity * itemSize && k < capacity && l < capacity && k != l
    requires OnlySlotChanged(a, b, itemSize, capacity, k)
    ensures Slot(a, itemSize, capacity, l) == Slot(b, itemSize, capacity, l)
  {
    SlotFits(itemSize, capacity, l);
    if k < l {
      SlotsApart(itemSize, k, l);
    } else {
      SlotsApart(itemSize, l, k);
    }
  }

  lemma WindowGrows<Cell>(a: seq<Cell>, b: seq<Cell>, itemSize: nat, capacity: nat, head: nat, count: nat)
    requires |a| == |b| == capacity * itemSize && head < capacity && count < capacity
    requires OnlySlotChanged(a, b, itemSize, capacity, Wrap(head, count, capacity))
    ensures Window(b, itemSize, capacity, head, count + 1)
         == Window(a, itemSize, capacity, head, count) + [Slot(b, itemSize, capacity, Wrap(head, count, capacity))]
  {
    forall i | 0 <= i < count
      ensures Slot(a, itemSize, capacity, Wrap(head, i, capacity))
           == Slot(b, itemSize, capacity, Wrap(head, i, capacity))
    {
      OtherSlotsKept(a, b, itemSize, capacity, Wrap(head, count, capacity), Wrap(head, i, capacity));
    }
  }

  lemma WindowShrinks<Cell>(cells: seq<Cell>, itemSize: nat, capacity: nat, head: nat, count: nat)
    requires |cells| == capacity * itemSize && head < capacity && 0 < count <= capacity
    ensures var q := Window(cells, itemSize, capacity, head, count);
      && q[0] == Slot(cells, itemSize, capacity, head)
      && Window(cells, itemSize, capacity, Wrap(head, 1, capacity), count - 1) == q[1..]
  {
    assert Wrap(head, 0, capacity) == head;
    forall i | 0 <= i < count - 1
      ensures Wrap(Wrap(head, 1, capacity), i, capacity) == Wrap(head, i + 1, capacity)
    {
    }
  }

  // ---------------------------------------------------------------- waiting

  /** What ends one wait on the condition variable: whatever other threads did to
      the queue while its mutex was released, and whether the wait timed out. */
  datatype Wake<Cell> = Wake(meanwhile: seq<Fifo.Op<Item<Cell>>>, timedOut: bool)

  datatype PopResult = Popped | TimedOut | StillWaiting

  datatype PopOutcome<Cell> = PopOutcome(queue: seq<Item<Cell>>, result: PopResult, item: Item<Cell>)

  /** What a pop does to a first-in first-out queue, given what ends its waits.
      A timed-out wait gives up even if an item has arrived meanwhile; a negative
      timeout ignores timeouts. */
  function PopSpec<Cell>(capacity: nat, q: seq<Item<Cell>>, timeoutMs: int, wakes: seq<Wake<Cell>>): PopOutcome<Cell>
    decreases |wakes|
  {
    if q != [] then PopOutcome(q[1..], Popped, q[0])
    else if wakes == [] then PopOutcome(q, StillWaiting, [])
    else
      var later := Fifo.After(capacity, q, wakes[0].meanwhile);
      if timeoutMs >= 0 && wakes[0].timedOut then PopOutcome(later, TimedOut, [])
      else PopSpec(capacity, later, timeoutMs, wakes[1..])
  }

  /** All that other threads did to the queue during these waits. */
  function Meanwhile<Cell>(wakes: seq<Wake<Cell>>): seq<Fifo.Op<Item<Cell>>> {
    if wakes == [] then [] else wakes[0].meanwhile + Meanwhile(wakes[1..])
  }

  /** None of the first n waits has timed out, and what the others did to the queue
      during them leaves it nonempty. */
  ghost predicate ItemAfter<Cell>(capacity: nat, q: seq<Item<Cell>>, timeoutMs: int, wakes: seq<Wake<Cell>>, n: nat) {
    && n <= |wakes|
    && (timeoutMs < 0 || forall i :: 0 <= i < n ==> !wakes[i].timedOut)
    && Fifo.After(capacity, q, Meanwhile(wakes[..n])) != []
  }

  /** A pop succeeds exactly when there is some number of waits, none of them timed
      out, after which the other threads have left the queue nonempty; it then
      takes the oldest item at the first such moment. */
  lemma PopSucceedsIff<Cell>(capacity: nat, q: seq<Item<Cell>>, timeoutMs: int, wakes: seq<Wake<Cell>>)
    ensures PopSpec(capacity, q, timeoutMs, wakes).result.Popped?
      <==> exists n: nat :: ItemAfter(capacity, q, timeoutMs, wakes, n)
  {
    if PopSpec(capacity, q, timeoutMs, wakes).result.Popped? {
      var n := PopFoundItem(capacity, q, timeoutMs, wakes);
      assert ItemAfter(capacity, q, timeoutMs, wakes, n);
    }
    if n: nat :| ItemAfter(capacity, q, timeoutMs, wakes, n) {
      PopFindsItem(capacity, q, timeoutMs, wakes, n);
    }
  }

  lemma MeanwhileFirst<Cell>(capacity: nat, q: seq<Item<Cell>>, wakes: seq<Wake<Cell>>, n: nat)
    requires 0 < n <= |wakes|
    ensures Fifo.After(capacity, q, Meanwhile(wakes[..n]))
      == Fifo.After(capacity, Fifo.After(capacity, q, wakes[0].meanwhile), Meanwhile(wakes[1..][..n - 1]))
  {
    assert wakes[..n][1..] == wakes[1..][..n - 1];
    Fifo.AfterBoth(capacity, q, wakes[0].meanwhile, Meanwhile(wakes[1..][..n - 1]));
  }

  /** The item popped is the oldest at the first moment the queue is not empty. */
  lemma {:induction false} PopFoundItem<Cell>(capacity: nat, q: seq<Item<Cell>>, timeoutMs: int, wakes: seq<Wake<Cell>>)
    returns (n: nat)
    requires PopSpec(capacity, q, timeoutMs, wakes).result.Popped?
    ensures ItemAfter(capacity, q, timeoutMs, wakes, n)
    ensures forall k :: 0 <= k < n ==> Fifo.After(capacity, q, Meanwhile(wakes[..k])) == []
    ensures var found := Fifo.After(capacity, q, Meanwhile(wakes[..n]));
      PopSpec(capacity, q, timeoutMs, wakes) == PopOutcome(found[1..], Popped, found[0])
    decreases |wakes|
  {
    assert Meanwhile(wakes[..0]) == [];
    if q != [] {
      n := 0;
    } else {
      var k := PopFoundItem(capacity, Fifo.After(capacity, q, wakes[0].meanwhile), timeoutMs, wakes[1..]);
      n := k + 1;
      forall i | 0 < i <= n
        ensures Fifo.After(capacity, q, Meanwhile(wakes[..i]))
          == Fifo.After(capacity, Fifo.After(capacity, q, wakes[0].meanwhile), Meanwhile(wakes[1..][..i - 1]))
      {
        MeanwhileFirst(capacity, q, wakes, i);
      }
    }
  }

  lemma {:induction false} PopFindsItem<Cell>(capacity: nat, q: seq<Item<Cell>>, timeoutMs: int, wakes: seq<Wake<Cell>>,
                                              n: nat)
    requires ItemAfter(capacity, q, timeoutMs, wakes, n)
    ensures PopSpec(capacity, q, timeoutMs, wakes).result.Popped?
    decreases n
  {
    assert Meanwhile(wakes[..0]) == [];
    if q == [] {
      MeanwhileFirst(capacity, q, wakes, n);
      PopFindsItem(capacity, Fifo.After(capacity, q, wakes[0].meanwhile), timeoutMs, wakes[1..], n - 1);
    }
  }

  // ---------------------------------------------------------------- the queue

  /** `memcpy` between two different buffers. */
  method MemCpy<Cell>(dst: array<Cell>, to: nat, src: array<Cell>, from: nat, n: nat)
    requires dst != src
    requires to + n <= dst.Length && from + n <= src.Length
    modifies dst
    ensures dst[to..to + n] == src[from..from + n]
    ensures forall i :: 0 <= i < dst.Length && !(to <= i < to + n) ==> dst[i] == old(dst[i])
  {
    var i := 0;
    while i < n
      invariant 0 <= i <= n
      invariant forall j :: to <= j < to + i ==> dst[j] == src[from + j - to]
      invariant forall j :: 0 <= j < dst.Length && !(to <= j < to + i) ==> dst[j] == old(dst[j])
    {
      dst[to + i] := src[from + i];
      i := i + 1;
    }
  }

  class MsgQueue<Cell> {
    const itemSize: nat
    const capacity: nat
    const storage: array<Cell>
    var head: nat
    var tail: nat
    var count: nat

    ghost predicate Valid()
      reads this
    {
      && itemSize > 0 && capacity > 0
      && storage.Length == capacity * itemSize
      && head < capacity
      && count <= capacity
      && tail == (head + count) % capacity
    }

    /** The items held, oldest first. */
    ghost function Contents(): (q: seq<Item<Cell>>)
      requires Valid()
      reads this, storage
      ensures |q| == count
      ensures forall i :: 0 <= i < count ==> |q[i]| == itemSize
    {
      Window(storage[..], itemSize, capacity, head, count)
    }

    /** `zero` is what the cleared memory of `calloc` holds. */
    constructor (itemSize: nat, capacity: nat, zero: Cell)
      requires itemSize > 0 && capacity > 0
      ensures Valid() && fresh(storage)
      ensures this.itemSize == itemSize && this.capacity == capacity
      ensures Contents() == []
    {
      this.itemSize, this.capacity := itemSize, capacity;
      SlotFits(itemSize, capacity, 0);
      storage := new Cell[capacity * itemSize](_ => zero);
      head, tail, count := 0, 0, 0;
    }

    /** `queue_create`: refused for a zero item size or a zero capacity, and when
        the system has no memory, mutex or condition variable to give. */
    static method Create(itemSize: nat, capacity: nat, zero: Cell, granted: bool) returns (q: MsgQueue?<Cell>)
      ensures q == null <==> itemSize == 0 || capacity == 0 || !granted
      ensures q != null ==>
        && q.Valid() && fresh(q) && fresh(q.storage)
        && q.itemSize == itemSize && q.capacity == capacity && q.Contents() == []
    {
      if itemSize == 0 || capacity == 0 {
        return null;
      }
      if !granted {
        return null;
      }
      q := new MsgQueue(itemSize, capacity, zero);
    }

    /** `queue_push`, inside its critical section. */
    method Push(item: array<Cell>) returns (pushed: bool)
      requires Valid() && item.Length == itemSize && item != storage
      modifies this, storage
      ensures Valid()
      ensures pushed <==> old(count) < capacity
      ensures Contents() == Fifo.Apply(capacity, old(Contents()), Fifo.Push(item[..])).queue
      ensures head == old(head)
      ensures if pushed
        then OnlySlotChanged(old(storage[..]), storage[..], itemSize, capacity, old(tail))
        else storage[..] == old(storage[..]) && tail == old(tail) && count == old(count)
    {
      pushed := false;
      if count < capacity {
        ghost var before := storage[..];
        WrapIsModulo(head, count, capacity);
        SlotFits(itemSize, capacity, tail);
        MemCpy(storage, tail * itemSize, item, 0, itemSize);
        assert storage[tail * itemSize..tail * itemSize + itemSize] == item[..];
        WindowGrows(before, storage[..], itemSize, capacity, head, count);
        WrapIsModulo(head, count + 1, capacity);
        WrapIsModulo(tail, 1, capacity);
        tail := (tail + 1) % capacity;
        count := count + 1;
        pushed := true;
      }
    }

    /** The part of `queue_pop` that runs once an item is there. */
    method TakeFirst(dst: array<Cell>)
      requires Valid() && count > 0 && dst.Length == itemSize && dst != storage
      modifies this, dst
      ensures Valid()
      ensures dst[..] == old(Contents())[0]
      ensures Contents() == old(Contents())[1..]
      ensures tail == old(tail)
    {
      SlotFits(itemSize, capacity, head);
      WindowShrinks(storage[..], itemSize, capacity, head, count);
      MemCpy(dst, 0, storage, head * itemSize, itemSize);
      assert dst[..] == dst[0..itemSize];
      WrapIsModulo(head, count, capacity);
      WrapIsModulo(head, 1, capacity);
      WrapIsModulo(Wrap(head, 1, capacity), count - 1, capacity);
      head := (head + 1) % capacity;
      count := count - 1;
    }

    /** `queue_count`. */
    function Count(): (n: nat)
      requires Valid()
      reads this, storage
      ensures n == |Contents()|
    {
      count
    }

    /** `queue_clear`. */
    method Clear()
      requires Valid()
      modifies this
      ensures Valid() && Contents() == []
    {
      head := 0;
      tail := 0;
      count := 0;
    }

    /** Serves one call that does not have to wait. */
    method Serve(op: Fifo.Op<Item<Cell>>) returns (answer: Fifo.Answer<Item<Cell>>)
      requires Valid()
      requires op.Push? ==> |op.item| == itemSize
      modifies this, storage
      ensures Valid()
      ensures Fifo.Outcome(Contents(), answer) == Fifo.Apply(capacity, old(Contents()), op)
    {
      match op
      case Push(x) =>
        var item := new Cell[itemSize](i requires 0 <= i < itemSize => x[i]);
        assert item[..] == x;
        var ok := Push(item);
        answer := Fifo.Pushed(ok);
      case Take =>
        if count == 0 {
          answer := Fifo.Nothing;
        } else {
          SlotFits(itemSize, capacity, head);
          var filler := storage[head * itemSize];
          var dst := new Cell[itemSize](_ => filler);
          TakeFirst(dst);
          answer := Fifo.Taken(dst[..]);
        }
      case Clear =>
        Clear();
        answer := Fifo.Cleared;
      case Count =>
        answer := Fifo.Holds(Count());
    }

    /** Any history of calls gets the answers of a first-in first-out queue. */
    method ServeAll(ops: seq<Fifo.Op<Item<Cell>>>) returns (answers: seq<Fifo.Answer<Item<Cell>>>)
      requires Valid()
      requires forall op :: op in ops && op.Push? ==> |op.item| == itemSize
      modifies this, storage
      ensures Valid()
      ensures answers == Fifo.Answers(capacity, old(Contents()), ops)
      ensures Contents() == Fifo.After(capacity, old(Contents()), ops)
    {
      answers := [];
      for i := 0 to |ops|
        invariant Valid()
        invariant answers == Fifo.Answers(capacity, old(Contents()), ops[..i])
        invariant Contents() == Fifo.After(capacity, old(Contents()), ops[..i])
      {
        assert ops[..i + 1][..i] == ops[..i];
        assert ops[i] in ops;
        var answer := Serve(ops[i]);
        answers := answers + [answer];
      }
      assert ops[..|ops|] == ops;
    }

    /** `queue_pop`: waits while the queue is empty; `wakes` says what ends each
        wait. */
    method Pop(dst: array<Cell>, timeoutMs: int, wakes: seq<Wake<Cell>>) returns (result: PopResult)
      requires Valid() && dst.Length == itemSize && dst != storage
      requires forall w, op :: w in wakes && op in w.meanwhile && op.Push? ==> |op.item| == itemSize
      modifies this, storage, dst
      ensures Valid()
      ensures var spec := PopSpec(capacity, old(Contents()), timeoutMs, wakes);
        && result == spec.result
        && Contents() == spec.queue
        && dst[..] == (if result.Popped? then spec.item else old(dst[..]))
    {
      var next := 0;
      while count == 0
        invariant Valid()
        invariant 0 <= next <= |wakes|
        invariant dst[..] == old(dst[..])
        invariant PopSpec(capacity, Contents(), timeoutMs, wakes[next..])
               == PopSpec(capacity, old(Contents()), timeoutMs, wakes)
        decreases |wakes| - next
      {
        if next == |wakes| {
          return StillWaiting;
        }
        assert Contents() == [];
        var wake := wakes[next];
        assert wake in wakes;
        assert wakes[next..][1..] == wakes[next + 1..];
        var _ := ServeAll(wake.meanwhile);
        next := next + 1;
        if timeoutMs >= 0 && wake.timedOut {
          return TimedOut;
        }
      }
      TakeFirst(dst);
      result := Popped;
    }
  }
}
