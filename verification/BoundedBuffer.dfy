/** The shared buffer of Pthread/multiple_producer_consumer.c: the plain fields that the
    threads update while they hold the mutex.  `Turn` functions say what one critical section
    does to the buffer; class Buffer does the same in place on its array. */
module BoundedBuffer {

  /** numGen and numCon are the source's counters; stack holds data[0..size). */
  datatype Contents = Contents(stack: seq<int>, numGen: nat, numCon: nat)

  /** What a thread takes out of its critical section: whether it leaves its loop, and the
      item it moved, if any. */
  datatype Turn = Turn(after: Contents, exiting: bool, moved: seq<int>)

  function ProducerTurn(b: Contents, capacity: nat, limit: nat, number: int): Turn {
    if b.numGen == limit then
      Turn(b, true, [])
    else if |b.stack| < capacity then
      Turn(Contents(b.stack + [number], b.numGen + 1, b.numCon), false, [number])
    else
      Turn(b, false, [])
  }

  function ConsumerTurn(b: Contents, limit: nat): Turn {
    if b.numCon == limit then
      Turn(b, true, [])
    else if |b.stack| > 0 then
      var last := |b.stack| - 1;
      Turn(Contents(b.stack[..last], b.numGen, b.numCon + 1), false, [b.stack[last]])
    else
      Turn(b, false, [])
  }

  class Buffer {
    var numGen: nat
    var numCon: nat
    const capacity: nat
    var size: nat
    const data: array<int>
    var dataptr: nat  // offset of the source's pointer from the start of data

    ghost predicate Valid()
      reads this
    {
      capacity == data.Length && size == dataptr <= capacity
    }

    ghost function View(): Contents
      requires Valid()
      reads this, data
    {
      Contents(data[..size], numGen, numCon)
    }

    constructor (capacity: nat)
      ensures Valid() && fresh(data) && this.capacity == capacity
      ensures View() == Contents([], 0, 0)
    {
      this.capacity := capacity;
      data := new int[capacity];
      size, dataptr, numGen, numCon := 0, 0, 0, 0;
    }

    method ProduceItem(number: int)
      requires Valid() && size < capacity
      modifies this, data
      ensures Valid()
      ensures View() == Contents(old(View().stack) + [number], old(numGen) + 1, old(numCon))
    {
      data[dataptr] := number;
      size := size + 1;
      dataptr := dataptr + 1;
      numGen := numGen + 1;
    }

    method ConsumeItem() returns (number: int)
      requires Valid() && size > 0
      modifies this
      ensures Valid()
      ensures old(View().stack) == View().stack + [number]
      ensures numGen == old(numGen) && numCon == old(numCon) + 1
    {
      size := size - 1;
      dataptr := dataptr - 1;
      numCon := numCon + 1;
      number := data[dataptr];
    }

    /** The critical section of do_produce: below the limit and with room the number drawn goes
        on the stack. */
    method Produce(limit: nat, number: int) returns (exiting: bool)
      requires Valid()
      modifies this, data
      ensures Valid() && (exiting <==> old(numGen) == limit)
      ensures var was := old(View());
        View() == if was.numGen != limit && |was.stack| < capacity
                  then Contents(was.stack + [number], was.numGen + 1, was.numCon) else was
      ensures Turn(View(), exiting, View().stack[|old(View().stack)|..])
           == ProducerTurn(old(View()), capacity, limit, number)
    {
      if limit == numGen {
        return true;
      }
      if size < capacity {
        ProduceItem(number);
      }
      return false;
    }

    /** The critical section of do_consume: below the limit the last item, if there is one, comes
        off the stack. */
    method Consume(limit: nat) returns (exiting: bool, moved: seq<int>)
      requires Valid()
      modifies this
      ensures Valid() && (exiting <==> old(numCon) == limit)
      ensures |moved| == (if old(numCon) != limit && old(size) > 0 then 1 else 0)
      ensures View().stack + moved == old(View().stack)
      ensures numCon == old(numCon) + |moved| && numGen == old(numGen)
      ensures Turn(View(), exiting, moved) == ConsumerTurn(old(View()), limit)
    {
      moved := [];
      if numCon == limit {
        return true, moved;
      }
      if size > 0 {
        ghost var was := View().stack;
        var number := ConsumeItem();
        moved := [number];
        assert was[..|was| - 1] == View().stack;
      }
      return false, moved;
    }
  }
}
