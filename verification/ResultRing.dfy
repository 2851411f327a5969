/** The fixed two-slot result ring and the queue it stands for. */
module ResultRing {
  import opened CommandTable
  import opened DriverTypes

  /** The queued results, oldest first. */
  function Contents(slots: seq<OperationResult>, head: nat, count: nat): (queue: seq<OperationResult>)
    requires |slots| == RESULT_CAPACITY && head < RESULT_CAPACITY && count <= RESULT_CAPACITY
    ensures |queue| == count && (count == 0 ==> queue == [])
  {
    seq(count, i requires 0 <= i < count => slots[(head + i) % RESULT_CAPACITY])
  }

  function Tail(head: nat, count: nat): (tail: nat)
    requires head < RESULT_CAPACITY && count <= RESULT_CAPACITY
    ensures tail < RESULT_CAPACITY
  {
    (head + count) % RESULT_CAPACITY
  }

  /** Writing the tail slot of a ring with a free slot appends, and overwrites
      no unread result. */
  lemma PushAppends(slots: seq<OperationResult>, head: nat, count: nat, result: OperationResult)
    requires |slots| == RESULT_CAPACITY && head < RESULT_CAPACITY && count < RESULT_CAPACITY
    ensures Contents(slots[Tail(head, count) := result], head, count + 1) == Contents(slots, head, count) + [result]
  {
    var after := Contents(slots[Tail(head, count) := result], head, count + 1);
    assert count == 1 ==> after[0] == slots[head];
  }

  /** Clearing the head slot and stepping past it removes the oldest result. */
  lemma PopRemovesOldest(slots: seq<OperationResult>, head: nat, count: nat)
    requires |slots| == RESULT_CAPACITY && head < RESULT_CAPACITY && 0 < count <= RESULT_CAPACITY
    ensures slots[head] == Contents(slots, head, count)[0]
    ensures Contents(slots[head := NO_RESULT], (head + 1) % RESULT_CAPACITY, count - 1)
      == Contents(slots, head, count)[1..]
  {
  }
}
