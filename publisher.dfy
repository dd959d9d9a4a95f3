/** The hand-off to the publisher task: a bounded queue whose send never
    waits; a message that finds the queue full is dropped. */
module Publisher {

  datatype PublisherCmd = PublishMqttMsg

  /** The queue element: a command and the confirmed label's text. */
  datatype PublisherData = PublisherData(cmd: PublisherCmd, data: string)

  /** The queue contents after a non-blocking send. */
  function Offer(items: seq<PublisherData>, capacity: nat, m: PublisherData): (r: seq<PublisherData>)
    ensures |items| <= capacity ==> |r| <= capacity
    ensures |items| < capacity <==> r == items + [m]
    ensures |items| >= capacity ==> r == items
  {
    if |items| < capacity then items + [m] else items
  }

  class PublisherQueue {
    const capacity: nat
    var items: seq<PublisherData>

    ghost predicate Valid()
      reads this
    {
      |items| <= capacity
    }

    constructor (capacity: nat)
      ensures Valid() && this.capacity == capacity && items == []
    {
      this.capacity := capacity;
      items := [];
    }

    /** Send without waiting: returns whether the message was queued. */
    method TrySend(m: PublisherData) returns (sent: bool)
      requires Valid()
      modifies this
      ensures Valid()
      ensures sent == (|old(items)| < capacity)
      ensures items == Offer(old(items), capacity, m)
    {
      sent := |items| < capacity;
      if sent {
        items := items + [m];
      }
    }
  }

  /** However many sends reach a full queue, each one returns at once and
      leaves the queue as it was. */
  lemma {:induction false} SaturatedQueueDropsAll(items: seq<PublisherData>, capacity: nat, ms: seq<PublisherData>)
    requires |items| >= capacity
    ensures OfferAll(items, capacity, ms) == items
    decreases |ms|
  {
    if ms != [] {
      SaturatedQueueDropsAll(items, capacity, ms[1..]);
    }
  }

  /** Several sends in order. */
  function OfferAll(items: seq<PublisherData>, capacity: nat, ms: seq<PublisherData>): seq<PublisherData>
    decreases |ms|
  {
    if ms == [] then items else OfferAll(Offer(items, capacity, ms[0]), capacity, ms[1..])
  }
}
