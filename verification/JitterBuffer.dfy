/** The bounded FIFO that absorbs bursts under arrival clocking
    (src/jitter_buffer.rs): it sheds the oldest packet, and only ever grows. */
module JitterBuffers {
  import opened Prelude
  import opened Packets

  datatype Fifo = Fifo(queue: seq<Packet>, capacity: Positive)
  {
    /** Push, the oldest packet making way when full. */
    function Push(p: Packet): Fifo {
      this.(queue := (if |queue| >= capacity then queue[1..] else queue) + [p])
    }

    function Drops(): nat {
      if |queue| >= capacity then 1 else 0
    }
  }

  class JitterBuffer {
    var queue: seq<Packet>
    var capacity: Positive

    ghost function State(): Fifo
      reads this
    {
      Fifo(queue, capacity)
    }

    constructor (capacity: nat)
      ensures State() == Fifo([], Max(capacity, 1))
    {
      queue, this.capacity := [], Max(capacity, 1);
    }

    /** Raise the capacity, never lowering it. */
    method GrowTo(bound: nat)
      modifies this`capacity
      ensures capacity == Max(old(capacity), bound)
    {
      capacity := Max(capacity, Max(bound, 1));
    }

    method Push(p: Packet) returns (dropped: bool)
      modifies this`queue
      ensures State() == old(State()).Push(p)
      ensures dropped <==> old(State()).Drops() == 1
    {
      dropped := false;
      if |queue| >= capacity {
        queue := queue[1..];
        dropped := true;
      }
      queue := queue + [p];
    }

    method Pop() returns (p: Option<Packet>)
      modifies this`queue
      ensures if old(queue) == [] then p == None && queue == []
        else p == Some(old(queue)[0]) && queue == old(queue)[1..]
    {
      if queue == [] {
        return None;
      }
      p := Some(queue[0]);
      queue := queue[1..];
    }

    function Room(): (room: nat)
      reads this
      ensures |queue| <= capacity ==> |queue| + room == capacity
      ensures |queue| > capacity ==> room == 0
    {
      SatSub(capacity, |queue|)
    }
  }

  function PushAll(f: Fifo, packets: seq<Packet>): Fifo
    decreases |packets|
  {
    if packets == [] then f else PushAll(f.Push(packets[0]), packets[1..])
  }

  /** Fed without being popped, a buffer within its bound holds the newest packets of
      everything it was given, as many as fit and none out of order. */
  lemma {:induction false} HoldsTheNewest(f: Fifo, packets: seq<Packet>)
    requires |f.queue| <= f.capacity
    ensures
      var all := f.queue + packets;
      PushAll(f, packets).queue == all[SatSub(|all|, f.capacity)..]
    decreases |packets|
  {
    var all := f.queue + packets;
    if packets == [] {
    } else {
      var pushed := f.Push(packets[0]);
      HoldsTheNewest(pushed, packets[1..]);
      var rest := pushed.queue + packets[1..];
      if |f.queue| >= f.capacity {
        assert rest == all[1..];
      } else {
        assert rest == all;
      }
    }
  }
}
