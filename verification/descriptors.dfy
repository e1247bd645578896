/** The three readable descriptors, abstracted as queues of what successive `read`
    calls return. The kernel, not the multiplexer, decides how input is chunked, so a
    queue holds whole deliveries; a read copies at most one 64-byte buffer of the
    delivery at its head and leaves any remainder queued. */
module Descriptors {
  import opened Bytes
  import opened Context

  /** `sizeof(buffer)` of every read in the relay loop. */
  const BufferSize: nat := 64

  /** Successive deliveries of one descriptor. An empty delivery, like an exhausted
      queue, stands for a `read` that returns 0 (end of stream) or -1 (error). */
  type Queue = seq<seq<byte>>

  /** What is waiting on each readable descriptor. */
  datatype Streams = Streams(keyboard: Queue, tty: Queue, pty: Queue)

  /** What one `read` returns: one to 64 bytes, or a result of at most zero. */
  datatype ReadResult = Got(bytes: seq<byte>) | Closed

  /** All bytes of a queue, in arrival order. */
  function Flatten(q: Queue): seq<byte>
  {
    if q == [] then [] else q[0] + Flatten(q[1..])
  }

  /** What is queued on an endpoint; nothing is ever read from the screen. */
  function Pending(s: Streams, e: Endpoint): Queue
  {
    match e
    case Keyboard => s.keyboard
    case Tty => s.tty
    case Pty => s.pty
    case Screen => []
  }

  /** A queue at its end: nothing more will arrive, or the delivery at its head is
      empty. A read of such a queue returns at most zero. */
  predicate AtEnd(q: Queue)
  {
    q == [] || q[0] == []
  }

  /** The bytes one read takes from a queue not at its end: the whole head delivery if
      it fits the buffer, else its first 64 bytes. */
  function NextChunk(q: Queue): seq<byte>
    requires !AtEnd(q)
  {
    q[0][..if |q[0]| < BufferSize then |q[0]| else BufferSize]
  }

  /** What is left queued after one read of a queue not at its end: the rest of the
      head delivery, if any, still at the head, then the later deliveries untouched. */
  function Remainder(q: Queue): Queue
    requires !AtEnd(q)
  {
    (if |q[0]| <= BufferSize then [] else [q[0][BufferSize..]]) + q[1..]
  }

  /** One `read(fd, buffer, 64)` on a queue: the result, and what remains queued. */
  function ReadChunk(q: Queue): (r: (ReadResult, Queue))
    ensures r.0.Got? ==> 1 <= |r.0.bytes| <= BufferSize
    ensures r.0.Got? ==> r.0.bytes + Flatten(r.1) == Flatten(q)
    ensures r.0.Closed? <==> AtEnd(q)
    ensures r.0.Closed? ==> r.1 == q
    ensures r.0.Got? ==> r.0.bytes == NextChunk(q) && r.1 == Remainder(q)
  {
    if q == [] || q[0] == [] then (Closed, q)
    else if |q[0]| <= BufferSize then (Got(q[0]), q[1..])
    else
      var rest := [q[0][BufferSize..]] + q[1..];
      assert rest[0] == q[0][BufferSize..] && rest[1..] == q[1..];
      assert q[0] == q[0][..BufferSize] + q[0][BufferSize..];
      (Got(q[0][..BufferSize]), rest)
  }

  /** The streams with the queue of endpoint `e` replaced. */
  function WithPending(s: Streams, e: Endpoint, q: Queue): Streams
  {
    match e
    case Keyboard => s.(keyboard := q)
    case Tty => s.(tty := q)
    case Pty => s.(pty := q)
    case Screen => s
  }

  /** One read on a readable endpoint. Only that endpoint's queue moves, and the bytes
      returned are exactly the ones that leave it. */
  function ReadDescriptor(s: Streams, e: Endpoint): (r: (ReadResult, Streams))
    requires e != Screen
    ensures r.0.Got? ==> 1 <= |r.0.bytes| <= BufferSize
    ensures r.0.Got? ==> Flatten(Pending(s, e)) == r.0.bytes + Flatten(Pending(r.1, e))
    ensures r.0.Closed? <==> AtEnd(Pending(s, e))
    ensures r.0.Closed? ==> r.1 == s
    ensures r.0.Got? ==> r.0.bytes == NextChunk(Pending(s, e)) && Pending(r.1, e) == Remainder(Pending(s, e))
    ensures forall x :: x != e ==> Pending(r.1, x) == Pending(s, x)
  {
    var (res, q) := ReadChunk(Pending(s, e));
    (res, WithPending(s, e, q))
  }
}
