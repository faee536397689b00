/**
 One sized WebSocket frame on the client: a buffer taken from the pool or newly made, filled
 in place, and returned at most once through a lease that all copies of the frame share.
 */
module FrameLeases {
  import opened Common

  const POOL_CAPACITY := 3

  /** A non-blocking send to the pool: when it is full the buffer is dropped. */
  function Offer<T>(pool: seq<T>, buffer: T): (r: seq<T>)
    ensures |r| <= POOL_CAPACITY <==> |pool| <= POOL_CAPACITY
  {
    if |pool| < POOL_CAPACITY then pool + [buffer] else pool
  }

  class BufferPool {
    var free: seq<array<byte>>

    constructor ()
      ensures free == []
    {
      free := [];
    }
  }

  class FrameLease {
    const pool: BufferPool
    var done: bool
    var data: array?<byte>

    constructor (pool: BufferPool, data: array<byte>)
      ensures this.pool == pool && this.data == data && !done
    {
      this.pool, this.data, done := pool, data, false;
    }

    /** Only the first call returns the buffer; every later one, from any copy, does nothing. */
    method Release()
      requires !done ==> data != null
      modifies this, pool
      ensures done && data == (if old(done) then old(data) else null)
      ensures pool.free == if old(done) then old(pool.free) else Offer(old(pool.free), old(data))
      ensures !old(done) && |old(pool.free)| < 3 ==> pool.free == old(pool.free) + [old(data)]
      ensures old(done) || |old(pool.free)| >= 3 ==> pool.free == old(pool.free)
    {
      if !done {
        if |pool.free| < POOL_CAPACITY {
          pool.free := pool.free + [data];
        }
        data := null;
        done := true;
      }
    }
  }

  /** What the connection yields next: nothing, a text message, or binary data that ends cleanly or not. */
  datatype Message = Unreadable | NotBinary | Binary(bytes: seq<byte>, clean: bool)

  datatype ReadError = NoMessage | WrongKind | ShortMessage | BrokenMessage | TooLong

  /** A frame as the consumer gets it; one read without a size owns its data and has no lease. */
  datatype StreamFrame = StreamFrame(data: array<byte>, lease: FrameLease?)

  /** The verdict on a message when exactly size bytes were asked for, or any number of them for size 0. */
  function Verdict(m: Message, size: nat): (e: Option<ReadError>)
    ensures e == None <==> m.Binary? && m.clean && (size == 0 || |m.bytes| == size)
  {
    match m
    case Unreadable => Some(NoMessage)
    case NotBinary => Some(WrongKind)
    case Binary(bytes, clean) =>
      if size == 0 then if clean then None else Some(BrokenMessage)
      else if |bytes| < size then Some(ShortMessage)
      else if |bytes| > size then Some(TooLong)
      else if !clean then Some(BrokenMessage)
      else None
  }

  ghost predicate Usable(pool: BufferPool, size: nat)
    reads pool
  {
    forall i :: 0 <= i < |pool.free| ==> pool.free[i].Length == size
  }

  /** The sized path, once the message is known to be binary. */
  method ReadSizedFrame(m: Message, pool: BufferPool, size: nat)
    returns (lease: FrameLease?, error: Option<ReadError>)
    requires m.Binary? && size > 0 && Usable(pool, size) && |pool.free| <= POOL_CAPACITY
    modifies pool, pool.free
    ensures Usable(pool, size) && error == Verdict(m, size)
    ensures lease != null <==> error == None
    ensures lease != null ==>
              && fresh(lease) && !lease.done && lease.pool == pool && lease.data != null
              && lease.data[..] == m.bytes
              && if old(pool.free) == [] then fresh(lease.data) && pool.free == []
                 else lease.data == old(pool.free)[0] && pool.free == old(pool.free)[1..]
    ensures error.Some? ==>
              if old(pool.free) == [] then |pool.free| == 1 && fresh(pool.free[0])
              else pool.free == old(pool.free)[1..] + [old(pool.free)[0]]
  {
    var buf: array<byte>;
    if pool.free != [] {
      buf := pool.free[0];
      pool.free := pool.free[1..];
    } else {
      buf := new byte[size](_ => 0);
    }
    ghost var rest := pool.free;
    var frame := new FrameLease(pool, buf);
    var n := if |m.bytes| < size then |m.bytes| else size;
    for i := 0 to n
      invariant pool.free == rest && !frame.done && frame.data == buf
      invariant buf[..i] == m.bytes[..i]
    {
      buf[i] := m.bytes[i];
    }
    if n < size {
      frame.Release();
      return null, Some(ShortMessage);
    }
    if |m.bytes| > size {
      frame.Release();
      return null, Some(TooLong);
    }
    if !m.clean {
      frame.Release();
      return null, Some(BrokenMessage);
    }
    return frame, None;
  }

  /**
   Read one frame. With a size, a good message arrives whole in a leased buffer, and a bad one puts
   the buffer straight back, so the pool never loses it. Without one, the message comes in a buffer
   of its own and the pool is not touched.
   */
  method ReadStreamFrame(m: Message, pool: BufferPool, size: nat)
    returns (frame: Option<StreamFrame>, error: Option<ReadError>)
    requires Usable(pool, size) && |pool.free| <= POOL_CAPACITY
    modifies pool, pool.free
    ensures Usable(pool, size) && error == Verdict(m, size)
    ensures m.Unreadable? ==> error == Some(NoMessage)
    ensures m.NotBinary? ==> error == Some(WrongKind)
    ensures m.Binary? && size == 0 ==> error == if m.clean then None else Some(BrokenMessage)
    ensures m.Binary? && size > 0 ==>
              && (error == Some(ShortMessage) <==> |m.bytes| < size)
              && (error == Some(TooLong) <==> |m.bytes| > size)
              && (error == Some(BrokenMessage) <==> |m.bytes| == size && !m.clean)
              && (error == None <==> |m.bytes| == size && m.clean)
    ensures frame.Some? <==> error == None
    ensures frame.Some? ==> frame.value.data[..] == m.bytes
    ensures frame.Some? && size == 0 ==> frame.value.lease == null && fresh(frame.value.data)
    ensures frame.Some? && size > 0 ==>
              var lease := frame.value.lease;
              && lease != null && fresh(lease) && !lease.done && lease.pool == pool && lease.data == frame.value.data
              && if old(pool.free) == [] then fresh(lease.data) && pool.free == []
                 else lease.data == old(pool.free)[0] && pool.free == old(pool.free)[1..]
    ensures !m.Binary? || size == 0 ==> pool.free == old(pool.free)
    ensures m.Binary? && error.Some? && size > 0 ==>
              if old(pool.free) == [] then |pool.free| == 1 && fresh(pool.free[0])
              else pool.free == old(pool.free)[1..] + [old(pool.free)[0]]
  {
    if m.Unreadable? {
      return None, Some(NoMessage);
    }
    if m.NotBinary? {
      return None, Some(WrongKind);
    }
    if size == 0 {
      if !m.clean {
        return None, Some(BrokenMessage);
      }
      var data := new byte[|m.bytes|](i requires 0 <= i < |m.bytes| => m.bytes[i]);
      return Some(StreamFrame(data, null)), None;
    }
    var lease;
    lease, error := ReadSizedFrame(m, pool, size);
    frame := if lease == null then None else Some(StreamFrame(lease.data, lease));
  }
}
