/** Values shared by every volume: IO directions, completion codes, the per-direction
    counters and the two request shapes the engine hands to a volume (a legacy IO
    object and a forward token). */
module IoTypes {

  datatype Option<T> = None | Some(value: T)

  /** IoDir.READ = 0, IoDir.WRITE = 1 in the engine's numbering. */
  datatype IoDir = Read | Write

  function Other(d: IoDir): IoDir
  {
    if d == Read then Write else Read
  }

  /** The code a completion carries: 0 or a negated OCF error code. */
  datatype Status = Success | ErrIo | ErrNotSupp | ErrNotOpenExc

  /** A record with one entry per direction: the `{IoDir.WRITE: .., IoDir.READ: ..}`
      dictionaries of the volume statistics and of the fault-injection state. */
  datatype PerDir<T> = PerDir(read: T, write: T)
  {
    function Get(d: IoDir): T
    {
      if d == Read then read else write
    }

    function Set(d: IoDir, v: T): (r: PerDir<T>)
      ensures r.Get(d) == v
      ensures r.Get(Other(d)) == Get(Other(d))
    {
      if d == Read then PerDir(v, write) else PerDir(read, v)
    }
  }

  const ZeroCounts: PerDir<nat> := PerDir(0, 0)

  /** Adds one to the counter of direction `d` (`stats[d] += 1`). */
  function Inc(c: PerDir<nat>, d: IoDir): (r: PerDir<nat>)
    ensures r.Get(d) == c.Get(d) + 1
    ensures r.Get(Other(d)) == c.Get(Other(d))
  {
    c.Set(d, c.Get(d) + 1)
  }

  /** IoFlags.FLUSH */
  const FLUSH_FLAG: nat := 1

  /** `flags & IoFlags.FLUSH` is nonzero. */
  predicate HasFlush(flags: nat)
  {
    flags % (2 * FLUSH_FLAG) >= FLUSH_FLAG
  }

  /** TraceDevice.IoType: the classification passed to a trace predicate. */
  datatype IoType = DataIo | FlushIo | DiscardIo

  /** A legacy-protocol IO object: what the engine fills in (direction, address, length,
      flags), the data buffer attached to it with its private offset cursor, and the
      completion codes delivered through its `_end` callback, in order. */
  class Io {
    const dir: IoDir
    const addr: nat
    const bytes: nat
    const flags: nat
    const data: array<bv8>
    var offset: nat
    var ends: seq<Status>

    constructor (dir: IoDir, addr: nat, bytes: nat, flags: nat, data: array<bv8>, offset: nat)
      ensures this.dir == dir && this.addr == addr && this.bytes == bytes && this.flags == flags
      ensures this.data == data && this.offset == offset && ends == []
    {
      this.dir, this.addr, this.bytes, this.flags := dir, addr, bytes, flags;
      this.data, this.offset := data, offset;
      ends := [];
    }

    /** `io.contents._end(io, code)` */
    method End(code: Status)
      modifies this`ends
      ensures ends == old(ends) + [code]
    {
      ends := ends + [code];
    }
  }

  /** A forward-protocol token: it resolves to the IO object it was issued for
      (`Io.get_by_forward_token`), and records the codes delivered through
      `Io.forward_end(token, code)`, in order. */
  class ForwardToken {
    const io: Io
    var ends: seq<Status>

    constructor (io: Io)
      ensures this.io == io && ends == []
    {
      this.io := io;
      ends := [];
    }

    /** `Io.forward_end(token, code)` */
    method End(code: Status)
      modifies this`ends
      ensures ends == old(ends) + [code]
    {
      ends := ends + [code];
    }
  }
}
