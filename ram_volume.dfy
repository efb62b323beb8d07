/** RamVolume: the in-memory backing store. A fixed-size byte buffer filled with the
    poison byte when created or resized; reads and writes copy between it and the data
    buffer attached to a request, discard zero-fills a range, flush does nothing. */
module RamVolumes {
  import opened IoTypes
  import opened Memory
  import opened VolumeBase

  /** The byte a fresh or resized RamVolume holds everywhere. */
  const VOLUME_POISON: bv8 := 0x13

  /** `n` poison bytes. */
  function PoisonBytes(n: nat): seq<bv8>
  {
    seq(n, _ => VOLUME_POISON)
  }

  /** `get_max_io_size`: 128 KiB. */
  const MAX_IO_SIZE: nat := 128 * 1024

  /** The contents of the volume and of the attached data buffer after one request, the
      buffer's offset cursor, and the code the request completes with. */
  datatype Outcome = Outcome(volume: seq<bv8>, buffer: seq<bv8>, offset: nat, status: Status)

  /** The copy `memmove` performs for a read or a write of `bytes` bytes between the
      volume at `addr` and the buffer at `offset`; the offset cursor is left alone. A
      range that does not fit either side completes with an IO error and moves nothing. */
  function Move(volume: seq<bv8>, buffer: seq<bv8>, dir: IoDir, addr: nat, bytes: nat, offset: nat): (r: Outcome)
    ensures |r.volume| == |volume| && |r.buffer| == |buffer| && r.offset == offset
    ensures r.status == (if addr + bytes <= |volume| && offset + bytes <= |buffer| then Success else ErrIo)
    ensures r.status != Success ==> r.volume == volume && r.buffer == buffer
    ensures dir == Read ==> r.volume == volume
    ensures dir == Write ==> r.buffer == buffer
    ensures r.status == Success && dir == Write ==>
      (forall i :: addr <= i < addr + bytes ==> r.volume[i] == buffer[offset + i - addr]) &&
      (forall i :: 0 <= i < |volume| && !(addr <= i < addr + bytes) ==> r.volume[i] == volume[i])
    ensures r.status == Success && dir == Read ==>
      (forall i :: offset <= i < offset + bytes ==> r.buffer[i] == volume[addr + i - offset]) &&
      (forall i :: 0 <= i < |buffer| && !(offset <= i < offset + bytes) ==> r.buffer[i] == buffer[i])
  {
    if addr + bytes <= |volume| && offset + bytes <= |buffer| then
      match dir
      case Write => Outcome(Splice(volume, addr, buffer[offset..offset + bytes]), buffer, offset, Success)
      case Read => Outcome(volume, Splice(buffer, offset, volume[addr..addr + bytes]), offset, Success)
    else
      Outcome(volume, buffer, offset, ErrIo)
  }

  /** `do_submit_io` of the legacy protocol: an IO carrying the FLUSH flag is a flush and
      moves nothing; otherwise the data moves and, on success, the offset cursor
      advances by the number of bytes moved. */
  function SubmitIoOutcome(volume: seq<bv8>, buffer: seq<bv8>, dir: IoDir, addr: nat, bytes: nat, flags: nat, offset: nat): (r: Outcome)
    ensures |r.volume| == |volume| && |r.buffer| == |buffer|
    ensures HasFlush(flags) ==> r == Outcome(volume, buffer, offset, Success)
    ensures r.offset == if r.status == Success && !HasFlush(flags) then offset + bytes else offset
  {
    if HasFlush(flags) then
      Outcome(volume, buffer, offset, Success)
    else
      var m := Move(volume, buffer, dir, addr, bytes, offset);
      m.(offset := if m.status == Success then offset + bytes else offset)
  }

  /** `do_submit_discard` / `do_forward_discard`: zero-fill `[addr, addr + bytes)`; a
      range outside the volume completes with NOT_SUPP and changes nothing. */
  function Discard(volume: seq<bv8>, addr: nat, bytes: nat): (r: Outcome)
    ensures |r.volume| == |volume|
    ensures r.status == (if addr + bytes <= |volume| then Success else ErrNotSupp)
    ensures r.status == Success ==>
      (forall i :: addr <= i < addr + bytes ==> r.volume[i] == 0) &&
      (forall i :: 0 <= i < |volume| && !(addr <= i < addr + bytes) ==> r.volume[i] == volume[i])
    ensures r.status != Success ==> r.volume == volume
  {
    if addr + bytes <= |volume| then Outcome(Fill(volume, addr, bytes, 0), [], 0, Success)
    else Outcome(volume, [], 0, ErrNotSupp)
  }

  /** A legacy write of `bytes` bytes at `addr` followed by a legacy read of the same range
      returns the bytes written, and each advances its own cursor by `bytes`. */
  lemma WriteThenRead(volume: seq<bv8>, src: seq<bv8>, dst: seq<bv8>, addr: nat, bytes: nat,
                      srcOffset: nat, dstOffset: nat, wflags: nat, rflags: nat)
    requires !HasFlush(wflags) && !HasFlush(rflags)
    requires addr + bytes <= |volume| && srcOffset + bytes <= |src| && dstOffset + bytes <= |dst|
    ensures var w := SubmitIoOutcome(volume, src, Write, addr, bytes, wflags, srcOffset);
            var r := SubmitIoOutcome(w.volume, dst, Read, addr, bytes, rflags, dstOffset);
            && w.status == Success && r.status == Success
            && w.offset == srcOffset + bytes && r.offset == dstOffset + bytes
            && r.buffer[dstOffset..dstOffset + bytes] == src[srcOffset..srcOffset + bytes]
  {
    var w := SubmitIoOutcome(volume, src, Write, addr, bytes, wflags, srcOffset);
    var r := SubmitIoOutcome(w.volume, dst, Read, addr, bytes, rflags, dstOffset);
    forall i | dstOffset <= i < dstOffset + bytes
      ensures r.buffer[i] == src[srcOffset + i - dstOffset]
    {
      assert r.buffer[i] == w.volume[addr + i - dstOffset];
    }
    assert r.buffer[dstOffset..dstOffset + bytes] == src[srcOffset..srcOffset + bytes];
  }

  /** A write leaves every byte outside its range as it was: reading a range that does
      not overlap the write returns what was there before it. */
  lemma WriteLeavesOtherRanges(volume: seq<bv8>, src: seq<bv8>, dst: seq<bv8>, waddr: nat, raddr: nat,
                               bytes: nat, rbytes: nat, srcOffset: nat, dstOffset: nat)
    requires waddr + bytes <= |volume| && srcOffset + bytes <= |src|
    requires raddr + rbytes <= |volume| && dstOffset + rbytes <= |dst|
    requires raddr + rbytes <= waddr || waddr + bytes <= raddr
    ensures var w := Move(volume, src, Write, waddr, bytes, srcOffset);
            var r := Move(w.volume, dst, Read, raddr, rbytes, dstOffset);
            r.status == Success && r.buffer[dstOffset..dstOffset + rbytes] == volume[raddr..raddr + rbytes]
  {
    var w := Move(volume, src, Write, waddr, bytes, srcOffset);
    var r := Move(w.volume, dst, Read, raddr, rbytes, dstOffset);
    forall i | dstOffset <= i < dstOffset + rbytes
      ensures r.buffer[i] == volume[raddr + i - dstOffset]
    {
      assert r.buffer[i] == w.volume[raddr + i - dstOffset];
    }
    assert r.buffer[dstOffset..dstOffset + rbytes] == volume[raddr..raddr + rbytes];
  }

  /** The scenario below, on contents: after 4 KiB of pattern are written at 0 into a
      poisoned 64 KiB volume, the 4 KiB at 0 read back as the pattern and the 4 KiB at
      4096 are still poison. */
  lemma ScenarioContents(blank: seq<bv8>, pattern: seq<bv8>, dst1: seq<bv8>, dst2: seq<bv8>)
    requires |blank| == 64 * 1024 && |pattern| == 4096 && |dst1| == 4096 && |dst2| == 4096
    requires blank == PoisonBytes(64 * 1024)
    ensures var w := SubmitIoOutcome(blank, pattern, Write, 0, 4096, 0, 0);
            && SubmitIoOutcome(w.volume, dst1, Read, 0, 4096, 0, 0).buffer == pattern
            && SubmitIoOutcome(w.volume, dst2, Read, 4096, 4096, 0, 0).buffer == PoisonBytes(4096)
  {
    var w := SubmitIoOutcome(blank, pattern, Write, 0, 4096, 0, 0);
    WriteThenRead(blank, pattern, dst1, 0, 4096, 0, 0, 0, 0);
    assert SubmitIoOutcome(w.volume, dst1, Read, 0, 4096, 0, 0).buffer
        == SubmitIoOutcome(w.volume, dst1, Read, 0, 4096, 0, 0).buffer[0..4096];
    WriteLeavesOtherRanges(blank, pattern, dst2, 0, 4096, 4096, 4096, 0, 0);
    assert blank[4096..8192] == PoisonBytes(4096);
  }

  class RamVolume {
    const base: Volume
    var size: nat
    var data: array<bv8>

    ghost predicate Valid()
      reads this
    {
      data.Length == size
    }

    /** A new volume of `size` bytes, every one of them the poison byte. */
    constructor (size: nat)
      ensures Valid() && this.size == size && fresh(base) && fresh(data)
      ensures !base.isOpened && base.isOnline && base.stats == ZeroCounts
      ensures data[..] == PoisonBytes(size)
    {
      base := new Volume();
      this.size := size;
      data := new bv8[size];
      new;
      Memset(data, 0, size, VOLUME_POISON);
      assert data[..] == PoisonBytes(size);
    }

    /** A new volume of the same size and contents, in a buffer of its own. */
    method GetCopy() returns (v: RamVolume)
      requires Valid()
      ensures fresh(v) && fresh(v.base) && fresh(v.data) && v.Valid()
      ensures v.size == size && v.data[..] == data[..]
      ensures !v.base.isOpened && v.base.isOnline && v.base.stats == ZeroCounts
    {
      v := new RamVolume(size);
      Memmove(v.data, 0, data, 0, size);
      assert v.data[..] == data[..size];
    }

    function GetLength(): (n: nat)
      reads this
      requires Valid()
      ensures n == data.Length
    {
      size
    }

    /** 128 KiB, whatever the volume's size. */
    function GetMaxIoSize(): (n: nat)
      ensures n == 128 * 1024
    {
      MAX_IO_SIZE
    }

    /** Replaces the buffer by a new one of `n` bytes, all poison: nothing of the old
        contents is kept. */
    method Resize(n: nat)
      modifies this`size, this`data
      ensures Valid() && size == n && fresh(data)
      ensures data[..] == PoisonBytes(n)
    {
      size := n;
      data := new bv8[n];
      Memset(data, 0, n, VOLUME_POISON);
      assert data[..] == PoisonBytes(n);
    }

    /** The effect `do_submit_io` has on the volume, the request's buffer, its cursor and
        its completions. */
    twostate predicate IoApplied(io: Io)
      reads this, data, io, io.data
    {
      var r := SubmitIoOutcome(old(data[..]), old(io.data[..]), io.dir, io.addr, io.bytes, io.flags, old(io.offset));
      data[..] == r.volume && io.data[..] == r.buffer && io.offset == r.offset && io.ends == old(io.ends) + [r.status]
    }

    /** The effect `do_forward_io` has: the same copy, no cursor, completion on the token. */
    twostate predicate ForwardIoApplied(token: ForwardToken, dir: IoDir, addr: nat, nbytes: nat, offset: nat)
      reads this, data, token, token.io.data
    {
      var r := Move(old(data[..]), old(token.io.data[..]), dir, addr, nbytes, offset);
      data[..] == r.volume && token.io.data[..] == r.buffer && token.ends == old(token.ends) + [r.status]
    }

    twostate predicate DiscardApplied(addr: nat, bytes: nat, ends: seq<Status>, oldEnds: seq<Status>)
      reads this, data
    {
      var r := Discard(old(data[..]), addr, bytes);
      data[..] == r.volume && ends == oldEnds + [r.status]
    }

    method DoSubmitFlush(io: Io)
      modifies io`ends
      ensures io.ends == old(io.ends) + [Success]
    {
      io.End(Success);
    }

    method DoSubmitDiscard(io: Io)
      requires Valid()
      modifies data, io`ends
      ensures DiscardApplied(io.addr, io.bytes, io.ends, old(io.ends))
    {
      if io.addr + io.bytes <= data.Length {
        Memset(data, io.addr, io.bytes, 0);
        io.End(Success);
      } else {
        io.End(ErrNotSupp);
      }
    }

    method DoSubmitIo(io: Io)
      requires Valid() && io.data != data
      modifies data, io`offset, io`ends, io.data
      ensures IoApplied(io)
    {
      if HasFlush(io.flags) {
        DoSubmitFlush(io);
        return;
      }
      if io.addr + io.bytes <= data.Length && io.offset + io.bytes <= io.data.Length {
        if io.dir == Write {
          Memmove(data, io.addr, io.data, io.offset, io.bytes);
        } else {
          Memmove(io.data, io.offset, data, io.addr, io.bytes);
        }
        io.offset := io.offset + io.bytes;
        io.End(Success);
      } else {
        io.End(ErrIo);
      }
    }

    method DoForwardIo(token: ForwardToken, dir: IoDir, addr: nat, nbytes: nat, offset: nat)
      requires Valid() && token.io.data != data
      modifies data, token`ends, token.io.data
      ensures ForwardIoApplied(token, dir, addr, nbytes, offset)
    {
      var buffer := token.io.data;
      if addr + nbytes <= data.Length && offset + nbytes <= buffer.Length {
        if dir == Write {
          Memmove(data, addr, buffer, offset, nbytes);
        } else {
          Memmove(buffer, offset, data, addr, nbytes);
        }
        token.End(Success);
      } else {
        token.End(ErrIo);
      }
    }

    method DoForwardFlush(token: ForwardToken)
      modifies token`ends
      ensures token.ends == old(token.ends) + [Success]
    {
      token.End(Success);
    }

    method DoForwardDiscard(token: ForwardToken, addr: nat, nbytes: nat)
      requires Valid()
      modifies data, token`ends
      ensures DiscardApplied(addr, nbytes, token.ends, old(token.ends))
    {
      if addr + nbytes <= data.Length {
        Memset(data, addr, nbytes, 0);
        token.End(Success);
      } else {
        token.End(ErrNotSupp);
      }
    }

    /** submit_io: counted and carried out when online, refused with an IO error when
        offline, in which case nothing else happens. */
    method SubmitIo(io: Io)
      requires Valid() && io.data != data
      modifies base`stats, data, io`offset, io`ends, io.data
      ensures old(base.isOnline) ==> base.stats == Inc(old(base.stats), io.dir) && IoApplied(io)
      ensures !old(base.isOnline) ==>
        && base.stats == old(base.stats) && io.ends == old(io.ends) + [ErrIo]
        && io.offset == old(io.offset) && unchanged(data, io.data)
    {
      if base.isOnline {
        base.IncStats(io.dir);
        DoSubmitIo(io);
      } else {
        io.End(ErrIo);
      }
    }

    /** submit_flush: never counted. */
    method SubmitFlush(io: Io)
      modifies io`ends
      ensures io.ends == old(io.ends) + [if base.isOnline then Success else ErrIo]
    {
      if base.isOnline {
        DoSubmitFlush(io);
      } else {
        io.End(ErrIo);
      }
    }

    /** submit_discard: never counted. */
    method SubmitDiscard(io: Io)
      requires Valid()
      modifies data, io`ends
      ensures base.isOnline ==> DiscardApplied(io.addr, io.bytes, io.ends, old(io.ends))
      ensures !base.isOnline ==> io.ends == old(io.ends) + [ErrIo] && unchanged(data)
    {
      if base.isOnline {
        DoSubmitDiscard(io);
      } else {
        io.End(ErrIo);
      }
    }

    method ForwardIo(token: ForwardToken, dir: IoDir, addr: nat, nbytes: nat, offset: nat)
      requires Valid() && token.io.data != data
      modifies base`stats, data, token`ends, token.io.data
      ensures old(base.isOnline) ==> base.stats == Inc(old(base.stats), dir) && ForwardIoApplied(token, dir, addr, nbytes, offset)
      ensures !old(base.isOnline) ==>
        base.stats == old(base.stats) && token.ends == old(token.ends) + [ErrIo] && unchanged(data, token.io.data)
    {
      if base.isOnline {
        base.IncStats(dir);
        DoForwardIo(token, dir, addr, nbytes, offset);
      } else {
        token.End(ErrIo);
      }
    }

    method ForwardFlush(token: ForwardToken)
      modifies token`ends
      ensures token.ends == old(token.ends) + [if base.isOnline then Success else ErrIo]
    {
      if base.isOnline {
        DoForwardFlush(token);
      } else {
        token.End(ErrIo);
      }
    }

    method ForwardDiscard(token: ForwardToken, addr: nat, nbytes: nat)
      requires Valid()
      modifies data, token`ends
      ensures base.isOnline ==> DiscardApplied(addr, nbytes, token.ends, old(token.ends))
      ensures !base.isOnline ==> token.ends == old(token.ends) + [ErrIo] && unchanged(data)
    {
      if base.isOnline {
        DoForwardDiscard(token, addr, nbytes);
      } else {
        token.End(ErrIo);
      }
    }
  }

  /** A 64 KiB volume, 4 KiB of pattern written at offset 0 through submit_io: reading
      4 KiB back at 0 through submit_io gives the pattern. */
  method PatternScenario(pattern: seq<bv8>) returns (first: seq<bv8>)
    requires |pattern| == 4096
    ensures first == pattern
  {
    var vol := new RamVolume(64 * 1024);
    ghost var blank := vol.data[..];
    var src := new bv8[4096](i => if 0 <= i < |pattern| then pattern[i] else 0);
    assert src[..] == pattern;
    var w := new Io(Write, 0, 4096, 0, src, 0);
    vol.SubmitIo(w);
    ghost var written := vol.data[..];
    assert written == SubmitIoOutcome(blank, pattern, Write, 0, 4096, 0, 0).volume;

    var dst := new bv8[4096];
    ghost var empty := dst[..];
    var r := new Io(Read, 0, 4096, 0, dst, 0);
    vol.SubmitIo(r);
    first := dst[..];
    assert first == SubmitIoOutcome(written, empty, Read, 0, 4096, 0, 0).buffer;
    ScenarioContents(blank, pattern, empty, empty);
  }
}
