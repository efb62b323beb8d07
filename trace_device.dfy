/** TraceDevice: a decorator over a RamVolume that shows every operation to an optional
    trace predicate before passing it on. An operation the predicate refuses is dropped
    silently: it neither reaches the inner volume nor gets a completion. */
module Tracing {
  import opened IoTypes
  import opened VolumeBase
  import opened RamVolumes

  /** A trace predicate, called with the operation's classification, direction, address,
      length and flags; `true` lets the operation through. */
  type TraceFn = (IoType, IoDir, nat, nat, nat) -> bool

  /** `_trace`: with no predicate installed every operation goes through. */
  function Admits(traceFcn: Option<TraceFn>, t: IoType, dir: IoDir, addr: nat, nbytes: nat, flags: nat): (r: bool)
    ensures traceFcn.None? ==> r
    ensures traceFcn.Some? ==> (r <==> traceFcn.value(t, dir, addr, nbytes, flags))
  {
    match traceFcn
    case None => true
    case Some(f) => f(t, dir, addr, nbytes, flags)
  }

  /** A predicate that drops every operation of kind `t` and lets the others through. */
  function DropKind(t: IoType): TraceFn
  {
    (t': IoType, _: IoDir, _: nat, _: nat, _: nat) => t' != t
  }

  /** Dropping one kind of operation lets all the other kinds through, whatever their
      direction, address, length and flags. */
  lemma DropKindAdmitsOthers(t: IoType, t': IoType, dir: IoDir, addr: nat, nbytes: nat, flags: nat)
    ensures Admits(Some(DropKind(t)), t', dir, addr, nbytes, flags) <==> t' != t
  {
    assert DropKind(t)(t', dir, addr, nbytes, flags) == (t' != t);
  }

  class TraceDevice {
    const base: Volume
    const vol: RamVolume
    var traceFcn: Option<TraceFn>

    ghost predicate Valid()
      reads this, vol
    {
      vol.Valid() && base != vol.base
    }

    /** Unlike the fault-injecting decorator, construction leaves the inner volume alone. */
    constructor (vol: RamVolume, traceFcn: Option<TraceFn>)
      requires vol.Valid()
      ensures Valid() && this.vol == vol && this.traceFcn == traceFcn && fresh(base)
      ensures !base.isOpened && base.isOnline && base.stats == ZeroCounts
    {
      this.vol := vol;
      base := new Volume();
      this.traceFcn := traceFcn;
    }

    /** The inner volume is opened first; its failure is returned as is and this device
        is then left as it was. */
    method Open() returns (r: Status)
      requires Valid()
      modifies vol.base`isOpened, base`isOpened
      ensures vol.base.isOpened
      ensures old(vol.base.isOpened) ==> r == ErrNotOpenExc && base.isOpened == old(base.isOpened)
      ensures !old(vol.base.isOpened) ==> base.isOpened && r == (if old(base.isOpened) then ErrNotOpenExc else Success)
    {
      r := vol.base.Open();
      if r != Success {
        return;
      }
      r := base.Open();
    }

    method Close()
      requires Valid()
      modifies vol.base`isOpened, base`isOpened
      ensures !base.isOpened && !vol.base.isOpened
    {
      base.Close();
      vol.base.Close();
    }

    /** A submitted request is classified by its kind and described by its own fields. */
    function SubmitAdmits(t: IoType, io: Io): bool
      reads this
    {
      Admits(traceFcn, t, io.dir, io.addr, io.bytes, io.flags)
    }

    method DoSubmitIo(io: Io)
      requires Valid() && io.data != vol.data
      modifies vol.data, io`offset, io`ends, io.data
      ensures SubmitAdmits(DataIo, io) ==> vol.IoApplied(io)
      ensures !SubmitAdmits(DataIo, io) ==> unchanged(vol.data, io.data) && unchanged(io`offset, io`ends)
    {
      var submit := Admits(traceFcn, DataIo, io.dir, io.addr, io.bytes, io.flags);
      if submit {
        vol.DoSubmitIo(io);
      }
    }

    method DoSubmitFlush(io: Io)
      modifies io`ends
      ensures io.ends == old(io.ends) + if SubmitAdmits(FlushIo, io) then [Success] else []
    {
      var submit := Admits(traceFcn, FlushIo, io.dir, io.addr, io.bytes, io.flags);
      if submit {
        vol.DoSubmitFlush(io);
      }
    }

    method DoSubmitDiscard(io: Io)
      requires Valid()
      modifies vol.data, io`ends
      ensures SubmitAdmits(DiscardIo, io) ==> vol.DiscardApplied(io.addr, io.bytes, io.ends, old(io.ends))
      ensures !SubmitAdmits(DiscardIo, io) ==> unchanged(vol.data) && io.ends == old(io.ends)
    {
      var submit := Admits(traceFcn, DiscardIo, io.dir, io.addr, io.bytes, io.flags);
      if submit {
        vol.DoSubmitDiscard(io);
      }
    }

    /** A forwarded data request is described by the forwarded range and the flags of the
        request the token was issued for. */
    method DoForwardIo(token: ForwardToken, dir: IoDir, addr: nat, nbytes: nat, offset: nat)
      requires Valid() && token.io.data != vol.data
      modifies vol.data, token`ends, token.io.data
      ensures Admits(traceFcn, DataIo, dir, addr, nbytes, token.io.flags) ==> vol.ForwardIoApplied(token, dir, addr, nbytes, offset)
      ensures !Admits(traceFcn, DataIo, dir, addr, nbytes, token.io.flags) ==> unchanged(vol.data, token.io.data) && token.ends == old(token.ends)
    {
      var submit := Admits(traceFcn, DataIo, dir, addr, nbytes, token.io.flags);
      if submit {
        vol.DoForwardIo(token, dir, addr, nbytes, offset);
      }
    }

    /** A forwarded flush is shown as a write of zero bytes at address 0. */
    method DoForwardFlush(token: ForwardToken)
      modifies token`ends
      ensures token.ends == old(token.ends) + if Admits(traceFcn, FlushIo, Write, 0, 0, token.io.flags) then [Success] else []
    {
      var submit := Admits(traceFcn, FlushIo, Write, 0, 0, token.io.flags);
      if submit {
        vol.DoForwardFlush(token);
      }
    }

    /** A forwarded discard is shown as a write over the discarded range. */
    method DoForwardDiscard(token: ForwardToken, addr: nat, nbytes: nat)
      requires Valid()
      modifies vol.data, token`ends
      ensures Admits(traceFcn, DiscardIo, Write, addr, nbytes, token.io.flags) ==> vol.DiscardApplied(addr, nbytes, token.ends, old(token.ends))
      ensures !Admits(traceFcn, DiscardIo, Write, addr, nbytes, token.io.flags) ==> unchanged(vol.data) && token.ends == old(token.ends)
    {
      var submit := Admits(traceFcn, DiscardIo, Write, addr, nbytes, token.io.flags);
      if submit {
        vol.DoForwardDiscard(token, addr, nbytes);
      }
    }

    method SubmitIo(io: Io)
      requires Valid() && io.data != vol.data
      modifies base`stats, vol.data, io`offset, io`ends, io.data
      ensures old(base.isOnline) ==> base.stats == Inc(old(base.stats), io.dir)
      ensures old(base.isOnline) && SubmitAdmits(DataIo, io) ==> vol.IoApplied(io)
      ensures old(base.isOnline) && !SubmitAdmits(DataIo, io) ==> unchanged(vol.data, io.data) && unchanged(io`offset, io`ends)
      ensures !old(base.isOnline) ==>
        && base.stats == old(base.stats) && io.ends == old(io.ends) + [ErrIo]
        && io.offset == old(io.offset) && unchanged(vol.data, io.data)
    {
      if base.isOnline {
        base.IncStats(io.dir);
        DoSubmitIo(io);
      } else {
        io.End(ErrIo);
      }
    }

    method SubmitFlush(io: Io)
      modifies io`ends
      ensures io.ends == old(io.ends) +
        if !base.isOnline then [ErrIo] else if SubmitAdmits(FlushIo, io) then [Success] else []
    {
      if base.isOnline {
        DoSubmitFlush(io);
      } else {
        io.End(ErrIo);
      }
    }

    method SubmitDiscard(io: Io)
      requires Valid()
      modifies vol.data, io`ends
      ensures base.isOnline && SubmitAdmits(DiscardIo, io) ==> vol.DiscardApplied(io.addr, io.bytes, io.ends, old(io.ends))
      ensures base.isOnline && !SubmitAdmits(DiscardIo, io) ==> unchanged(vol.data) && io.ends == old(io.ends)
      ensures !base.isOnline ==> unchanged(vol.data) && io.ends == old(io.ends) + [ErrIo]
    {
      if base.isOnline {
        DoSubmitDiscard(io);
      } else {
        io.End(ErrIo);
      }
    }

    method ForwardIo(token: ForwardToken, dir: IoDir, addr: nat, nbytes: nat, offset: nat)
      requires Valid() && token.io.data != vol.data
      modifies base`stats, vol.data, token`ends, token.io.data
      ensures old(base.isOnline) ==> base.stats == Inc(old(base.stats), dir)
      ensures old(base.isOnline) && Admits(traceFcn, DataIo, dir, addr, nbytes, token.io.flags) ==>
        vol.ForwardIoApplied(token, dir, addr, nbytes, offset)
      ensures old(base.isOnline) && !Admits(traceFcn, DataIo, dir, addr, nbytes, token.io.flags) ==>
        unchanged(vol.data, token.io.data) && token.ends == old(token.ends)
      ensures !old(base.isOnline) ==>
        base.stats == old(base.stats) && token.ends == old(token.ends) + [ErrIo] && unchanged(vol.data, token.io.data)
    {
      if base.isOnline {
        base.IncStats(dir);
        DoForwardIo(token, dir, addr, nbytes, offset);
      } else {
        token.End(ErrIo);
      }
    }

    method ForwardFlush(token: ForwardToken)
      modifies token`ends
      ensures token.ends == old(token.ends) +
        if !base.isOnline then [ErrIo]
        else if Admits(traceFcn, FlushIo, Write, 0, 0, token.io.flags) then [Success] else []
    {
      if base.isOnline {
        DoForwardFlush(token);
      } else {
        token.End(ErrIo);
      }
    }

    method ForwardDiscard(token: ForwardToken, addr: nat, nbytes: nat)
      requires Valid()
      modifies vol.data, token`ends
      ensures base.isOnline && Admits(traceFcn, DiscardIo, Write, addr, nbytes, token.io.flags) ==>
        vol.DiscardApplied(addr, nbytes, token.ends, old(token.ends))
      ensures base.isOnline && !Admits(traceFcn, DiscardIo, Write, addr, nbytes, token.io.flags) ==>
        unchanged(vol.data) && token.ends == old(token.ends)
      ensures !base.isOnline ==> unchanged(vol.data) && token.ends == old(token.ends) + [ErrIo]
    {
      if base.isOnline {
        DoForwardDiscard(token, addr, nbytes);
      } else {
        token.End(ErrIo);
      }
    }

    function GetLength(): (n: nat)
      reads this, vol
      requires Valid()
      ensures n == vol.data.Length
    {
      vol.GetLength()
    }

    function GetMaxIoSize(): (n: nat)
      ensures n == vol.GetMaxIoSize()
    {
      vol.GetMaxIoSize()
    }

    /** A copy of the inner volume (not of this decorator). */
    method GetCopy() returns (v: RamVolume)
      requires Valid()
      ensures fresh(v) && fresh(v.data) && v.Valid() && v.data[..] == vol.data[..]
    {
      v := vol.GetCopy();
    }
  }

  /** A trace that drops discards, over a fresh 4 KiB volume: a submitted discard never
      reaches the volume and gets no completion, while a flush goes through. */
  method DropDiscardScenario() returns (discardEnds: seq<Status>, flushEnds: seq<Status>, contents: seq<bv8>)
    ensures discardEnds == [] && flushEnds == [Success] && contents == PoisonBytes(4096)
  {
    var vol := new RamVolume(4096);
    var dev := new TraceDevice(vol, Some(DropKind(DiscardIo)));
    var buf := new bv8[0];
    var d := new Io(Write, 0, 4096, 0, buf, 0);
    DropKindAdmitsOthers(DiscardIo, DiscardIo, Write, 0, 4096, 0);
    dev.SubmitDiscard(d);
    var f := new Io(Write, 0, 0, 0, buf, 0);
    DropKindAdmitsOthers(DiscardIo, FlushIo, Write, 0, 0, 0);
    dev.SubmitFlush(f);
    discardEnds, flushEnds, contents := d.ends, f.ends, vol.data[..];
  }
}
