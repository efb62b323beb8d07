/** ErrorDevice: a decorator over a RamVolume that fails operations on purpose. While
    armed, every operation it evaluates advances a per-direction sequence counter, and
    the operation is failed with an IO error when its address is one of the faulty
    sectors or its direction's counter has reached that direction's threshold. A failed
    operation never reaches the inner volume; it sets the `error` flag and counts one
    error for its direction. */
module ErrorInjection {
  import opened IoTypes
  import opened VolumeBase
  import opened RamVolumes

  /** `error_seq_no` when none is given: no threshold in either direction. */
  const NoThreshold: PerDir<int> := PerDir(-1, -1)

  /** What `should_forward_io` consults and advances. */
  datatype Gate = Gate(armed: bool, errorSectors: set<nat>, errorSeqNo: PerDir<int>, ioSeqNo: PerDir<nat>)

  /** The decision of `should_forward_io(dir, addr)`. */
  function Forwards(g: Gate, dir: IoDir, addr: nat): bool
  {
    var t := g.errorSeqNo.Get(dir);
    !g.armed || (!(t >= 0 && t <= g.ioSeqNo.Get(dir)) && addr !in g.errorSectors)
  }

  /** The side effect of `should_forward_io(dir, ..)`: when armed, one more evaluation in
      `dir`, whatever the decision. */
  function Advance(g: Gate, dir: IoDir): Gate
  {
    if g.armed then g.(ioSeqNo := Inc(g.ioSeqNo, dir)) else g
  }

  /** One evaluation of the gate: a direction and an address. */
  datatype Op = Op(dir: IoDir, addr: nat)

  /** The decisions for a run of evaluations, in order. */
  function Decisions(g: Gate, ops: seq<Op>): (r: seq<bool>)
    ensures |r| == |ops|
    decreases |ops|
  {
    if ops == [] then [] else [Forwards(g, ops[0].dir, ops[0].addr)] + Decisions(Advance(g, ops[0].dir), ops[1..])
  }

  /** The gate after a run of evaluations. */
  function After(g: Gate, ops: seq<Op>): Gate
    decreases |ops|
  {
    if ops == [] then g else After(Advance(g, ops[0].dir), ops[1..])
  }

  /** The number of evaluations in direction `d`. */
  function CountDir(ops: seq<Op>, d: IoDir): nat
    decreases |ops|
  {
    if ops == [] then 0 else (if ops[0].dir == d then 1 else 0) + CountDir(ops[1..], d)
  }

  lemma {:induction false} CountDirPrefix(ops: seq<Op>, j: nat, d: IoDir)
    requires 0 < j <= |ops|
    ensures CountDir(ops[..j], d) == (if ops[0].dir == d then 1 else 0) + CountDir(ops[1..][..j - 1], d)
  {
    assert ops[..j][1..] == ops[1..][..j - 1];
  }

  /** The counters count every evaluation made while armed, forwarded or not; nothing
      else in the gate changes, and nothing at all changes while disarmed. */
  lemma {:induction false} AfterCounts(g: Gate, ops: seq<Op>)
    ensures After(g, ops) == if g.armed
      then g.(ioSeqNo := PerDir(g.ioSeqNo.read + CountDir(ops, Read), g.ioSeqNo.write + CountDir(ops, Write)))
      else g
    decreases |ops|
  {
    if ops != [] {
      AfterCounts(Advance(g, ops[0].dir), ops[1..]);
    }
  }

  /** The `j`-th evaluation of a run is forwarded exactly when the gate is disarmed, or
      when its address is not a faulty sector and fewer evaluations in its direction
      came before it than the threshold allows. */
  lemma {:induction false} DecisionAt(g: Gate, ops: seq<Op>, j: nat)
    requires j < |ops|
    ensures var d := ops[j].dir;
            var t := g.errorSeqNo.Get(d);
            Decisions(g, ops)[j] <==>
              !g.armed || (!(t >= 0 && t <= g.ioSeqNo.Get(d) + CountDir(ops[..j], d)) && ops[j].addr !in g.errorSectors)
    decreases j
  {
    if j == 0 {
      assert ops[..0] == [];
    } else {
      DecisionAt(Advance(g, ops[0].dir), ops[1..], j - 1);
      CountDirPrefix(ops, j, ops[j].dir);
    }
  }

  /** With a threshold `t >= 0` in direction `d` and no faulty sector hit, counting from a
      fresh device: the evaluations in `d` numbered 0 .. t-1 are forwarded and every later
      one is failed, so the (t+1)-th is the first to fail. */
  lemma ThresholdFirstFailure(g: Gate, ops: seq<Op>, j: nat)
    requires g.armed && g.ioSeqNo == ZeroCounts
    requires j < |ops| && g.errorSeqNo.Get(ops[j].dir) >= 0
    requires ops[j].addr !in g.errorSectors
    ensures Decisions(g, ops)[j] <==> CountDir(ops[..j], ops[j].dir) < g.errorSeqNo.Get(ops[j].dir)
  {
    DecisionAt(g, ops, j);
  }

  /** The completion a forwarded flush receives, as the source writes `do_forward_flush`
      (and likewise `do_forward_discard`): the rejection path passes a direction variable
      that is never defined, so it raises before the token is ended. `None` stands for a
      token that is never completed. */
  function ForwardFlushEndAsWritten(g: Gate, dataOnly: bool): (r: Option<Status>)
    ensures r.Some? <==> dataOnly || Forwards(g, Read, 0)
    ensures r.Some? ==> r.value == Success
  {
    if dataOnly || Forwards(g, Read, 0) then Some(Success) else None
  }

  /** The device armed with sector 0 faulty: a forwarded flush is rejected, and as
      written it is then never completed. */
  lemma ForwardFlushRejectionLost()
    ensures ForwardFlushEndAsWritten(Gate(true, {0}, NoThreshold, ZeroCounts), false) == None
  {
  }

  /** The completion a forwarded flush receives once the rejection path reports the
      direction the gate was evaluated in (a read): an IO error. */
  function ForwardFlushEnd(g: Gate, dataOnly: bool): (r: Status)
    ensures r == Success <==> dataOnly || Forwards(g, Read, 0)
    ensures r == Success || r == ErrIo
  {
    if dataOnly || Forwards(g, Read, 0) then Success else ErrIo
  }

  /** The corrected flush is completed in every case, and agrees with the code as
      written wherever the code completes it at all. */
  lemma ForwardFlushEndAgrees(g: Gate, dataOnly: bool)
    ensures ForwardFlushEndAsWritten(g, dataOnly).Some? ==> ForwardFlushEndAsWritten(g, dataOnly) == Some(ForwardFlushEnd(g, dataOnly))
    ensures ForwardFlushEndAsWritten(g, dataOnly).None? ==> ForwardFlushEnd(g, dataOnly) == ErrIo
  {
  }

  /** The completion a forwarded discard receives, as the source writes
      `do_forward_discard`: the gate is evaluated as a read at `addr`; a forwarded discard
      completes with what the inner volume's discard gives (`inner`), and the rejection
      path raises on the undefined direction variable before the token is ended. `None`
      stands for a token that is never completed. */
  function ForwardDiscardEndAsWritten(g: Gate, dataOnly: bool, addr: nat, inner: Status): (r: Option<Status>)
    ensures r.Some? <==> dataOnly || Forwards(g, Read, addr)
    ensures r.Some? ==> r.value == inner
  {
    if dataOnly || Forwards(g, Read, addr) then Some(inner) else None
  }

  /** The device armed with sector `addr` faulty: a forwarded discard of `addr` is
      rejected, and as written it is then never completed, whatever the inner volume
      would have answered. */
  lemma ForwardDiscardRejectionLost(addr: nat, inner: Status)
    ensures ForwardDiscardEndAsWritten(Gate(true, {addr}, NoThreshold, ZeroCounts), false, addr, inner) == None
  {
  }

  /** The completion a forwarded discard receives once the rejection path reports the
      direction the gate was evaluated in (a read): the inner volume's answer when
      forwarded, an IO error otherwise. */
  function ForwardDiscardEnd(g: Gate, dataOnly: bool, addr: nat, inner: Status): (r: Status)
    ensures (dataOnly || Forwards(g, Read, addr)) ==> r == inner
    ensures !(dataOnly || Forwards(g, Read, addr)) ==> r == ErrIo
  {
    if dataOnly || Forwards(g, Read, addr) then inner else ErrIo
  }

  /** The corrected discard is completed in every case, and agrees with the code as
      written wherever the code completes it at all. */
  lemma ForwardDiscardEndAgrees(g: Gate, dataOnly: bool, addr: nat, inner: Status)
    ensures ForwardDiscardEndAsWritten(g, dataOnly, addr, inner).Some? ==>
      ForwardDiscardEndAsWritten(g, dataOnly, addr, inner) == Some(ForwardDiscardEnd(g, dataOnly, addr, inner))
    ensures ForwardDiscardEndAsWritten(g, dataOnly, addr, inner).None? ==> ForwardDiscardEnd(g, dataOnly, addr, inner) == ErrIo
  {
  }

  class ErrorDevice {
    const base: Volume
    const vol: RamVolume
    var errorSectors: set<nat>
    var errorSeqNo: PerDir<int>
    const dataOnly: bool
    var armed: bool
    var ioSeqNo: PerDir<nat>
    var error: bool
    /** `stats["errors"]` */
    var errors: PerDir<nat>

    ghost predicate Valid()
      reads this, vol
    {
      vol.Valid() && base != vol.base
    }

    function GateState(): Gate
      reads this
    {
      Gate(armed, errorSectors, errorSeqNo, ioSeqNo)
    }

    /** Construction resets the statistics of the inner volume too, since the base
        initialiser calls the overridden `reset_stats`. */
    constructor (vol: RamVolume, errorSectors: set<nat>, errorSeqNo: PerDir<int>, dataOnly: bool, armed: bool)
      requires vol.Valid()
      modifies vol.base`stats
      ensures Valid() && this.vol == vol && fresh(base)
      ensures !base.isOpened && base.isOnline && base.stats == ZeroCounts && vol.base.stats == ZeroCounts
      ensures GateState() == Gate(armed, errorSectors, errorSeqNo, ZeroCounts)
      ensures this.dataOnly == dataOnly && !error && errors == ZeroCounts
    {
      this.vol := vol;
      base := new Volume();
      this.errorSectors := errorSectors;
      this.errorSeqNo := errorSeqNo;
      this.dataOnly := dataOnly;
      this.armed := armed;
      ioSeqNo := ZeroCounts;
      error := false;
      errors := ZeroCounts;
      new;
      vol.base.ResetStats();
    }

    method SetMapping(errorSectors: set<nat>)
      modifies this`errorSectors
      ensures GateState() == old(GateState()).(errorSectors := errorSectors)
    {
      this.errorSectors := errorSectors;
    }

    /** The inner volume is opened first; its failure is returned as is and this device
        is then left as it was. */
    method Open() returns (r: Status)
      requires Valid()
      modifies vol.base`isOpened, base`isOpened
      ensures vol.base.isOpened
      ensures old(vol.base.isOpened) ==> r == ErrNotOpenExc && base.isOpened == old(base.isOpened)
      ensures !old(vol.base.isOpened) ==> base.isOpened && r == (if old(base.isOpened) then ErrNotOpenExc else Success)
    {
      r := vol.base.Open();
      if r != Success {
        return;
      }
      r := base.Open();
    }

    method Close()
      requires Valid()
      modifies vol.base`isOpened, base`isOpened
      ensures !base.isOpened && !vol.base.isOpened
    {
      base.Close();
      vol.base.Close();
    }

    /** `should_forward_io(dir, addr)` */
    method ShouldForwardIo(dir: IoDir, addr: nat) returns (fwd: bool)
      modifies this`ioSeqNo
      ensures fwd == Forwards(old(GateState()), dir, addr)
      ensures GateState() == Advance(old(GateState()), dir)
    {
      if !armed {
        return true;
      }
      var seqNoMatch := errorSeqNo.Get(dir) >= 0 && errorSeqNo.Get(dir) <= ioSeqNo.Get(dir);
      var sectorMatch := addr in errorSectors;
      ioSeqNo := Inc(ioSeqNo, dir);
      return !seqNoMatch && !sectorMatch;
    }

    /** The error bookkeeping of a failed operation in direction `d`. */
    twostate predicate ErrorCounted(d: IoDir)
      reads this
    {
      error && errors == Inc(old(errors), d)
    }

    /** No error was recorded. */
    twostate predicate NoErrorCounted()
      reads this
    {
      error == old(error) && errors == old(errors)
    }

    method CompleteSubmitWithError(io: Io)
      modifies this`error, this`errors, io`ends
      ensures ErrorCounted(io.dir) && io.ends == old(io.ends) + [ErrIo]
    {
      error := true;
      errors := Inc(errors, io.dir);
      io.End(ErrIo);
    }

    method CompleteForwardWithError(token: ForwardToken, dir: IoDir)
      modifies this`error, this`errors, token`ends
      ensures ErrorCounted(dir) && token.ends == old(token.ends) + [ErrIo]
    {
      error := true;
      errors := Inc(errors, dir);
      token.End(ErrIo);
    }

    /** What `do_submit_io` does: evaluate the gate, then either pass the request to the
        inner volume or fail it here. */
    twostate predicate IoHandled(io: Io)
      reads this, vol, vol.data, io, io.data
    {
      var fwd := Forwards(old(GateState()), io.dir, io.addr);
      && GateState() == Advance(old(GateState()), io.dir)
      && (fwd ==> vol.IoApplied(io) && NoErrorCounted())
      && (!fwd ==> && ErrorCounted(io.dir) && io.ends == old(io.ends) + [ErrIo]
                   && io.offset == old(io.offset) && vol.data[..] == old(vol.data[..]) && io.data[..] == old(io.data[..]))
    }

    /** What `do_submit_flush` does; with `data_only` the gate is not evaluated at all. */
    twostate predicate FlushHandled(io: Io)
      reads this, io
    {
      var fwd := dataOnly || Forwards(old(GateState()), io.dir, io.addr);
      && GateState() == (if dataOnly then old(GateState()) else Advance(old(GateState()), io.dir))
      && (fwd ==> io.ends == old(io.ends) + [Success] && NoErrorCounted())
      && (!fwd ==> ErrorCounted(io.dir) && io.ends == old(io.ends) + [ErrIo])
    }

    /** What `do_submit_discard` does; with `data_only` the gate is not evaluated at all. */
    twostate predicate DiscardHandled(io: Io)
      reads this, vol, vol.data, io
    {
      var fwd := dataOnly || Forwards(old(GateState()), io.dir, io.addr);
      && GateState() == (if dataOnly then old(GateState()) else Advance(old(GateState()), io.dir))
      && (fwd ==> vol.DiscardApplied(io.addr, io.bytes, io.ends, old(io.ends)) && NoErrorCounted())
      && (!fwd ==> ErrorCounted(io.dir) && io.ends == old(io.ends) + [ErrIo] && vol.data[..] == old(vol.data[..]))
    }

    /** What `do_forward_io` does. */
    twostate predicate ForwardIoHandled(token: ForwardToken, dir: IoDir, addr: nat, nbytes: nat, offset: nat)
      reads this, vol, vol.data, token, token.io.data
    {
      var fwd := Forwards(old(GateState()), dir, addr);
      && GateState() == Advance(old(GateState()), dir)
      && (fwd ==> vol.ForwardIoApplied(token, dir, addr, nbytes, offset) && NoErrorCounted())
      && (!fwd ==> && ErrorCounted(dir) && token.ends == old(token.ends) + [ErrIo]
                   && vol.data[..] == old(vol.data[..]) && token.io.data[..] == old(token.io.data[..]))
    }

    /** What `do_forward_flush` does: the gate is evaluated as a read at address 0. */
    twostate predicate ForwardFlushHandled(token: ForwardToken)
      reads this, token
    {
      var fwd := dataOnly || Forwards(old(GateState()), Read, 0);
      && GateState() == (if dataOnly then old(GateState()) else Advance(old(GateState()), Read))
      && token.ends == old(token.ends) + [ForwardFlushEnd(old(GateState()), dataOnly)]
      && (fwd ==> NoErrorCounted())
      && (!fwd ==> ErrorCounted(Read))
    }

    /** What `do_forward_discard` does: the gate is evaluated as a read at `addr`, and the
        token's completion is `ForwardDiscardEnd` of the inner volume's answer. */
    twostate predicate ForwardDiscardHandled(token: ForwardToken, addr: nat, nbytes: nat)
      reads this, vol, vol.data, token
    {
      var fwd := dataOnly || Forwards(old(GateState()), Read, addr);
      && GateState() == (if dataOnly then old(GateState()) else Advance(old(GateState()), Read))
      && token.ends == old(token.ends) + [ForwardDiscardEnd(old(GateState()), dataOnly, addr, Discard(old(vol.data[..]), addr, nbytes).status)]
      && (fwd ==> vol.DiscardApplied(addr, nbytes, token.ends, old(token.ends)) && NoErrorCounted())
      && (!fwd ==> ErrorCounted(Read) && token.ends == old(token.ends) + [ErrIo] && vol.data[..] == old(vol.data[..]))
    }

    method DoSubmitIo(io: Io)
      requires Valid() && io.data != vol.data
      modifies this`ioSeqNo, this`error, this`errors, vol.data, io`offset, io`ends, io.data
      ensures IoHandled(io)
    {
      var fwd := ShouldForwardIo(io.dir, io.addr);
      if fwd {
        vol.DoSubmitIo(io);
      } else {
        CompleteSubmitWithError(io);
      }
    }

    method DoSubmitFlush(io: Io)
      modifies this`ioSeqNo, this`error, this`errors, io`ends
      ensures FlushHandled(io)
    {
      var fwd := true;
      if !dataOnly {
        fwd := ShouldForwardIo(io.dir, io.addr);
      }
      if fwd {
        vol.DoSubmitFlush(io);
      } else {
        CompleteSubmitWithError(io);
      }
    }

    method DoSubmitDiscard(io: Io)
      requires Valid()
      modifies this`ioSeqNo, this`error, this`errors, vol.data, io`ends
      ensures DiscardHandled(io)
    {
      var fwd := true;
      if !dataOnly {
        fwd := ShouldForwardIo(io.dir, io.addr);
      }
      if fwd {
        vol.DoSubmitDiscard(io);
      } else {
        CompleteSubmitWithError(io);
      }
    }

    method DoForwardIo(token: ForwardToken, dir: IoDir, addr: nat, nbytes: nat, offset: nat)
      requires Valid() && token.io.data != vol.data
      modifies this`ioSeqNo, this`error, this`errors, vol.data, token`ends, token.io.data
      ensures ForwardIoHandled(token, dir, addr, nbytes, offset)
    {
      var fwd := ShouldForwardIo(dir, addr);
      if fwd {
        vol.DoForwardIo(token, dir, addr, nbytes, offset);
      } else {
        CompleteForwardWithError(token, dir);
      }
    }

    method DoForwardFlush(token: ForwardToken)
      modifies this`ioSeqNo, this`error, this`errors, token`ends
      ensures ForwardFlushHandled(token)
    {
      var fwd := true;
      if !dataOnly {
        fwd := ShouldForwardIo(Read, 0);
      }
      if fwd {
        vol.DoForwardFlush(token);
      } else {
        CompleteForwardWithError(token, Read);
      }
    }

    method DoForwardDiscard(token: ForwardToken, addr: nat, nbytes: nat)
      requires Valid()
      modifies this`ioSeqNo, this`error, this`errors, vol.data, token`ends
      ensures ForwardDiscardHandled(token, addr, nbytes)
    {
      var fwd := true;
      if !dataOnly {
        fwd := ShouldForwardIo(Read, addr);
      }
      if fwd {
        vol.DoForwardDiscard(token, addr, nbytes);
      } else {
        CompleteForwardWithError(token, Read);
      }
    }

    /** Nothing of the device's own state moved: the gate and the error bookkeeping. */
    twostate predicate Untouched()
      reads this
    {
      GateState() == old(GateState()) && NoErrorCounted()
    }

    method SubmitIo(io: Io)
      requires Valid() && io.data != vol.data
      modifies base`stats, this`ioSeqNo, this`error, this`errors, vol.data, io`offset, io`ends, io.data
      ensures old(base.isOnline) ==> base.stats == Inc(old(base.stats), io.dir) && IoHandled(io)
      ensures !old(base.isOnline) ==>
        && base.stats == old(base.stats) && Untouched() && io.ends == old(io.ends) + [ErrIo]
        && io.offset == old(io.offset) && unchanged(vol.data, io.data)
    {
      if base.isOnline {
        base.IncStats(io.dir);
        DoSubmitIo(io);
      } else {
        io.End(ErrIo);
      }
    }

    method SubmitFlush(io: Io)
      modifies this`ioSeqNo, this`error, this`errors, io`ends
      ensures base.isOnline ==> FlushHandled(io)
      ensures !base.isOnline ==> Untouched() && io.ends == old(io.ends) + [ErrIo]
    {
      if base.isOnline {
        DoSubmitFlush(io);
      } else {
        io.End(ErrIo);
      }
    }

    method SubmitDiscard(io: Io)
      requires Valid()
      modifies this`ioSeqNo, this`error, this`errors, vol.data, io`ends
      ensures base.isOnline ==> DiscardHandled(io)
      ensures !base.isOnline ==> Untouched() && io.ends == old(io.ends) + [ErrIo] && unchanged(vol.data)
    {
      if base.isOnline {
        DoSubmitDiscard(io);
      } else {
        io.End(ErrIo);
      }
    }

    method ForwardIo(token: ForwardToken, dir: IoDir, addr: nat, nbytes: nat, offset: nat)
      requires Valid() && token.io.data != vol.data
      modifies base`stats, this`ioSeqNo, this`error, this`errors, vol.data, token`ends, token.io.data
      ensures old(base.isOnline) ==> base.stats == Inc(old(base.stats), dir) && ForwardIoHandled(token, dir, addr, nbytes, offset)
      ensures !old(base.isOnline) ==>
        && base.stats == old(base.stats) && Untouched() && token.ends == old(token.ends) + [ErrIo]
        && unchanged(vol.data, token.io.data)
    {
      if base.isOnline {
        base.IncStats(dir);
        DoForwardIo(token, dir, addr, nbytes, offset);
      } else {
        token.End(ErrIo);
      }
    }

    method ForwardFlush(token: ForwardToken)
      modifies this`ioSeqNo, this`error, this`errors, token`ends
      ensures base.isOnline ==> ForwardFlushHandled(token)
      ensures !base.isOnline ==> Untouched() && token.ends == old(token.ends) + [ErrIo]
    {
      if base.isOnline {
        DoForwardFlush(token);
      } else {
        token.End(ErrIo);
      }
    }

    method ForwardDiscard(token: ForwardToken, addr: nat, nbytes: nat)
      requires Valid()
      modifies this`ioSeqNo, this`error, this`errors, vol.data, token`ends
      ensures base.isOnline ==> ForwardDiscardHandled(token, addr, nbytes)
      ensures !base.isOnline ==> Untouched() && token.ends == old(token.ends) + [ErrIo] && unchanged(vol.data)
    {
      if base.isOnline {
        DoForwardDiscard(token, addr, nbytes);
      } else {
        token.End(ErrIo);
      }
    }

    /** Arming leaves the counters, the thresholds and the error flag as they were. */
    method Arm()
      modifies this`armed
      ensures GateState() == old(GateState()).(armed := true)
    {
      armed := true;
    }

    method Disarm()
      modifies this`armed
      ensures GateState() == old(GateState()).(armed := false)
    {
      armed := false;
    }

    function ErrorTriggered(): (r: bool)
      reads this
      ensures r == error
    {
      error
    }

    /** Resets the inner volume's counters, this device's counters and its error tally. */
    method ResetStats()
      requires Valid()
      modifies vol.base`stats, base`stats, this`errors
      ensures vol.base.stats == ZeroCounts && base.stats == ZeroCounts && errors == ZeroCounts
    {
      vol.base.ResetStats();
      base.ResetStats();
      errors := ZeroCounts;
    }

    function GetLength(): (n: nat)
      reads this, vol
      requires Valid()
      ensures n == vol.data.Length
    {
      vol.GetLength()
    }

    function GetMaxIoSize(): (n: nat)
      ensures n == vol.GetMaxIoSize()
    {
      vol.GetMaxIoSize()
    }

    /** A copy of the inner volume (not of this decorator). */
    method GetCopy() returns (v: RamVolume)
      requires Valid()
      ensures fresh(v) && fresh(v.data) && v.Valid() && v.data[..] == vol.data[..]
    {
      v := vol.GetCopy();
    }
  }
}
