/** The arithmetic of the metadata IO paths. An iterative asynchronous transfer of `count`
    metadata pages starting at `page` is cut into chunks of at most `max_count` pages.
    A pool of at most 128 requests walks through the chunks: each request takes the next
    chunk index from a shared cursor, and the first error any chunk reports is latched
    and stops the walk. The atomic-metadata read walks a sector count in steps of one
    page's worth of atomic metadata. Queueing, page locks, allocation and the atomic
    counters that detect the last completion are outside the model; the pool is driven
    sequentially, one completion at a time. */
module MetadataIo {
  import opened IoTypes

  const PAGE_SIZE: nat := 4096
  const METADATA_IO_REQS_LIMIT: nat := 128

  function Min(a: nat, b: nat): nat
  {
    if a < b then a else b
  }

  /** OCF_DIV_ROUND_UP */
  function DivRoundUp(n: nat, d: nat): nat
    requires d > 0
  {
    (n + d - 1) / d
  }

  lemma MulMono(a: nat, b: nat, m: nat)
    requires a <= b
    ensures a * m <= b * m
  {
  }

  /** `metadata_io_max_page`: the pages one request may carry, the smaller of what fits
      in one IO to the cache volume (`maxIoSize` bytes) and the number of bits of a
      request's lock-status map (`alockStatusBytes` bytes). */
  function MaxPage(maxIoSize: nat, alockStatusBytes: nat): (r: nat)
    ensures r * PAGE_SIZE <= maxIoSize
    ensures r <= 8 * alockStatusBytes
    ensures r == maxIoSize / PAGE_SIZE || r == 8 * alockStatusBytes
    ensures r > 0 <==> maxIoSize >= PAGE_SIZE && alockStatusBytes > 0
  {
    Min(maxIoSize / PAGE_SIZE, 8 * alockStatusBytes)
  }

  // ---------------------------------------------------------------------------------
  // Chunks of an iterative transfer

  /** `io_count`: the number of chunks. */
  function NumChunks(count: nat, maxCount: nat): nat
    requires maxCount > 0
  {
    DivRoundUp(count, maxCount)
  }

  /** A chunk index is in range exactly when the chunk starts inside the transfer. */
  lemma ChunkIndexValid(count: nat, maxCount: nat, curr: nat)
    requires maxCount > 0
    ensures curr < NumChunks(count, maxCount) <==> curr * maxCount < count
  {
    var q := NumChunks(count, maxCount);
    assert q * maxCount <= count + maxCount - 1 < q * maxCount + maxCount;
    if curr < q {
      MulMono(curr, q - 1, maxCount);
      assert (q - 1) * maxCount == q * maxCount - maxCount;
    } else {
      MulMono(q, curr, maxCount);
    }
  }

  /** The first page of chunk `curr`. */
  function ChunkPage(page: nat, maxCount: nat, curr: nat): nat
  {
    page + curr * maxCount
  }

  /** The number of pages of chunk `curr`: a full chunk, or the remainder for the last. */
  function ChunkLen(count: nat, maxCount: nat, curr: nat): (r: nat)
    requires maxCount > 0 && curr < NumChunks(count, maxCount)
    ensures 0 < r <= maxCount
    ensures curr * maxCount + r <= count
    ensures r == maxCount || curr * maxCount + r == count
  {
    ChunkIndexValid(count, maxCount, curr);
    Min(count - curr * maxCount, maxCount)
  }

  /** Every chunk but the last is full, and the next one starts right after it. */
  lemma ChunksContiguous(page: nat, count: nat, maxCount: nat, curr: nat)
    requires maxCount > 0 && curr + 1 < NumChunks(count, maxCount)
    ensures ChunkLen(count, maxCount, curr) == maxCount
    ensures ChunkPage(page, maxCount, curr) + ChunkLen(count, maxCount, curr) == ChunkPage(page, maxCount, curr + 1)
  {
    ChunkIndexValid(count, maxCount, curr + 1);
    assert (curr + 1) * maxCount == curr * maxCount + maxCount;
  }

  /** A chunk ends before any later chunk begins. */
  lemma ChunksDisjoint(page: nat, count: nat, maxCount: nat, c1: nat, c2: nat)
    requires maxCount > 0 && c1 < c2 < NumChunks(count, maxCount)
    ensures ChunkPage(page, maxCount, c1) + ChunkLen(count, maxCount, c1) <= ChunkPage(page, maxCount, c2)
  {
    MulMono(c1 + 1, c2, maxCount);
    assert (c1 + 1) * maxCount == c1 * maxCount + maxCount;
  }

  /** The integers `lo, lo + 1, ..., hi - 1`. */
  function Range(lo: nat, hi: nat): (r: seq<nat>)
    requires lo <= hi
    ensures |r| == hi - lo
    ensures forall i :: 0 <= i < |r| ==> r[i] == lo + i
  {
    seq(hi - lo, i requires 0 <= i < hi - lo => lo + i)
  }

  lemma RangeConcat(a: nat, b: nat, c: nat)
    requires a <= b <= c
    ensures Range(a, b) + Range(b, c) == Range(a, c)
  {
    var l, r := Range(a, b) + Range(b, c), Range(a, c);
    forall i | 0 <= i < |r|
      ensures l[i] == r[i]
    {
      if i < b - a {
        assert l[i] == Range(a, b)[i];
      } else {
        assert l[i] == Range(b, c)[i - (b - a)];
      }
    }
  }

  /** The pages of chunks `curr, curr + 1, ...` to the last, in order. */
  function ChunkPagesFrom(page: nat, count: nat, maxCount: nat, curr: nat): seq<nat>
    requires maxCount > 0
    decreases NumChunks(count, maxCount) - curr
  {
    if curr >= NumChunks(count, maxCount) then []
    else
      var start := ChunkPage(page, maxCount, curr);
      Range(start, start + ChunkLen(count, maxCount, curr)) + ChunkPagesFrom(page, count, maxCount, curr + 1)
  }

  /** The chunks from `curr` on cover exactly the pages from chunk `curr`'s first page to
      the end of the transfer, in order, each page once. */
  lemma {:induction false} ChunksCoverFrom(page: nat, count: nat, maxCount: nat, curr: nat)
    requires maxCount > 0 && curr * maxCount <= count
    ensures ChunkPagesFrom(page, count, maxCount, curr) == Range(page + curr * maxCount, page + count)
    decreases NumChunks(count, maxCount) - curr
  {
    ChunkIndexValid(count, maxCount, curr);
    if curr < NumChunks(count, maxCount) {
      var n := ChunkLen(count, maxCount, curr);
      var start := ChunkPage(page, maxCount, curr);
      assert (curr + 1) * maxCount == curr * maxCount + maxCount;
      if n == maxCount {
        ChunksCoverFrom(page, count, maxCount, curr + 1);
      } else {
        ChunkIndexValid(count, maxCount, curr + 1);
        assert ChunkPagesFrom(page, count, maxCount, curr + 1) == [];
        assert Range(page + count, page + count) == [];
      }
      RangeConcat(start, start + n, page + count);
    }
  }

  /** All chunks together cover exactly `[page, page + count)`. */
  lemma ChunksCover(page: nat, count: nat, maxCount: nat)
    requires maxCount > 0
    ensures ChunkPagesFrom(page, count, maxCount, 0) == Range(page, page + count)
  {
    ChunksCoverFrom(page, count, maxCount, 0);
  }

  /** Every chunk fits in one IO to the cache volume when the chunk size is
      `metadata_io_max_page`. */
  lemma ChunkFitsIo(count: nat, maxIoSize: nat, alockStatusBytes: nat, curr: nat)
    requires MaxPage(maxIoSize, alockStatusBytes) > 0
    requires curr < NumChunks(count, MaxPage(maxIoSize, alockStatusBytes))
    ensures ChunkLen(count, MaxPage(maxIoSize, alockStatusBytes), curr) * PAGE_SIZE <= maxIoSize
  {
    var m := MaxPage(maxIoSize, alockStatusBytes);
    MulMono(ChunkLen(count, m, curr), m, PAGE_SIZE);
  }

  /** `req_count`: the number of requests in the pool. */
  function ReqCount(count: nat, maxCount: nat): (r: nat)
    requires maxCount > 0
    ensures r <= METADATA_IO_REQS_LIMIT && r <= NumChunks(count, maxCount)
    ensures r > 0 <==> count > 0
  {
    ChunkIndexValid(count, maxCount, 0);
    Min(NumChunks(count, maxCount), METADATA_IO_REQS_LIMIT)
  }

  /** Request `i` gets a buffer of `ChunkLen(count, maxCount, i)` pages, so only the last
      request can get a short one, and only when every chunk has a request of its own.
      Its buffer holds its first chunk and every chunk it can be handed later, all of
      which lie beyond the pool. */
  lemma PoolBuffersFit(count: nat, maxCount: nat, i: nat, c: nat)
    requires maxCount > 0 && i < ReqCount(count, maxCount) && c < NumChunks(count, maxCount)
    requires c == i || c >= ReqCount(count, maxCount)
    ensures ChunkLen(count, maxCount, c) <= ChunkLen(count, maxCount, i)
  {
    if c != i {
      ChunksContiguous(0, count, maxCount, i);
    }
  }

  // ---------------------------------------------------------------------------------
  // Error latching

  /** `a_req->error = a_req->error ?: error`: a stored error is never replaced. */
  function Latch(current: int, error: int): (r: int)
    ensures current != 0 ==> r == current
    ensures current == 0 ==> r == error
  {
    if current != 0 then current else error
  }

  /** The latched error after chunks completed with `errs`, in that order. */
  function FirstError(errs: seq<int>): int
  {
    if errs == [] then 0 else Latch(FirstError(errs[..|errs| - 1]), errs[|errs| - 1])
  }

  /** The latched error is zero exactly when every completion succeeded. */
  lemma {:induction false} FirstErrorZero(errs: seq<int>)
    ensures FirstError(errs) == 0 <==> forall i :: 0 <= i < |errs| ==> errs[i] == 0
  {
    if errs != [] {
      var init := errs[..|errs| - 1];
      FirstErrorZero(init);
      assert forall i :: 0 <= i < |init| ==> errs[i] == init[i];
    }
  }

  /** The latched error is the first failing completion's code. */
  lemma {:induction false} FirstErrorIsFirst(errs: seq<int>, k: nat)
    requires k < |errs| && errs[k] != 0
    requires forall i :: 0 <= i < k ==> errs[i] == 0
    ensures FirstError(errs) == errs[k]
  {
    var init := errs[..|errs| - 1];
    if k == |errs| - 1 {
      FirstErrorZero(init);
    } else {
      FirstErrorIsFirst(init, k);
    }
  }

  /** Once an error is latched, later completions leave it as it is. */
  lemma {:induction false} LatchSticks(errs: seq<int>, later: seq<int>)
    requires FirstError(errs) != 0
    ensures FirstError(errs + later) == FirstError(errs)
    decreases |later|
  {
    if later != [] {
      var init, s := later[..|later| - 1], errs + later;
      assert s[..|s| - 1] == errs + init;
      LatchSticks(errs, init);
      assert FirstError(s) == Latch(FirstError(errs + init), s[|s| - 1]);
    } else {
      assert errs + later == errs;
    }
  }

  /** The completion codes of the chunks in `served`, in order. */
  function Results(ioResult: nat -> int, served: seq<nat>): (r: seq<int>)
    ensures |r| == |served|
    ensures forall i :: 0 <= i < |served| ==> r[i] == ioResult(served[i])
  {
    seq(|served|, i requires 0 <= i < |served| => ioResult(served[i]))
  }

  lemma FirstErrorAppend(ioResult: nat -> int, served: seq<nat>, c: nat)
    ensures FirstError(Results(ioResult, served + [c])) == Latch(FirstError(Results(ioResult, served)), ioResult(c))
  {
    var r := Results(ioResult, served + [c]);
    assert r[..|r| - 1] == Results(ioResult, served);
  }

  // ---------------------------------------------------------------------------------
  // The request pool

  /** `struct metadata_io_request`: the chunk it carries now, and its buffer size. */
  class MioRequest {
    var page: nat
    var count: nat
    const bufPages: nat

    constructor (bufPages: nat)
      ensures page == 0 && count == 0 && this.bufPages == bufPages
    {
      page, count := 0, 0;
      this.bufPages := bufPages;
    }
  }

  /** `struct metadata_io_request_asynch`: the transfer, the latched error, the shared
      chunk cursor (`req_current`, starting before the first chunk) and the pool. */
  class AsynchRequest {
    const page: nat
    const count: nat
    const maxCount: nat
    var error: int
    var reqCurrent: int
    var reqs: seq<MioRequest>

    ghost predicate Valid()
      reads this
    {
      maxCount > 0 && reqCurrent >= -1
    }

    constructor (page: nat, count: nat, maxCount: nat)
      requires maxCount > 0
      ensures Valid() && this.page == page && this.count == count && this.maxCount == maxCount
      ensures error == 0 && reqCurrent == -1 && reqs == []
    {
      this.page, this.count, this.maxCount := page, count, maxCount;
      error, reqCurrent := 0, -1;
      reqs := [];
    }

    /** What `metadata_io_req_advance` does to the cursor and to `m`: nothing once an
        error is latched; otherwise the cursor moves on, and `m` takes the chunk under
        it, or is emptied when the chunks are exhausted. */
    twostate predicate AdvanceApplied(m: MioRequest)
      reads this, m
    {
      && (error != 0 ==> reqCurrent == old(reqCurrent) && m.page == old(m.page) && m.count == old(m.count))
      && (error == 0 ==> reqCurrent == old(reqCurrent) + 1)
      && (error == 0 && maxCount > 0 && 0 <= reqCurrent < NumChunks(count, maxCount) ==>
            m.page == ChunkPage(page, maxCount, reqCurrent) && m.count == ChunkLen(count, maxCount, reqCurrent))
      && (error == 0 && maxCount > 0 && reqCurrent >= NumChunks(count, maxCount) ==>
            m.page == old(m.page) && m.count == 0)
    }

    /** `metadata_io_req_advance`; `ended` says whether the request was ended
        (`metadata_io_req_end`) instead of being handed a chunk. */
    method Advance(m: MioRequest) returns (ended: bool)
      requires Valid()
      modifies this`reqCurrent, m`page, m`count
      ensures Valid() && AdvanceApplied(m)
      ensures ended <==> error != 0 || reqCurrent >= NumChunks(count, maxCount)
    {
      if error != 0 {
        return true;
      }
      reqCurrent := reqCurrent + 1;
      var curr: nat := reqCurrent;
      if curr >= DivRoundUp(count, maxCount) {
        m.count := 0;
        return true;
      }
      ChunkIndexValid(count, maxCount, curr);
      m.page := page + curr * maxCount;
      m.count := Min(count - curr * maxCount, maxCount);
      return false;
    }

    /** `metadata_io_req_start`: the request takes its first chunk and is submitted
        unless it got none. */
    method Start(m: MioRequest) returns (submitted: bool)
      requires Valid()
      modifies this`reqCurrent, m`page, m`count
      ensures Valid() && AdvanceApplied(m)
      ensures submitted <==> m.count != 0
    {
      var _ := Advance(m);
      submitted := m.count != 0;
    }

    /** `metadata_io_end` followed by `metadata_io_req_complete`: the IO of `m`'s chunk
        completed with `ioError`. The error is latched, the request advances, and it is
        resubmitted for its new chunk unless it has none or an error is latched. */
    method End(m: MioRequest, ioError: int) returns (resubmit: bool)
      requires Valid()
      modifies this`error, this`reqCurrent, m`page, m`count
      ensures Valid() && error == Latch(old(error), ioError) && AdvanceApplied(m)
      ensures resubmit <==> m.count != 0 && error == 0
    {
      if ioError != 0 {
        error := if error != 0 then error else ioError;
      }
      var _ := Advance(m);
      resubmit := !(m.count == 0 || error != 0);
    }
  }

  /** `metadata_io_i_asynch` up to the point where every request has been started: an
      empty transfer allocates nothing; otherwise the pool has `ReqCount` requests,
      request `i` has a buffer of `ChunkLen(.., i)` pages and carries chunk `i`, and the
      cursor rests on the last chunk handed out. */
  method IAsynch(page: nat, count: nat, maxCount: nat) returns (a: AsynchRequest?)
    requires maxCount > 0
    ensures count == 0 <==> a == null
    ensures a != null ==> fresh(a) && a.Valid() && a.page == page && a.count == count && a.maxCount == maxCount
    ensures a != null ==> a.error == 0 && |a.reqs| == ReqCount(count, maxCount) && a.reqCurrent == |a.reqs| - 1
    ensures a != null ==> forall i, j :: 0 <= i < j < |a.reqs| ==> a.reqs[i] != a.reqs[j]
    ensures a != null ==> forall i :: 0 <= i < |a.reqs| ==>
      && fresh(a.reqs[i])
      && a.reqs[i].bufPages == ChunkLen(count, maxCount, i)
      && a.reqs[i].page == ChunkPage(page, maxCount, i)
      && a.reqs[i].count == ChunkLen(count, maxCount, i)
  {
    var ioCount := DivRoundUp(count, maxCount);
    var reqCount := Min(ioCount, METADATA_IO_REQS_LIMIT);
    if count == 0 {
      return null;
    }
    a := new AsynchRequest(page, count, maxCount);
    var i := 0;
    while i < reqCount
      invariant 0 <= i <= reqCount && |a.reqs| == i
      invariant a.error == 0 && a.reqCurrent == -1
      invariant forall j, k :: 0 <= j < k < i ==> a.reqs[j] != a.reqs[k]
      invariant forall j :: 0 <= j < i ==>
        fresh(a.reqs[j]) && a.reqs[j].bufPages == ChunkLen(count, maxCount, j) && a.reqs[j].count == 0
    {
      ChunkIndexValid(count, maxCount, i);
      var m := new MioRequest(Min(maxCount, count - i * maxCount));
      a.reqs := a.reqs + [m];
      i := i + 1;
    }
    i := 0;
    while i < reqCount
      invariant 0 <= i <= reqCount && |a.reqs| == reqCount
      invariant a.Valid() && a.error == 0 && a.reqCurrent == i - 1
      invariant forall j, k :: 0 <= j < k < reqCount ==> a.reqs[j] != a.reqs[k]
      invariant forall j :: 0 <= j < reqCount ==> fresh(a.reqs[j]) && a.reqs[j].bufPages == ChunkLen(count, maxCount, j)
      invariant forall j :: 0 <= j < i ==>
        a.reqs[j].page == ChunkPage(page, maxCount, j) && a.reqs[j].count == ChunkLen(count, maxCount, j)
      invariant forall j :: i <= j < reqCount ==> a.reqs[j].count == 0
    {
      var _ := a.Start(a.reqs[i]);
      i := i + 1;
    }
  }

  /** The pool between two completions, as values. The chunks completed so far are
      `served`, which is always `0, 1, ...` in order; the requests in flight, oldest
      first, carry the chunks that follow (their first pages `pages`, their lengths
      `counts`) up to the one under the cursor; `error` is the latched error. */
  ghost predicate PoolView(page: nat, count: nat, maxCount: nat, error: int, reqCurrent: int,
                           pages: seq<nat>, counts: seq<nat>, served: seq<nat>, ioResult: nat -> int)
  {
    && maxCount > 0 && reqCurrent >= -1 && |counts| == |pages|
    && |served| + |pages| == Min(reqCurrent + 1, NumChunks(count, maxCount))
    && (forall i :: 0 <= i < |served| ==> served[i] == i)
    && (forall k :: 0 <= k < |pages| ==>
          pages[k] == ChunkPage(page, maxCount, |served| + k) && counts[k] == ChunkLen(count, maxCount, |served| + k))
    && error == FirstError(Results(ioResult, served))
    && (error == 0 ==> |pages| > 0 || reqCurrent + 1 >= NumChunks(count, maxCount))
  }

  /** One completion keeps the view: the oldest request's chunk joins `served`, and the
      request either goes to the back of the queue with the chunk under the advanced
      cursor or leaves the pool. The `requires` after the first line are what
      `AsynchRequest.End` promises about the latched error, the cursor and the request,
      written out on values. */
  lemma PoolViewStep(page: nat, count: nat, maxCount: nat, error: int, reqCurrent: int,
                     pages: seq<nat>, counts: seq<nat>, served: seq<nat>, ioResult: nat -> int,
                     error': int, reqCurrent': int, page': nat, count': nat, resubmit: bool)
    requires PoolView(page, count, maxCount, error, reqCurrent, pages, counts, served, ioResult) && |pages| > 0
    requires error' == Latch(error, ioResult(|served|))
    requires error' != 0 ==> reqCurrent' == reqCurrent && page' == pages[0] && count' == counts[0]
    requires error' == 0 ==> reqCurrent' == reqCurrent + 1
    requires error' == 0 && 0 <= reqCurrent' < NumChunks(count, maxCount) ==>
      page' == ChunkPage(page, maxCount, reqCurrent') && count' == ChunkLen(count, maxCount, reqCurrent')
    requires error' == 0 && reqCurrent' >= NumChunks(count, maxCount) ==> count' == 0
    requires resubmit <==> count' != 0 && error' == 0
    ensures PoolView(page, count, maxCount, error', reqCurrent',
      pages[1..] + (if resubmit then [page'] else []),
      counts[1..] + (if resubmit then [count'] else []),
      served + [|served|], ioResult)
  {
    var nc := NumChunks(count, maxCount);
    FirstErrorAppend(ioResult, served, |served|);
    if resubmit {
      assert reqCurrent' == |served| + |pages|;
    } else if error' == 0 {
      assert reqCurrent' >= nc;
    }
  }

  /** The oldest request in flight, `m`, completes its IO with `ioError` (`End`). It goes
      to the back of the queue when it is resubmitted and leaves it otherwise; `pages` and
      `counts` follow the queue as values. */
  method ServeOldest(a: AsynchRequest, m: MioRequest, queue: seq<MioRequest>, ghost pages: seq<nat>, ghost counts: seq<nat>, ioError: int)
    returns (resubmit: bool, queue': seq<MioRequest>, ghost pages': seq<nat>, ghost counts': seq<nat>)
    requires a.Valid() && |queue| > 0 && m == queue[0] && |pages| == |queue| && |counts| == |queue|
    requires forall k :: 0 <= k < |queue| ==> queue[k].page == pages[k] && queue[k].count == counts[k]
    requires forall i, j :: 0 <= i < j < |queue| ==> queue[i] != queue[j]
    modifies a`error, a`reqCurrent, m`page, m`count
    ensures a.Valid() && a.error == Latch(old(a.error), ioError)
    ensures a.error != 0 ==> a.reqCurrent == old(a.reqCurrent) && m.page == pages[0] && m.count == counts[0]
    ensures a.error == 0 ==> a.reqCurrent == old(a.reqCurrent) + 1
    ensures a.error == 0 && 0 <= a.reqCurrent < NumChunks(a.count, a.maxCount) ==>
      m.page == ChunkPage(a.page, a.maxCount, a.reqCurrent) && m.count == ChunkLen(a.count, a.maxCount, a.reqCurrent)
    ensures a.error == 0 && a.reqCurrent >= NumChunks(a.count, a.maxCount) ==> m.count == 0
    ensures resubmit <==> m.count != 0 && a.error == 0
    ensures queue' == queue[1..] + (if resubmit then [m] else [])
    ensures pages' == pages[1..] + (if resubmit then [m.page] else [])
    ensures counts' == counts[1..] + (if resubmit then [m.count] else [])
    ensures forall k :: 0 <= k < |queue'| ==> queue'[k].page == pages'[k] && queue'[k].count == counts'[k]
    ensures forall i, j :: 0 <= i < j < |queue'| ==> queue'[i] != queue'[j]
  {
    var tail := queue[1..];
    assert forall k :: 0 <= k < |tail| ==> tail[k] == queue[k + 1] && tail[k] != m;
    resubmit := a.End(m, ioError);
    if resubmit {
      queue', pages', counts' := tail + [m], pages[1..] + [m.page], counts[1..] + [m.count];
    } else {
      queue', pages', counts' := tail, pages[1..], counts[1..];
    }
  }

  /** The pool invariant of `RunIAsynch`: the view holds, and the queued requests are
      distinct and carry what the view says. */
  ghost predicate PoolState(a: AsynchRequest, queue: seq<MioRequest>, pages: seq<nat>, counts: seq<nat>, served: seq<nat>, ioResult: nat -> int)
    reads a, set k | 0 <= k < |queue| :: queue[k]
  {
    && a.Valid()
    && PoolView(a.page, a.count, a.maxCount, a.error, a.reqCurrent, pages, counts, served, ioResult)
    && |queue| == |pages|
    && (forall k :: 0 <= k < |queue| ==> queue[k].page == pages[k] && queue[k].count == counts[k])
    && (forall i, j :: 0 <= i < j < |queue| ==> queue[i] != queue[j])
  }

  /** One completion, delivered to the oldest request in flight: the chunk it carries is
      the next one to complete, `|served|`. */
  method ServeStep(a: AsynchRequest, queue: seq<MioRequest>, ghost pages: seq<nat>, ghost counts: seq<nat>, served: seq<nat>, ioResult: nat -> int)
    returns (queue': seq<MioRequest>, ghost pages': seq<nat>, ghost counts': seq<nat>, served': seq<nat>)
    requires |queue| > 0 && PoolState(a, queue, pages, counts, served, ioResult)
    modifies a`error, a`reqCurrent, queue[0]
    ensures PoolState(a, queue', pages', counts', served', ioResult)
    ensures served' == served + [|served|]
    ensures forall k :: 0 <= k < |queue'| ==> queue'[k] in queue
  {
    var m := queue[0];
    ghost var error, reqCurrent := a.error, a.reqCurrent;
    var resubmit;
    resubmit, queue', pages', counts' := ServeOldest(a, m, queue, pages, counts, ioResult(|served|));
    PoolViewStep(a.page, a.count, a.maxCount, error, reqCurrent, pages, counts, served, ioResult,
                 a.error, a.reqCurrent, m.page, m.count, resubmit);
    served' := served + [|served|];
    forall k | 0 <= k < |queue'|
      ensures queue'[k] in queue
    {
      if k < |queue| - 1 {
        assert queue'[k] == queue[k + 1];
      } else {
        assert queue'[k] == queue[0];
      }
    }
  }

  /** A whole iterative transfer, its completions delivered one at a time in submission
      order; `ioResult(c)` is the code chunk `c`'s IO completes with. `served` lists the
      chunks whose IO completed, in order, and `completion` is the code the transfer's
      completion callback receives (none at all for an empty transfer). The chunks are
      served in order without gaps or repeats; with no error every chunk is served, and
      otherwise the latched code is the first failure's. */
  method RunIAsynch(page: nat, count: nat, maxCount: nat, ioResult: nat -> int) returns (completion: Option<int>, served: seq<nat>)
    requires maxCount > 0
    ensures count == 0 ==> completion == None && served == []
    ensures count > 0 ==> completion == Some(FirstError(Results(ioResult, served)))
    ensures served == Range(0, |served|) && |served| <= NumChunks(count, maxCount)
    ensures completion == Some(0) ==> |served| == NumChunks(count, maxCount)
  {
    var a := IAsynch(page, count, maxCount);
    if a == null {
      return None, [];
    }
    var queue := a.reqs;
    ghost var pages: seq<nat> := seq(|queue|, k requires 0 <= k < |queue| => ChunkPage(page, maxCount, k));
    ghost var counts: seq<nat> := seq(|queue|, k requires 0 <= k < |queue| => ChunkLen(count, maxCount, k));
    served := [];
    while |queue| > 0
      invariant fresh(a) && a.page == page && a.count == count && a.maxCount == maxCount
      invariant forall k :: 0 <= k < |queue| ==> fresh(queue[k])
      invariant PoolState(a, queue, pages, counts, served, ioResult)
      decreases NumChunks(count, maxCount) - |served|
    {
      queue, pages, counts, served := ServeStep(a, queue, pages, counts, served, ioResult);
    }
    assert served == Range(0, |served|);
    completion := Some(a.error);
  }

  // ---------------------------------------------------------------------------------
  // The atomic-metadata read

  /** The steps of an atomic read of `count` sectors from sector `offset`, as
      (first sector, sectors) pairs of at most `maxSectors` sectors each. A read of zero
      sectors still makes one empty step (`first`). */
  function StepsFrom(offset: nat, count: nat, first: bool, maxSectors: nat): seq<(nat, nat)>
    decreases count, first
  {
    if count == 0 && !first then []
    else
      var n := Min(maxSectors, count);
      if n == 0 then [(offset, 0)]
      else [(offset, n)] + StepsFrom(offset + n, count - n, false, maxSectors)
  }

  /** The sectors a list of steps reads, in order. */
  function Expand(steps: seq<(nat, nat)>): seq<nat>
  {
    if steps == [] then [] else Range(steps[0].0, steps[0].0 + steps[0].1) + Expand(steps[1..])
  }

  /** The steps read every sector of the range once, in order, each step starting where
      the previous one ended. */
  lemma {:induction false} StepsTile(offset: nat, count: nat, first: bool, maxSectors: nat)
    requires maxSectors > 0
    ensures Expand(StepsFrom(offset, count, first, maxSectors)) == Range(offset, offset + count)
    decreases count, first
  {
    var steps := StepsFrom(offset, count, first, maxSectors);
    if count == 0 {
      if first {
        assert steps == [(offset, 0)];
        assert Expand(steps) == Range(offset, offset) + Expand([]);
      }
    } else {
      var n := Min(maxSectors, count);
      StepsTile(offset + n, count - n, false, maxSectors);
      assert steps[1..] == StepsFrom(offset + n, count - n, false, maxSectors);
      RangeConcat(offset, offset + n, offset + count);
    }
  }

  /** Every step is at most one page of atomic metadata, and only the lone step of an
      empty read is empty. */
  lemma {:induction false} StepsBounded(offset: nat, count: nat, first: bool, maxSectors: nat, j: nat)
    requires maxSectors > 0 && j < |StepsFrom(offset, count, first, maxSectors)|
    ensures StepsFrom(offset, count, first, maxSectors)[j].1 <= maxSectors
    ensures StepsFrom(offset, count, first, maxSectors)[j].1 == 0 <==> count == 0
    decreases count, first
  {
    if j > 0 {
      var n := Min(maxSectors, count);
      StepsBounded(offset + n, count - n, false, maxSectors, j - 1);
    }
  }

  /** `struct metadata_io_read_i_atomic_context`, with the calls of the drain handler
      (the sector range each successful step delivered) and of the completion handler. */
  class AtomicReadContext {
    ghost const sectors: nat
    const maxSectors: nat
    const metadataOffset: nat
    var count: nat
    var currOffset: nat
    var currCount: nat
    var drained: seq<(nat, nat)>
    var completion: Option<int>

    ghost predicate Valid()
      reads this
    {
      maxSectors > 0 && currOffset + count == sectors
    }

    /** `metadata_io_read_i_atomic`: `sectors` is the collision table size times the
        sectors of a cache line, and one step reads at most the sectors whose atomic
        metadata (`atomicMetadataSize` bytes each) fits in a page. */
    constructor (sectors: nat, atomicMetadataSize: nat, metadataOffset: nat)
      requires 0 < atomicMetadataSize <= PAGE_SIZE
      ensures Valid() && this.sectors == sectors && maxSectors == PAGE_SIZE / atomicMetadataSize
      ensures this.metadataOffset == metadataOffset
      ensures count == sectors && currOffset == 0 && currCount == 0 && drained == [] && completion == None
    {
      this.sectors := sectors;
      maxSectors := PAGE_SIZE / atomicMetadataSize;
      this.metadataOffset := metadataOffset;
      count, currOffset, currCount := sectors, 0, 0;
      drained, completion := [], None;
    }

    /** `metadata_io_read_i_atomic_step`: sizes the step and returns the byte address and
        length of the read it issues. */
    method Step() returns (addr: nat, bytes: nat)
      modifies this`currCount
      ensures currCount <= maxSectors && currCount <= count
      ensures currCount == maxSectors || currCount == count
      ensures addr == metadataOffset + currOffset * PAGE_SIZE && bytes == currCount * PAGE_SIZE
    {
      currCount := Min(maxSectors, count);
      addr := metadataOffset + currOffset * PAGE_SIZE;
      bytes := currCount * PAGE_SIZE;
    }

    /** `metadata_io_read_i_atomic_step_end`: an error completes the read at once with
        that error; otherwise the step's sectors are drained and consumed, and the read
        goes on while sectors remain and completes with 0 when none do. */
    method StepEnd(error: int) returns (requeue: bool)
      requires Valid() && currCount <= count
      modifies this`count, this`currOffset, this`drained, this`completion
      ensures Valid()
      ensures error != 0 ==>
        && !requeue && completion == Some(error)
        && count == old(count) && currOffset == old(currOffset) && drained == old(drained)
      ensures error == 0 ==>
        && drained == old(drained) + [(old(currOffset), currCount)]
        && count == old(count) - currCount && currOffset == old(currOffset) + currCount
        && (requeue <==> count > 0)
        && completion == (if count > 0 then old(completion) else Some(0))
    {
      if error != 0 {
        completion := Some(error);
        return false;
      }
      drained := drained + [(currOffset, currCount)];
      count := count - currCount;
      currOffset := currOffset + currCount;
      if count > 0 {
        return true;
      }
      completion := Some(0);
      return false;
    }
  }

  /** The atomic-metadata read run to completion; `ioResult(j)` is the code step `j`'s
      read completes with. The drained ranges are the planned steps up to the first
      failing one, and the completion code is that step's error, or 0 when every step
      succeeded. */
  method ReadIAtomic(sectors: nat, atomicMetadataSize: nat, metadataOffset: nat, ioResult: nat -> int)
    returns (completion: int, drained: seq<(nat, nat)>)
    requires 0 < atomicMetadataSize <= PAGE_SIZE
    ensures var steps := StepsFrom(0, sectors, true, PAGE_SIZE / atomicMetadataSize);
      && |drained| <= |steps| && drained == steps[..|drained|]
      && (forall i :: 0 <= i < |drained| ==> ioResult(i) == 0)
      && (|drained| < |steps| ==> completion == ioResult(|drained|) && completion != 0)
      && (|drained| == |steps| ==> completion == 0)
  {
    var ctx := new AtomicReadContext(sectors, atomicMetadataSize, metadataOffset);
    ghost var steps := StepsFrom(0, sectors, true, ctx.maxSectors);
    var done := false;
    var j := 0;
    while !done
      invariant ctx.Valid() && ctx.sectors == sectors && ctx.maxSectors == PAGE_SIZE / atomicMetadataSize
      invariant j == |ctx.drained| <= |steps| && ctx.drained == steps[..j]
      invariant forall i :: 0 <= i < j ==> ioResult(i) == 0
      invariant !done ==> ctx.completion == None && steps[j..] == StepsFrom(ctx.currOffset, ctx.count, j == 0, ctx.maxSectors)
      invariant !done ==> j < |steps|
      invariant done ==> ctx.completion.Some?
      invariant done && j < |steps| ==> ctx.completion.value == ioResult(j) && ioResult(j) != 0
      invariant done && j == |steps| ==> ctx.completion == Some(0)
      decreases ctx.count + (if done then 0 else 1)
    {
      ghost var rest := steps[j..];
      var _, _ := ctx.Step();
      var requeue := ctx.StepEnd(ioResult(j));
      if ioResult(j) == 0 {
        assert rest[0] == ctx.drained[j];
        assert steps[..j + 1] == steps[..j] + [rest[0]];
        assert steps[j + 1..] == rest[1..];
        j := j + 1;
      }
      done := !requeue;
    }
    completion := ctx.completion.value;
    drained := ctx.drained;
  }
}
