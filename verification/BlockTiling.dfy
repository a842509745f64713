/**
 * How one step of the transfer benchmark cuts the buffer into blocks: all blocks in one synchronous request, or the
 * same blocks spread over a number of asynchronous requests.
 */
module BlockTiling {
  import opened Numbers
  import opened Sequences
  import opened Transfers

  datatype TransferConfig = TransferConfig(bufferSize: u64, transferSize: u64, blockSizes: seq<u64>, useAsync: bool,
                                           asyncBatches: u32)

  // ---------------------------------------------------------------- validation

  /** Blocks of this size fill the transfer exactly. */
  predicate Divides(block: u64, size: u64) {
    0 < block <= size && Rem(size, block) == 0
  }

  predicate ValidBlocks(cfg: TransferConfig) {
    cfg.blockSizes != [] && forall i | 0 <= i < |cfg.blockSizes| :: Divides(cfg.blockSizes[i], cfg.transferSize)
  }

  /** ValidateBlockSizes. */
  method ValidateBlockSizes(cfg: TransferConfig) returns (ok: bool)
    ensures ok == ValidBlocks(cfg)
  {
    if |cfg.blockSizes| == 0 {
      return false;
    }
    for i := 0 to |cfg.blockSizes|
      invariant forall j | 0 <= j < i :: Divides(cfg.blockSizes[j], cfg.transferSize)
    {
      var block := cfg.blockSizes[i];
      if block == 0 || block > cfg.transferSize || Rem(cfg.transferSize, block) != 0 {
        return false;
      }
    }
    return true;
  }

  /** The size of one asynchronous request. */
  function PerRequest(cfg: TransferConfig): u64
    requires cfg.asyncBatches > 0
  {
    Quotient(cfg.transferSize, cfg.asyncBatches)
  }

  predicate ValidAsync(cfg: TransferConfig)
    requires cfg.asyncBatches > 0
  {
    && Rem(cfg.transferSize, cfg.asyncBatches) == 0
    && forall i | 0 <= i < |cfg.blockSizes| :: cfg.blockSizes[i] > 0 ==> Rem(PerRequest(cfg), cfg.blockSizes[i]) == 0
  }

  /** ValidateAsyncConfig, which runs after the block sizes were found valid. */
  method ValidateAsyncConfig(cfg: TransferConfig) returns (ok: bool)
    requires cfg.asyncBatches > 0 && ValidBlocks(cfg)
    ensures ok == (cfg.useAsync ==> ValidAsync(cfg))
  {
    if !cfg.useAsync {
      return true;
    }
    if Rem(cfg.transferSize, cfg.asyncBatches) != 0 {
      return false;
    }
    var perRequest := PerRequest(cfg);
    for i := 0 to |cfg.blockSizes|
      invariant forall j | 0 <= j < i :: cfg.blockSizes[j] > 0 ==> Rem(perRequest, cfg.blockSizes[j]) == 0
    {
      assert Divides(cfg.blockSizes[i], cfg.transferSize);
      if Rem(perRequest, cfg.blockSizes[i]) != 0 {
        return false;
      }
    }
    return true;
  }

  // ---------------------------------------------------------------- descriptors

  /** Block k of the transfer. */
  function BlockAt(base: u64, dst: u64, block: u32, k: nat): TransferOpDesc {
    var offset: nat := k * block;
    TransferOpDesc(Wrap64(base + offset), Wrap64(dst + offset), block)
  }

  function Blocks(base: u64, dst: u64, block: u32, n: nat): (r: seq<TransferOpDesc>)
    ensures |r| == n
    ensures forall k {:trigger r[k]} | 0 <= k < n :: r[k] == BlockAt(base, dst, block, k)
  {
    seq(n, k requires 0 <= k < n => BlockAt(base, dst, block, k))
  }

  /** BuildSyncTransferDescriptors. */
  method BuildSyncDescriptors(base: u64, dst: u64, block: u32, count: u32) returns (descs: seq<TransferOpDesc>)
    ensures descs == Blocks(base, dst, block, count)
  {
    descs := [];
    for j := 0 to count
      invariant |descs| == j && forall k | 0 <= k < j :: descs[k] == BlockAt(base, dst, block, k)
    {
      descs := descs + [TransferOpDesc(Wrap64(base + j * block), Wrap64(dst + j * block), block)];
    }
  }

  /** The descriptors of asynchronous request b, with the 64-bit address arithmetic of the source. */
  function RequestBlocks(base: u64, dst: u64, perRequest: u64, block: u32, count: u32, b: nat): seq<TransferOpDesc> {
    var offset: nat := b * perRequest;
    Blocks(Wrap64(base + offset), Wrap64(dst + offset), block, count)
  }

  /**
   * SubmitAsyncRequests: accepts are the engine's answers. The requests go out in order up to the first one refused,
   * which ends the step.
   */
  method SubmitAsyncRequests(base: u64, dst: u64, perRequest: u64, block: u32, count: u32, batches: u32,
                             accepts: seq<bool>)
    returns (ok: bool, requests: seq<seq<TransferOpDesc>>)
    requires |accepts| == batches
    ensures ok <==> forall b | 0 <= b < batches :: accepts[b]
    ensures |requests| <= batches && (ok ==> |requests| == batches)
    ensures !ok ==> |requests| > 0 && !accepts[|requests| - 1] && forall b | 0 <= b < |requests| - 1 :: accepts[b]
    ensures forall b | 0 <= b < |requests| :: requests[b] == RequestBlocks(base, dst, perRequest, block, count, b)
  {
    hide Blocks, Wrap64;
    requests := [];
    for b := 0 to batches
      invariant |requests| == b && forall c | 0 <= c < b :: accepts[c]
      invariant forall c | 0 <= c < b :: requests[c] == RequestBlocks(base, dst, perRequest, block, count, c)
    {
      var requestBase, requestDst := Wrap64(base + b * perRequest), Wrap64(dst + b * perRequest);
      var descs := BuildSyncDescriptors(requestBase, requestDst, block, count);
      requests := requests + [descs];
      if !accepts[b] {
        return false, requests;
      }
    }
    return true, requests;
  }

  // ---------------------------------------------------------------- asynchronous equals synchronous

  lemma {:induction false} Spread(a: nat, b: nat, c: nat)
    ensures (a + b) * c == a * c + b * c
  {
  }

  lemma {:induction false} Regroup(b: nat, count: nat, block: nat)
    ensures b * (count * block) == (b * count) * block
  {
    if b > 0 {
      Regroup(b - 1, count, block);
      Spread(b - 1, 1, count * block);
      Spread(b - 1, 1, count);
      Spread((b - 1) * count, count, block);
    }
  }

  /** Block j of request b is block b * count + j of the transfer, wrap-around included. */
  lemma {:induction false} RequestBlockIs(base: u64, dst: u64, block: u32, count: u32, b: nat, j: nat)
    ensures BlockAt(Wrap64(base + b * (count * block)), Wrap64(dst + b * (count * block)), block, j)
            == BlockAt(base, dst, block, b * count + j)
  {
    Regroup(b, count, block);
    Spread(b * count, j, block);
    var x, y := b * (count * block), j * block;
    WrapAdd(base + x, y);
    WrapAdd(dst + x, y);
    assert (b * count + j) * block == x + y;
    hide Wrap64;
  }

  lemma {:induction false} RequestsConcatenate(base: u64, dst: u64, perRequest: u64, block: u32, count: u32,
                                               requests: seq<seq<TransferOpDesc>>, b: nat)
    requires perRequest == count * block && b <= |requests|
    requires forall c | 0 <= c < |requests| :: requests[c] == RequestBlocks(base, dst, perRequest, block, count, c)
    ensures Flatten(requests, b) == Blocks(base, dst, block, b * count)
  {
    if b > 0 {
      RequestsConcatenate(base, dst, perRequest, block, count, requests, b - 1);
      var n := (b - 1) * count;
      Spread(b - 1, 1, count);
      var more := requests[b - 1];
      assert more == RequestBlocks(base, dst, perRequest, block, count, b - 1);
      forall j | 0 <= j < count
        ensures more[j] == BlockAt(base, dst, block, n + j)
      {
        RequestBlockIs(base, dst, block, count, b - 1, j);
      }
      hide BlockAt, RequestBlocks, Flatten;
      AppendBlocks(base, dst, block, n, count, more);
      FlattenStep(requests, b);
    }
  }

  lemma {:induction false} FlattenStep(requests: seq<seq<TransferOpDesc>>, b: nat)
    requires 0 < b <= |requests|
    ensures Flatten(requests, b) == Cat(Flatten(requests, b - 1), requests[b - 1])
  {
  }

  lemma {:induction false} AppendBlocks(base: u64, dst: u64, block: u32, n: nat, count: nat, more: seq<TransferOpDesc>)
    requires |more| == count && forall j | 0 <= j < count :: more[j] == BlockAt(base, dst, block, n + j)
    ensures Cat(Blocks(base, dst, block, n), more) == Blocks(base, dst, block, n + count)
  {
    hide BlockAt;
    var all, first := Blocks(base, dst, block, n + count), Blocks(base, dst, block, n);
    assert all == first + more by {
      forall k | 0 <= k < n + count
        ensures all[k] == (first + more)[k]
      {
        assert k >= n ==> more[k - n] == BlockAt(base, dst, block, n + (k - n));
      }
    }
  }

  /** What the two counts of a step are. */
  function SyncCount(cfg: TransferConfig, block: u64): u32
    requires block > 0
  {
    Wrap32(Quotient(cfg.transferSize, block))
  }

  function AsyncCount(cfg: TransferConfig, block: u64): u32
    requires block > 0 && cfg.asyncBatches > 0
  {
    Wrap32(Quotient(PerRequest(cfg), block))
  }

  lemma {:induction false} QuotientOfProduct(k: nat, b: nat)
    requires b > 0
    ensures Quotient(k * b, b) == k
  {
    if k > 0 {
      QuotientOfProduct(k - 1, b);
      Spread(k - 1, 1, b);
      TimesMonotone(1, k, b);
    }
  }

  lemma {:induction false} Multiply(size: nat, batches: nat, perRequest: nat, count: nat, block: nat)
    requires perRequest * batches == size && count * block == perRequest
    ensures (batches * count) * block == size
  {
    Regroup(batches, count, block);
  }

  /** The blocks of all requests together are the blocks of the transfer. */
  lemma {:induction false} CountsMultiply(cfg: TransferConfig, block: u64)
    requires cfg.asyncBatches > 0 && block > 0 && Rem(cfg.transferSize, cfg.asyncBatches) == 0
             && Rem(PerRequest(cfg), block) == 0
    ensures PerRequest(cfg) == Quotient(PerRequest(cfg), block) * block
    ensures Quotient(cfg.transferSize, block) == cfg.asyncBatches * Quotient(PerRequest(cfg), block)
    ensures cfg.transferSize == Quotient(cfg.transferSize, block) * block
  {
    hide Quotient, Rem;
    QuotientAndRem(cfg.transferSize, cfg.asyncBatches);
    QuotientAndRem(PerRequest(cfg), block);
    var c := Quotient(PerRequest(cfg), block);
    Multiply(cfg.transferSize, cfg.asyncBatches, PerRequest(cfg), c, block);
    var n := cfg.asyncBatches * c;
    QuotientOfProduct(n, block);
  }

  lemma {:induction false} Wrap32Small(x: nat)
    ensures x < U32 <==> Wrap32(x) == x
  {
  }

  /** The requests of a step that none refuses, as SubmitAsyncRequests builds them for a validated configuration. */
  ghost predicate AreRequests(cfg: TransferConfig, block: u64, base: u64, dst: u64, requests: seq<seq<TransferOpDesc>>)
    requires cfg.asyncBatches > 0 && 0 < block < U32
  {
    && |requests| == cfg.asyncBatches
    && forall b | 0 <= b < |requests| ::
         requests[b] == RequestBlocks(base, dst, PerRequest(cfg), block, AsyncCount(cfg, block), b)
  }

  /** Requests of fewer than 2^32 blocks each: only the synchronous count may be truncated. */
  lemma {:induction false} ShortRequests(cfg: TransferConfig, block: u64, base: u64, dst: u64,
                                         requests: seq<seq<TransferOpDesc>>)
    requires cfg.asyncBatches > 0 && 0 < block < U32 && AreRequests(cfg, block, base, dst, requests)
    requires Rem(cfg.transferSize, cfg.asyncBatches) == 0 && Rem(PerRequest(cfg), block) == 0
             && Quotient(PerRequest(cfg), block) < U32
    ensures Flatten(requests, |requests|) == Blocks(base, dst, block, SyncCount(cfg, block))
            <==> Quotient(cfg.transferSize, block) < U32
  {
    CountsMultiply(cfg, block);
    Wrap32Small(Quotient(PerRequest(cfg), block));
    Wrap32Small(Quotient(cfg.transferSize, block));
    hide Flatten, Quotient, Rem, Wrap32, PerRequest, RequestBlocks;
    RequestsConcatenate(base, dst, PerRequest(cfg), block, AsyncCount(cfg, block), requests, |requests|);
  }

  /** A single request is the synchronous list, truncated alike. */
  lemma {:induction false} OneRequest(cfg: TransferConfig, block: u64, base: u64, dst: u64,
                                      requests: seq<seq<TransferOpDesc>>)
    requires cfg.asyncBatches == 1 && 0 < block < U32 && AreRequests(cfg, block, base, dst, requests)
    ensures Flatten(requests, |requests|) == Blocks(base, dst, block, SyncCount(cfg, block))
  {
    QuotientOfProduct(cfg.transferSize, 1);
    assert PerRequest(cfg) == cfg.transferSize;
    WrapSmall(base);
    WrapSmall(dst);
    assert requests[0] == Blocks(base, dst, block, SyncCount(cfg, block));
    assert Flatten(requests, 0) == [];
    hide Wrap64, Quotient, Blocks;
    FlattenStep(requests, 1);
  }

  lemma {:induction false} AllEmpty(requests: seq<seq<TransferOpDesc>>, n: nat)
    requires n <= |requests| && forall b | 0 <= b < n :: requests[b] == []
    ensures Flatten(requests, n) == []
  {
    if n > 0 {
      AllEmpty(requests, n - 1);
    }
  }

  lemma {:induction false} WrapTimes(b: nat, c: nat)
    requires Wrap32(c) == 0
    ensures Wrap32(b * c) == 0
  {
    if b > 0 {
      WrapTimes(b - 1, c);
      Spread(b - 1, 1, c);
      RemAdd((b - 1) * c, c, 0x1_0000_0000);
    }
  }

  /** Requests whose count is truncated to 0 are empty, and so is the synchronous list. */
  lemma {:induction false} EmptyRequests(cfg: TransferConfig, block: u64, base: u64, dst: u64,
                                         requests: seq<seq<TransferOpDesc>>)
    requires cfg.asyncBatches > 0 && 0 < block < U32 && AreRequests(cfg, block, base, dst, requests)
    requires Rem(cfg.transferSize, cfg.asyncBatches) == 0 && Rem(PerRequest(cfg), block) == 0
             && AsyncCount(cfg, block) == 0
    ensures Flatten(requests, |requests|) == Blocks(base, dst, block, SyncCount(cfg, block))
  {
    CountsMultiply(cfg, block);
    WrapTimes(cfg.asyncBatches, Quotient(PerRequest(cfg), block));
    assert SyncCount(cfg, block) == 0;
    assert Blocks(base, dst, block, 0) == [];
    hide Flatten, Quotient, Rem, Wrap32, PerRequest;
    forall b | 0 <= b < |requests|
      ensures requests[b] == []
    {
      assert |requests[b]| == 0;
    }
    AllEmpty(requests, |requests|);
  }

  lemma {:induction false} WrapTellsApart(x: nat, d: nat)
    requires 0 < d < U64
    ensures Wrap64(x) != Wrap64(x + d)
  {
    if x >= U64 {
      WrapTellsApart(x - U64, d);
    } else if x + d >= U64 {
      assert Wrap64(x + d) == Rem(x + d - U64, U64);
    }
  }

  lemma {:induction false} AddressesDiffer(base: u64, block: nat, m: nat, c: nat)
    requires m < c && block > 0 && c * block < U64
    ensures Wrap64(base + m * block) != Wrap64(base + c * block)
  {
    Spread(m, c - m, block);
    TimesMonotone(1, c - m, block);
    WrapTellsApart(base + m * block, (c - m) * block);
  }

  /** The first block of the second request. */
  lemma {:induction false} SecondRequest(requests: seq<seq<TransferOpDesc>>, base: u64, dst: u64, perRequest: u64,
                                         block: u32, m: u32)
    requires |requests| > 1 && m > 0
    requires forall b | 0 <= b < |requests| :: requests[b] == RequestBlocks(base, dst, perRequest, block, m, b)
    ensures m < |Flatten(requests, |requests|)|
            && Flatten(requests, |requests|)[m].localAddr == Wrap64(base + perRequest)
  {
    assert requests[0] == RequestBlocks(base, dst, perRequest, block, m, 0);
    assert requests[1] == RequestBlocks(base, dst, perRequest, block, m, 1);
    assert |requests[0]| == m
           && requests[1][0] == BlockAt(Wrap64(base + perRequest), Wrap64(dst + perRequest), block, 0);
    WrapSmall(Wrap64(base + perRequest));
    hide RequestBlocks, Wrap64;
    FirstLength(requests);
    FlattenPut(requests, |requests|, 1, 0);
    hide Flatten;
  }

  /** Truncation that keeps something: several requests leave a gap that the synchronous list does not have. */
  lemma {:induction false} GappedRequests(cfg: TransferConfig, block: u64, base: u64, dst: u64,
                                          requests: seq<seq<TransferOpDesc>>)
    requires cfg.asyncBatches > 1 && 0 < block < U32 && AreRequests(cfg, block, base, dst, requests)
    requires Rem(cfg.transferSize, cfg.asyncBatches) == 0 && Rem(PerRequest(cfg), block) == 0
    requires Quotient(PerRequest(cfg), block) >= U32 && AsyncCount(cfg, block) > 0
    ensures Flatten(requests, |requests|) != Blocks(base, dst, block, SyncCount(cfg, block))
  {
    hide Quotient, Rem, Wrap32, Wrap64, PerRequest, Flatten, RequestBlocks, AsyncCount, SyncCount;
    var m, c := AsyncCount(cfg, block), Quotient(PerRequest(cfg), block);
    CountsMultiply(cfg, block);
    SecondRequest(requests, base, dst, PerRequest(cfg), block, m);
    AddressesDiffer(base, block, m, c);
    var sync := Blocks(base, dst, block, SyncCount(cfg, block));
    assert m < |sync| ==> sync[m] == BlockAt(base, dst, block, m);
  }

  lemma {:induction false} FirstLength(requests: seq<seq<TransferOpDesc>>)
    requires |requests| > 0
    ensures |Flatten(requests, 1)| == |requests[0]|
  {
    assert Flatten(requests, 0) == [];
  }

  /**
   * For every validated configuration: the asynchronous requests, one after the other, are the synchronous descriptor
   * list if and only if the transfer has fewer than 2^32 blocks, or there is one request only, or the truncated count
   * of a request is 0, which leaves both empty.
   */
  lemma {:induction false} AsyncEqualsSyncIff(cfg: TransferConfig, i: nat, base: u64, dst: u64,
                                              requests: seq<seq<TransferOpDesc>>)
    requires cfg.asyncBatches > 0 && ValidBlocks(cfg) && ValidAsync(cfg) && i < |cfg.blockSizes|
             && 0 < cfg.blockSizes[i] < U32
    requires AreRequests(cfg, cfg.blockSizes[i], base, dst, requests)
    ensures Flatten(requests, |requests|) == Blocks(base, dst, cfg.blockSizes[i], SyncCount(cfg, cfg.blockSizes[i]))
            <==> || Quotient(cfg.transferSize, cfg.blockSizes[i]) < U32 || cfg.asyncBatches == 1
                 || AsyncCount(cfg, cfg.blockSizes[i]) == 0
  {
    var block := cfg.blockSizes[i];
    assert Divides(block, cfg.transferSize);
    CountsMultiply(cfg, block);
    var c := Quotient(PerRequest(cfg), block);
    assert Rem(cfg.transferSize, cfg.asyncBatches) == 0 && Rem(PerRequest(cfg), block) == 0;
    hide Flatten, Quotient, Rem, PerRequest, AreRequests, ValidAsync, ValidBlocks, Blocks, Wrap32, AsyncCount;
    TimesMonotone(1, cfg.asyncBatches, c);
    if cfg.asyncBatches == 1 {
      OneRequest(cfg, block, base, dst, requests);
    } else if AsyncCount(cfg, block) == 0 {
      EmptyRequests(cfg, block, base, dst, requests);
    } else if c < U32 {
      ShortRequests(cfg, block, base, dst, requests);
    } else {
      GappedRequests(cfg, block, base, dst, requests);
    }
  }

  /**
   * With fewer than 2^32 blocks and a buffer inside the address space, block k lies right after block k - 1, and the
   * last one ends the transfer.
   */
  lemma {:induction false} BlocksTile(cfg: TransferConfig, i: nat, base: u64, dst: u64, k: nat)
    requires ValidBlocks(cfg) && i < |cfg.blockSizes| && cfg.blockSizes[i] < U32 && cfg.transferSize <= cfg.bufferSize
    requires base + cfg.bufferSize <= U64 && dst + cfg.bufferSize <= U64
    requires Quotient(cfg.transferSize, cfg.blockSizes[i]) < U32 && k < SyncCount(cfg, cfg.blockSizes[i])
    ensures var d := Blocks(base, dst, cfg.blockSizes[i], SyncCount(cfg, cfg.blockSizes[i]))[k];
            && d.localAddr == base + k * cfg.blockSizes[i] && d.remoteAddr == dst + k * cfg.blockSizes[i]
            && d.len == cfg.blockSizes[i] && d.localAddr + d.len <= base + cfg.transferSize
            && (k + 1 == SyncCount(cfg, cfg.blockSizes[i]) ==> d.localAddr + d.len == base + cfg.transferSize)
  {
    var block, n := cfg.blockSizes[i], SyncCount(cfg, cfg.blockSizes[i]);
    assert Divides(block, cfg.transferSize);
    QuotientAndRem(cfg.transferSize, block);
    Wrap32Small(Quotient(cfg.transferSize, block));
    hide Quotient, Rem, Wrap32, ValidBlocks;
    TimesMonotone(k + 1, n, block);
    Spread(k, 1, block);
    WrapSmall(base + k * block);
    WrapSmall(dst + k * block);
  }

  /**
   * At 2^32 blocks of one byte the synchronous list is empty, while two asynchronous requests still cover everything.
   */
  lemma {:induction false} SyncLosesAll(cfg: TransferConfig)
    requires cfg == TransferConfig(U32, U32, [1], true, 2)
    ensures ValidBlocks(cfg) && ValidAsync(cfg) && SyncCount(cfg, 1) == 0 && AsyncCount(cfg, 1) == 0x8000_0000
  {
    RemByOne(U32);
    QuotientOfProduct(U32, 1);
    QuotientOfProduct(0x8000_0000, 2);
    assert Rem(U32, 2) == 0 by {
      RemIsModulo(U32, 2);
    }
    RemByOne(0x8000_0000);
    QuotientOfProduct(0x8000_0000, 1);
    assert Wrap32(U32) == 0;
    hide Quotient, Rem;
    assert PerRequest(cfg) == 0x8000_0000;
  }

  lemma {:induction false} RemByOne(a: nat)
    ensures Rem(a, 1) == 0
  {
    RemIsModulo(a, 1);
  }

  // ---------------------------------------------------------------- what was validated

  lemma {:induction false} RemOfProduct(n: nat, b: nat)
    requires b > 0
    ensures Rem(n * b, b) == 0
  {
    if n > 0 {
      RemOfProduct(n - 1, b);
      Spread(n - 1, 1, b);
    }
  }

  /** A size leaves no remainder exactly if it is a multiple. */
  lemma {:induction false} NoRemainderIff(size: nat, b: nat)
    requires b > 0
    ensures Rem(size, b) == 0 <==> exists n: nat :: n * b == size
  {
    QuotientAndRem(size, b);
    if Rem(size, b) == 0 {
      assert Quotient(size, b) * b == size;
    }
    forall n: nat | n * b == size
      ensures Rem(size, b) == 0
    {
      RemOfProduct(n, b);
    }
    hide Rem, Quotient;
  }

  /** A block size is accepted exactly if one or more blocks of it make up the transfer. */
  lemma {:induction false} DividesIff(block: u64, size: u64)
    ensures Divides(block, size) <==> block > 0 && exists n: nat :: n > 0 && n * block == size
  {
    if block > 0 {
      NoRemainderIff(size, block);
      hide Rem;
      if Divides(block, size) {
        var n: nat :| n * block == size;
        assert n > 0;
      }
      forall n: nat | n > 0 && n * block == size
        ensures block <= size
      {
        TimesMonotone(1, n, block);
      }
    }
  }

  /** An asynchronous step is accepted exactly if the requests have one size and every block size divides it. */
  lemma {:induction false} ValidAsyncIff(cfg: TransferConfig)
    requires cfg.asyncBatches > 0 && ValidBlocks(cfg)
    ensures ValidAsync(cfg) <==>
              exists perRequest: nat ::
                && perRequest * cfg.asyncBatches == cfg.transferSize
                && forall i | 0 <= i < |cfg.blockSizes| :: Multiple(perRequest, cfg.blockSizes[i])
  {
    NoRemainderIff(cfg.transferSize, cfg.asyncBatches);
    QuotientAndRem(cfg.transferSize, cfg.asyncBatches);
    forall i | 0 <= i < |cfg.blockSizes|
      ensures cfg.blockSizes[i] > 0
      ensures Rem(PerRequest(cfg), cfg.blockSizes[i]) == 0 <==> Multiple(PerRequest(cfg), cfg.blockSizes[i])
    {
      assert Divides(cfg.blockSizes[i], cfg.transferSize);
      NoRemainderIff(PerRequest(cfg), cfg.blockSizes[i]);
    }
    hide Rem, Quotient, Multiple;
    forall perRequest: nat | perRequest * cfg.asyncBatches == cfg.transferSize
      ensures perRequest == PerRequest(cfg)
    {
      Cancel(perRequest, PerRequest(cfg), cfg.asyncBatches);
    }
  }

  /** The size is made up of whole blocks. */
  ghost predicate Multiple(size: nat, block: nat) {
    exists n: nat :: n * block == size
  }
}
