/**
 * The block-ring audio producer `NoiseMaker<T>`: a fixed pool of `blockCount`
 * blocks of `blockSamples` samples each, laid out one after the other in a
 * single sample array, with one wave header per block. A producer loop takes
 * a free block, fills it with quantized samples of a synthesis function,
 * hands it to the output device and moves round-robin to the next block; the
 * device's completion callback gives blocks back.
 *
 * The sample type `T` is represented by its size in bytes, `sampleBytes`.
 * The floating clock is represented by the number of samples generated so
 * far, `time`; the clock in seconds is `time / sampleRate`.
 */
module Noise {
  import opened Wrappers
  import CMath

  /** `unsigned int` and `DWORD` on the target platform. */
  type uint32 = x: int | 0 <= x < 0x1_0000_0000

  const TwoTo16: nat := 0x1_0000
  const TwoTo32: nat := 0x1_0000_0000

  /* ---------------------------------------------------------------------- */
  /* Sample arithmetic                                                       */
  /* ---------------------------------------------------------------------- */

  function Min(a: real, b: real): real { if a <= b then a else b }
  function Max(a: real, b: real): real { if a >= b then a else b }

  /**
   * `clip`: limits a sample to `[-max, max]`, treating non-negative and
   * negative samples separately.
   */
  function Clip(sample: real, max: real): (r: real)
    ensures 0.0 <= max ==> -max <= r <= max
    ensures -max <= sample <= max ==> r == sample
    ensures 0.0 <= max <= sample ==> r == max
    ensures sample <= -max <= 0.0 ==> r == -max
  {
    if sample >= 0.0 then Min(sample, max) else Max(sample, -max)
  }

  /** Clipping twice to the same bound is clipping once. */
  lemma ClipIdempotent(sample: real, max: real)
    requires 0.0 <= max
    ensures Clip(Clip(sample, max), max) == Clip(sample, max)
  {
  }

  function Pow2(n: nat): (r: nat)
    ensures r >= 1
  {
    if n == 0 then 1 else 2 * Pow2(n - 1)
  }

  /** `x` is representable in a signed two's-complement integer of `bits` bits. */
  predicate FitsSigned(x: int, bits: nat)
    requires bits >= 1
  {
    -(Pow2(bits - 1) as int) <= x < Pow2(bits - 1)
  }

  /**
   * The largest value of the signed sample type `T` of `sampleBytes` bytes,
   * `2^(8*sizeof(T)-1) - 1`: it and its negation fit in `T`, its successor
   * does not.
   */
  function MaxSample(sampleBytes: nat): (m: nat)
    requires sampleBytes >= 1
    ensures FitsSigned(m, 8 * sampleBytes) && FitsSigned(-(m as int), 8 * sampleBytes)
    ensures !FitsSigned(m + 1, 8 * sampleBytes)
  {
    Pow2(8 * sampleBytes - 1) - 1
  }

  /**
   * One output sample: the synthesized value clipped to `[-1, 1]`, scaled by
   * the largest sample value and converted to `T` (truncating toward zero).
   */
  function Quantize(x: real, maxSample: nat): (r: int)
    ensures -(maxSample as int) <= r <= maxSample
    ensures 0.0 <= x ==> 0 <= r
    ensures x <= 0.0 ==> r <= 0
  {
    var v := Scale(Clip(x, 1.0), maxSample as real);
    CMath.TruncWithin(v, maxSample);
    CMath.Trunc(v)
  }

  /** A synthesized value at or beyond full scale gives the extreme sample value. */
  lemma QuantizeSaturates(x: real, maxSample: nat)
    ensures 1.0 <= x ==> Quantize(x, maxSample) == maxSample
    ensures x <= -1.0 ==> Quantize(x, maxSample) == -(maxSample as int)
  {
    var m := maxSample as real;
    if 1.0 <= x {
      assert Scale(Clip(x, 1.0), m) == m;
      assert CMath.Trunc(m) == maxSample;
    } else if x <= -1.0 {
      assert Scale(Clip(x, 1.0), m) == -m;
      assert CMath.Trunc(-m) == -(maxSample as int);
    }
  }

  /** A factor in `[-1, 1]` scales `m` into `[-m, m]`, keeping its sign. */
  function Scale(c: real, m: real): (r: real)
    requires -1.0 <= c <= 1.0 && 0.0 <= m
    ensures -m <= r <= m
    ensures 0.0 <= c ==> 0.0 <= r
    ensures c <= 0.0 ==> r <= 0.0
  {
    assert (1.0 - c) * m >= 0.0;
    assert (1.0 + c) * m >= 0.0;
    c * m
  }

  /** Every quantized sample fits in the sample type. */
  lemma QuantizedFits(x: real, sampleBytes: nat)
    requires sampleBytes >= 1
    ensures FitsSigned(Quantize(x, MaxSample(sampleBytes)), 8 * sampleBytes)
  {
  }

  /** `UserProcess`: the default synthesis function, silence. */
  function UserProcess(t: real): (r: real)
    ensures r == 0.0
  {
    0.0
  }

  /* ---------------------------------------------------------------------- */
  /* Output format                                                           */
  /* ---------------------------------------------------------------------- */

  const WaveFormatPcm: nat := 1

  /**
   * The `WAVEFORMATEX` record passed to the device. `channels` and
   * `blockAlign` are 16-bit fields, `samplesPerSec` and `avgBytesPerSec`
   * 32-bit ones.
   */
  datatype WaveFormat = WaveFormat(
    formatTag: nat,
    channels: nat,
    samplesPerSec: nat,
    avgBytesPerSec: nat,
    blockAlign: nat,
    bitsPerSample: nat,
    cbSize: nat)

  /**
   * The format `Create` requests: uncompressed PCM, 32 bits per sample, with
   * the stored widths of the fields applied as the C++ assignments apply them.
   */
  function PcmFormat(sampleRate: uint32, channels: uint32): (f: WaveFormat)
    ensures f.formatTag == WaveFormatPcm && f.bitsPerSample == 32 && f.cbSize == 0
    ensures f.samplesPerSec == sampleRate
    ensures f.channels < TwoTo16 && f.blockAlign < TwoTo16 && f.avgBytesPerSec < TwoTo32
  {
    var ch := channels % TwoTo16;
    var align := (32 / 8 * ch) % TwoTo16;
    WaveFormat(WaveFormatPcm, ch, sampleRate, (sampleRate * align) % TwoTo32, align, 32, 0)
  }

  /**
   * Within the field widths the format follows the standard PCM formulas: a
   * frame is `bitsPerSample / 8` bytes per channel and the byte rate is the
   * frame size times the sample rate.
   */
  lemma PcmFormatExact(sampleRate: uint32, channels: uint32)
    requires channels < 0x4000
    requires sampleRate * (4 * channels) < TwoTo32
    ensures PcmFormat(sampleRate, channels).channels == channels
    ensures PcmFormat(sampleRate, channels).blockAlign == 32 / 8 * channels
    ensures PcmFormat(sampleRate, channels).avgBytesPerSec == sampleRate * (32 / 8 * channels)
  {
    var align := 4 * channels;
    DivModUnique(channels, TwoTo16, 0, channels);
    DivModUnique(align, TwoTo16, 0, align);
    DivModUnique(sampleRate * align, TwoTo32, 0, sampleRate * align);
  }

  /* ---------------------------------------------------------------------- */
  /* Device selection                                                        */
  /* ---------------------------------------------------------------------- */

  /**
   * The device ID `Create` opens: `std::find` over the enumerated device
   * names gives the position of the first one equal to the requested name,
   * or the end of the list when there is none.
   */
  function FindDevice(devices: seq<string>, name: string): (id: Option<nat>)
    ensures id.Some? ==> id.value < |devices| && devices[id.value] == name
    ensures id.Some? ==> forall j :: 0 <= j < id.value ==> devices[j] != name
    ensures id.None? <==> name !in devices
  {
    if |devices| == 0 then None
    else if devices[0] == name then Some(0)
    else match FindDevice(devices[1..], name)
      case None => None
      case Some(i) => Some(i + 1)
  }

  /* ---------------------------------------------------------------------- */
  /* Multiplication and division facts used by the layout and the ring       */
  /* ---------------------------------------------------------------------- */

  lemma MulMonotone(a: nat, b: nat, c: nat)
    requires a <= b
    ensures a * c <= b * c
  {
    assert b * c == a * c + (b - a) * c;
  }

  lemma MulStep(a: nat, b: nat, c: nat)
    requires a < b
    ensures a * c + c <= b * c
  {
    assert b * c == a * c + c + (b - a - 1) * c;
  }

  /** Quotient and remainder are determined by `a == q * n + r` with `0 <= r < n`. */
  lemma DivModUnique(a: nat, n: nat, q: nat, r: nat)
    requires 0 <= r < n && a == q * n + r
    ensures a / n == q && a % n == r
  {
    var q', r' := a / n, a % n;
    assert a == q' * n + r';
    if q' < q {
      MulStep(q', q, n);
    } else if q < q' {
      MulStep(q, q', n);
    }
  }

  /* ---------------------------------------------------------------------- */
  /* Block layout                                                            */
  /* ---------------------------------------------------------------------- */

  /** Number of samples in the pool: one contiguous array for all blocks. */
  function PoolSlots(blockCount: nat, blockSamples: nat): nat
  {
    blockCount * blockSamples
  }

  /** The first slot of block `n`. */
  function BlockStart(n: nat, blockSamples: nat): nat
  {
    n * blockSamples
  }

  /** Slot `i` of the pool belongs to block `n`. */
  predicate InBlock(i: nat, n: nat, blockSamples: nat)
  {
    BlockStart(n, blockSamples) <= i < BlockStart(n, blockSamples) + blockSamples
  }

  /** Every slot of every block of the pool lies inside the pool. */
  lemma BlockWithinPool(n: nat, blockCount: nat, blockSamples: nat)
    requires n < blockCount
    ensures BlockStart(n, blockSamples) + blockSamples <= PoolSlots(blockCount, blockSamples)
  {
    MulStep(n, blockCount, blockSamples);
  }

  /**
   * A slot belongs to block `n` exactly when `n` is the slot index divided by
   * the block length: so the blocks are pairwise disjoint.
   */
  lemma {:induction false} SlotOwner(i: nat, n: nat, blockSamples: nat)
    ensures InBlock(i, n, blockSamples) <==> blockSamples > 0 && i / blockSamples == n
  {
    if blockSamples > 0 && InBlock(i, n, blockSamples) {
      DivModUnique(i, blockSamples, n, i - n * blockSamples);
    }
  }

  /** The blocks tile the pool: every slot of the pool is in a block of the pool. */
  lemma PoolTiled(i: nat, blockCount: nat, blockSamples: nat)
    requires i < PoolSlots(blockCount, blockSamples)
    ensures blockSamples > 0 && i / blockSamples < blockCount
    ensures InBlock(i, i / blockSamples, blockSamples)
  {
    assert blockSamples > 0;
    var q := i / blockSamples;
    SlotOwner(i, q, blockSamples);
    if blockCount <= q {
      MulMonotone(blockCount, q, blockSamples);
    }
  }

  /**
   * The pool size as `Create` computes it: the product of two `unsigned int`
   * values, which wraps around modulo 2^32.
   */
  function PoolSlotsAsWritten(blockCount: uint32, blockSamples: uint32): (r: nat)
    ensures r < TwoTo32
    ensures PoolSlots(blockCount, blockSamples) < TwoTo32 ==> r == PoolSlots(blockCount, blockSamples)
    ensures PoolSlots(blockCount, blockSamples) >= TwoTo32 ==> r != PoolSlots(blockCount, blockSamples)
  {
    (blockCount * blockSamples) % TwoTo32
  }

  /**
   * With 65536 blocks of 65536 samples the allocation wraps to nothing, while
   * the header of block 1 still points at sample 65536, past its end.
   */
  lemma PoolSlotsWrap()
    ensures PoolSlotsAsWritten(0x1_0000, 0x1_0000) == 0
    ensures InBlock(0x1_0000, 1, 0x1_0000)
    ensures PoolSlotsAsWritten(0x1_0000, 0x1_0000) <= BlockStart(1, 0x1_0000)
    ensures 0x1_0000 < PoolSlots(0x1_0000, 0x1_0000)
  {
  }

  /* ---------------------------------------------------------------------- */
  /* Round-robin accounting                                                  */
  /* ---------------------------------------------------------------------- */

  /** Two block numbers less than a full ring apart land on different blocks. */
  lemma {:induction false} RingDistinct(a: nat, b: nat, count: nat)
    requires 0 < count && a < b < a + count
    ensures a % count != b % count
  {
    var qa, qb := a / count, b / count;
    if a % count == b % count {
      if qb <= qa {
        MulMonotone(qb, qa, count);
      } else {
        MulStep(qa, qb, count);
      }
    }
  }

  /**
   * Blocks are numbered in submission order and block number `k` lives in
   * slot `k % count`. While the device holds at most `count` blocks, the
   * blocks it holds occupy distinct slots, and while it holds fewer than
   * `count`, the next block to be filled is none of them.
   */
  lemma InFlightDisjoint(completed: nat, submitted: nat, count: nat)
    requires 0 < count && completed <= submitted <= completed + count
    ensures forall i, j :: completed <= i < j < submitted ==> i % count != j % count
    ensures submitted < completed + count ==>
      forall i :: completed <= i < submitted ==> i % count != submitted % count
  {
    forall i, j | completed <= i < j < submitted
      ensures i % count != j % count
    {
      RingDistinct(i, j, count);
    }
    if submitted < completed + count {
      forall i | completed <= i < submitted
        ensures i % count != submitted % count
      {
        RingDistinct(i, submitted, count);
      }
    }
  }

  /** The slot of the block filled `j` passes after the producer stood at `start`. */
  function RingSlot(start: nat, j: nat, count: nat): (r: nat)
    requires 0 < count
    ensures r < count
  {
    (start + j) % count
  }

  /**
   * A slot of the block filled `a` passes on lies in no block filled fewer
   * than a full ring of passes before or after it.
   */
  lemma OtherBlock(k: nat, start: nat, a: nat, b: nat, count: nat, blockSamples: nat)
    requires 0 < count && (a < b < a + count || b < a < b + count)
    ensures InBlock(k, RingSlot(start, a, count), blockSamples) ==> !InBlock(k, RingSlot(start, b, count), blockSamples)
  {
    if a < b {
      RingDistinct(start + a, start + b, count);
    } else {
      RingDistinct(start + b, start + a, count);
    }
    SlotOwner(k, RingSlot(start, a, count), blockSamples);
    SlotOwner(k, RingSlot(start, b, count), blockSamples);
  }

  /** Moving one slot on in the ring is counting one more block. */
  lemma {:induction false} RingStep(k: nat, count: nat)
    requires 0 < count
    ensures (k % count + 1) % count == (k + 1) % count
  {
    var q, r := k / count, k % count;
    if r + 1 == count {
      DivModUnique(k + 1, count, q + 1, 0);
      DivModUnique(count, count, 1, 0);
    } else {
      DivModUnique(k + 1, count, q, r + 1);
      DivModUnique(r + 1, count, 0, r + 1);
    }
  }

  /* ---------------------------------------------------------------------- */
  /* The producer                                                            */
  /* ---------------------------------------------------------------------- */

  /** `WAVEHDR`: where a block's data starts (in samples) and its length in bytes. */
  datatype Header = Header(dataOffset: nat, bufferLength: nat, prepared: bool)

  /** Messages the device sends to the completion callback. */
  datatype WaveOutMessage = Open | Close | Done

  /**
   * The allocations of `Create`: the zeroed pool of `blocks * blockSamples`
   * samples and the zeroed wave headers, header `n` pointing at sample
   * `n * blockSamples` with a length of one block in bytes.
   */
  method AllocateBlocks(blocks: nat, blockSamples: nat, sampleBytes: nat)
    returns (pool: array<int>, hdrs: array<Header>)
    ensures fresh(pool) && fresh(hdrs)
    ensures pool.Length == PoolSlots(blocks, blockSamples)
    ensures forall i :: 0 <= i < pool.Length ==> pool[i] == 0
    ensures hdrs.Length == blocks
    ensures forall n :: 0 <= n < blocks ==>
      hdrs[n] == Header(BlockStart(n, blockSamples), blockSamples * sampleBytes, false)
  {
    pool := new int[PoolSlots(blocks, blockSamples)](_ => 0);
    hdrs := new Header[blocks](_ => Header(0, 0, false));
    for n := 0 to blocks
      invariant forall i :: 0 <= i < pool.Length ==> pool[i] == 0
      invariant forall j :: 0 <= j < n ==>
        hdrs[j] == Header(BlockStart(j, blockSamples), blockSamples * sampleBytes, false)
    {
      hdrs[n] := Header(BlockStart(n, blockSamples), blockSamples * sampleBytes, false);
    }
  }

  class NoiseMaker {
    /** `sizeof(T)`. */
    const sampleBytes: nat

    var userFunction: Option<real -> real>
    var sampleRate: uint32
    var channels: uint32
    var blockCount: uint32
    var blockSamples: uint32
    /** `m_nBlockCurrent`: the block the producer fills next. */
    var current: nat
    /** `m_nBlockFree`: blocks the producer may fill. */
    var free: nat
    var ready: bool
    var memory: array?<int>
    var headers: array?<Header>
    /** The device opened by `Create`, with the format it was opened with. */
    var device: Option<nat>
    var format: Option<WaveFormat>
    /** Samples generated since the producer started: the global clock. */
    var time: nat

    /** Blocks handed to the device so far, and blocks it has given back. */
    ghost var submitted: nat
    ghost var completed: nat
    /** The blocks the device holds, oldest first. */
    ghost var inFlight: seq<nat>

    /**
     * The ring accounting: block number `k` lives in slot `k % blockCount`,
     * the producer stands at the slot of the next block number, the device
     * holds the blocks between `completed` and `submitted`, and every block
     * is either free or held by the device.
     */
    ghost predicate RingValid()
      reads this`blockCount, this`current, this`free, this`submitted, this`completed, this`inFlight
    {
      && current == (if blockCount == 0 then 0 else submitted % blockCount)
      && (blockCount == 0 ==> submitted == 0)
      && completed <= submitted
      && |inFlight| == submitted - completed
      && free + |inFlight| == blockCount
      && (forall i :: 0 <= i < |inFlight| ==> inFlight[i] == (completed + i) % blockCount)
    }

    /**
     * The storage layout: the pool and the headers exist together, the pool
     * holds `blockCount` blocks and header `n` describes block `n`.
     */
    ghost predicate StorageValid()
      reads this`memory, this`headers, this`ready, this`blockCount, this`blockSamples, headers
    {
      && sampleBytes >= 1
      && (memory == null <==> headers == null)
      && (ready ==> memory != null)
      && (memory != null ==> memory.Length == PoolSlots(blockCount, blockSamples))
      && (headers != null ==>
            && headers.Length == blockCount
            && forall n :: 0 <= n < headers.Length ==>
                 headers[n].dataOffset == BlockStart(n, blockSamples) &&
                 headers[n].bufferLength == blockSamples * sampleBytes)
    }

    ghost predicate Valid()
      reads this, headers
    {
      RingValid() && StorageValid()
    }

    /**
     * The synthesis function in use: the registered one, else `UserProcess`,
     * so a producer without a registered function plays silence.
     */
    function Source(t: real): (r: real)
      reads this`userFunction
      ensures userFunction.None? ==> r == 0.0
      ensures userFunction.Some? ==> r == userFunction.value(t)
    {
      match userFunction
      case None => UserProcess(t)
      case Some(f) => f(t)
    }

    /** The clock in seconds after `k` samples. */
    function Clock(k: nat): real
      reads this`sampleRate
      requires sampleRate > 0
    {
      k as real / sampleRate as real
    }

    /** The sample the producer writes when the clock stands at `k` samples. */
    function SampleAt(k: nat): (r: int)
      reads this`userFunction, this`sampleRate
      requires sampleBytes >= 1 && sampleRate > 0
      ensures -(MaxSample(sampleBytes) as int) <= r <= MaxSample(sampleBytes)
      ensures FitsSigned(r, 8 * sampleBytes)
    {
      Quantize(Source(Clock(k)), MaxSample(sampleBytes))
    }

    /**
     * `Create`, which the C++ constructor calls and nothing else does: records
     * the configuration, looks the device up by name and, when it is listed,
     * opens it with the PCM format (`openSucceeds` is the device's answer). If
     * opening fails, `Destroy` ends `Create` with the producer not ready and
     * nothing allocated; otherwise it allocates the zeroed pool and the
     * headers, marks the producer ready and starts its clock. `Create`'s
     * result is the final value of `ready`.
     */
    constructor Create(sampleBytes: nat, devices: seq<string>, outputDevice: string,
                       sampleRate: uint32, channels: uint32, blocks: uint32, blockSamples: uint32,
                       openSucceeds: bool)
      requires sampleBytes >= 1
      ensures Valid() && this.sampleBytes == sampleBytes
      ensures this.sampleRate == sampleRate && this.channels == channels
      ensures blockCount == blocks && this.blockSamples == blockSamples
      ensures free == blocks && current == 0 && userFunction == None
      ensures inFlight == [] && submitted == 0 && time == 0
      ensures device == (if openSucceeds then FindDevice(devices, outputDevice) else None)
      ensures format == (if device.Some? then Some(PcmFormat(sampleRate, channels)) else None)
      ensures ready == (FindDevice(devices, outputDevice).None? || openSucceeds)
      ensures !ready ==> memory == null && headers == null
      ensures ready ==> fresh(memory) && fresh(headers)
      ensures ready ==> forall i :: 0 <= i < memory.Length ==> memory[i] == 0
      ensures ready ==> forall n :: 0 <= n < headers.Length ==> !headers[n].prepared
    {
      this.sampleBytes := sampleBytes;
      ready := false;
      this.sampleRate := sampleRate;
      this.channels := channels;
      blockCount := blocks;
      this.blockSamples := blockSamples;
      free := blocks;
      current := 0;
      memory := null;
      headers := null;
      userFunction := None;
      device := None;
      format := None;
      time := 0;
      inFlight, submitted, completed := [], 0, 0;

      var id := FindDevice(devices, outputDevice);
      // When opening fails, `Destroy` with the producer not yet ready changes
      // nothing, and `Create` returns before allocating.
      if id.None? || openSucceeds {
        if id.Some? {
          device := id;
          format := Some(PcmFormat(sampleRate, channels));
        }
        var pool, hdrs := AllocateBlocks(blocks, blockSamples, sampleBytes);
        memory, headers := pool, hdrs;
        ready := true;
      }
    }

    /** `Destroy`: stops the producer if it runs; always reports failure. */
    method Destroy() returns (r: bool)
      requires Valid()
      modifies this`ready
      ensures Valid() && !r && !ready
    {
      if ready {
        Stop();
      }
      return false;
    }

    /** `Stop`: clears the flag the producer loop runs under. */
    method Stop()
      modifies this`ready
      ensures !ready
    {
      ready := false;
    }

    /** `SetUserFunction`: the synthesis function used for every later sample. */
    method SetUserFunction(f: real -> real)
      modifies this`userFunction
      ensures userFunction == Some(f)
    {
      userFunction := Some(f);
    }

    /**
     * `waveOutProc`: on `Done` the device gives back its oldest block, which
     * becomes free again; every other message changes nothing.
     */
    method OnMessage(msg: WaveOutMessage)
      requires Valid()
      requires msg == Done ==> |inFlight| > 0 && device.Some?
      modifies this`free, this`completed, this`inFlight
      ensures Valid()
      ensures msg != Done ==> free == old(free) && inFlight == old(inFlight) && completed == old(completed)
      ensures msg == Done ==> free == old(free) + 1 && inFlight == old(inFlight)[1..]
      ensures msg == Done ==> completed == old(completed) + 1
    {
      if msg != Done {
        return;
      }
      free := free + 1;
      completed := completed + 1;
      inFlight := inFlight[1..];
    }

    /**
     * One iteration of the producer loop (`MainThread`): takes the current
     * block, fills exactly its slots with one sample per clock step, hands it
     * to the device and moves to the next block of the ring.
     */
    method ProduceBlock()
      requires Valid() && ready && free > 0 && sampleRate > 0
      modifies this`free, this`current, this`time, this`submitted, this`inFlight, memory, headers
      ensures Valid()
      ensures free == old(free) - 1
      ensures current == (old(current) + 1) % blockCount
      ensures time == old(time) + blockSamples
      ensures submitted == old(submitted) + 1 && completed == old(completed)
      ensures inFlight == old(inFlight) + [old(current)]
      ensures forall i :: 0 <= i < |old(inFlight)| ==> old(inFlight)[i] != old(current)
      ensures forall i :: 0 <= i < memory.Length ==>
        memory[i] == if InBlock(i, old(current), blockSamples)
                     then SampleAt(old(time) + (i - BlockStart(old(current), blockSamples)))
                     else old(memory[i])
      ensures forall n :: 0 <= n < headers.Length ==>
        headers[n] == if n == old(current) then old(headers[n]).(prepared := true) else old(headers[n])
    {
      FillCurrent();
      Submit();
    }

    /**
     * The writing half of a producer iteration: unprepares the current
     * block's header if needed, fills the block and prepares the header again.
     */
    method FillCurrent()
      requires StorageValid() && ready && sampleRate > 0 && current < blockCount
      modifies this`time, memory, headers
      ensures StorageValid()
      ensures time == old(time) + blockSamples
      ensures forall i :: 0 <= i < memory.Length ==>
        memory[i] == if InBlock(i, current, blockSamples)
                     then SampleAt(old(time) + (i - BlockStart(current, blockSamples)))
                     else old(memory[i])
      ensures forall n :: 0 <= n < headers.Length ==>
        headers[n] == if n == current then old(headers[n]).(prepared := true) else old(headers[n])
    {
      if headers[current].prepared {
        headers[current] := headers[current].(prepared := false);
      }
      BlockWithinPool(current, blockCount, blockSamples);
      FillBlock(BlockStart(current, blockSamples));
      headers[current] := headers[current].(prepared := true);
    }

    /**
     * The accounting half of a producer iteration: the block in the current
     * slot stops being free and joins the device's queue as the newest block,
     * and the producer moves to the next slot of the ring. (`MainThread`
     * decrements the free count before filling the block; only the completion
     * callback, which the model runs between iterations, could tell.)
     */
    method Submit()
      requires RingValid() && free > 0
      modifies this`free, this`current, this`submitted, this`inFlight
      ensures RingValid()
      ensures free == old(free) - 1
      ensures current == (old(current) + 1) % blockCount
      ensures submitted == old(submitted) + 1
      ensures inFlight == old(inFlight) + [old(current)]
      ensures forall i :: 0 <= i < |old(inFlight)| ==> old(inFlight)[i] != old(current)
    {
      InFlightDisjoint(completed, submitted, blockCount);
      forall i | 0 <= i < |inFlight|
        ensures inFlight[i] != current
      {
        assert completed <= completed + i < submitted;
      }
      free := free - 1;
      inFlight := inFlight + [current];
      submitted := submitted + 1;
      RingStep(submitted - 1, blockCount);
      current := (current + 1) % blockCount;
    }

    /**
     * The inner loop of `MainThread`: writes the `blockSamples` slots from
     * `base` on, one sample per clock step, and nothing else.
     */
    method FillBlock(base: nat)
      requires memory != null && sampleBytes >= 1 && sampleRate > 0
      requires base + blockSamples <= memory.Length
      modifies this`time, memory
      ensures time == old(time) + blockSamples
      ensures forall i :: 0 <= i < memory.Length ==>
        memory[i] == if base <= i < base + blockSamples then SampleAt(old(time) + (i - base)) else old(memory[i])
    {
      var n := 0;
      while n < blockSamples
        invariant 0 <= n <= blockSamples
        invariant time == old(time) + n
        invariant forall i :: 0 <= i < memory.Length ==>
          memory[i] == if base <= i < base + n then SampleAt(old(time) + (i - base)) else old(memory[i])
      {
        memory[base + n] := SampleAt(time);
        time := time + 1;
        n := n + 1;
      }
    }

    /**
     * One pass of the producer loop: when no block is free it waits once for
     * the device to give its oldest block back, then it produces a block.
     * Only an opened device ever gives a block back.
     */
    method Step()
      requires Valid() && ready && sampleRate > 0 && blockCount > 0
      requires free > 0 || device.Some?
      modifies this`free, this`current, this`time, this`submitted, this`completed, this`inFlight
      modifies memory, headers
      ensures Valid()
      ensures free == if old(free) == 0 then 0 else old(free) - 1
      ensures current == (old(current) + 1) % blockCount
      ensures time == old(time) + blockSamples
      ensures submitted == old(submitted) + 1
      ensures completed == if old(free) == 0 then old(completed) + 1 else old(completed)
      ensures forall i :: 0 <= i < memory.Length ==>
        memory[i] == if InBlock(i, old(current), blockSamples)
                     then SampleAt(old(time) + (i - BlockStart(old(current), blockSamples)))
                     else old(memory[i])
      ensures forall n :: 0 <= n < headers.Length ==>
        headers[n] == if n == old(current) then old(headers[n]).(prepared := true) else old(headers[n])
    {
      if free == 0 {
        OnMessage(Done);
      }
      ProduceBlock();
    }

    /**
     * After `passes` passes of the producer loop that began at slot `start`,
     * each block filled by one of the last `blockCount` passes holds that
     * pass's samples: pass `j` wrote clock steps `j * blockSamples` onwards,
     * one per slot, in slot order.
     */
    ghost predicate PassesWritten(mem: seq<int>, start: nat, passes: nat)
      reads this`blockCount, this`blockSamples, this`userFunction, this`sampleRate
      requires sampleBytes >= 1 && sampleRate > 0 && blockCount > 0
    {
      forall j, k ::
        (0 <= j < passes && passes <= j + blockCount && 0 <= k < |mem| &&
         InBlock(k, RingSlot(start, j, blockCount), blockSamples)) ==>
        mem[k] == SampleAt(j * blockSamples + (k - BlockStart(RingSlot(start, j, blockCount), blockSamples)))
    }

    /**
     * The blocks that `passes` passes from slot `start` have not reached yet
     * keep the contents they had in `orig`.
     */
    ghost predicate PassesUntouched(mem: seq<int>, orig: seq<int>, start: nat, passes: nat)
      reads this`blockCount, this`blockSamples
      requires blockCount > 0
    {
      && |mem| == |orig|
      && forall j, k ::
           (passes <= j < blockCount && 0 <= k < |mem| &&
            InBlock(k, RingSlot(start, j, blockCount), blockSamples)) ==> mem[k] == orig[k]
    }

    /**
     * After `passes` passes from slot `start`, only the prepared flags of the
     * headers have changed: every block a pass reached is prepared, and the
     * headers of the blocks not reached yet are as in `orig`.
     */
    ghost predicate PassesPrepared(hs: seq<Header>, orig: seq<Header>, start: nat, passes: nat)
      reads this`blockCount
      requires blockCount > 0
    {
      && |hs| == |orig| == blockCount
      && (forall n :: 0 <= n < |hs| ==> hs[n] == orig[n].(prepared := hs[n].prepared))
      && (forall j :: 0 <= j < passes ==> hs[RingSlot(start, j, blockCount)].prepared)
      && (forall j :: passes <= j < blockCount ==> hs[RingSlot(start, j, blockCount)] == orig[RingSlot(start, j, blockCount)])
    }

    /** One more pass, which fills block `RingSlot(start, i, blockCount)`, extends the pool facts by one pass. */
    lemma {:induction false} PoolPass(before: seq<int>, after: seq<int>, orig: seq<int>, start: nat, i: nat)
      requires sampleBytes >= 1 && sampleRate > 0 && blockCount > 0
      requires PassesWritten(before, start, i) && PassesUntouched(before, orig, start, i)
      requires |after| == |before|
      requires forall k :: 0 <= k < |after| ==>
        after[k] == if InBlock(k, RingSlot(start, i, blockCount), blockSamples)
                    then SampleAt(i * blockSamples + (k - BlockStart(RingSlot(start, i, blockCount), blockSamples)))
                    else before[k]
      ensures PassesWritten(after, start, i + 1) && PassesUntouched(after, orig, start, i + 1)
    {
      forall j, k | 0 <= j < i && i + 1 <= j + blockCount && 0 <= k < |after| &&
                    InBlock(k, RingSlot(start, j, blockCount), blockSamples)
        ensures after[k] == before[k]
      {
        OtherBlock(k, start, j, i, blockCount, blockSamples);
      }
      forall j, k | i + 1 <= j < blockCount && 0 <= k < |after| && InBlock(k, RingSlot(start, j, blockCount), blockSamples)
        ensures after[k] == before[k]
      {
        OtherBlock(k, start, i, j, blockCount, blockSamples);
      }
    }

    /** One more pass, which prepares header `RingSlot(start, i, blockCount)`, extends the header facts by one pass. */
    lemma {:induction false} HeaderPass(before: seq<Header>, after: seq<Header>, orig: seq<Header>, start: nat, i: nat)
      requires blockCount > 0
      requires PassesPrepared(before, orig, start, i)
      requires |after| == |before|
      requires forall n :: 0 <= n < |after| ==>
        after[n] == if n == RingSlot(start, i, blockCount) then before[n].(prepared := true) else before[n]
      ensures PassesPrepared(after, orig, start, i + 1)
    {
      forall j | 0 <= j < i + 1
        ensures after[RingSlot(start, j, blockCount)].prepared
      {
        if j < i {
          assert before[RingSlot(start, j, blockCount)].prepared;
        }
      }
      forall j | i + 1 <= j < blockCount
        ensures after[RingSlot(start, j, blockCount)] == orig[RingSlot(start, j, blockCount)]
      {
        RingDistinct(start + i, start + j, blockCount);
      }
    }

    /**
     * Pass `i` of the producer loop that began at slot `start`: one `Step`,
     * which extends what the earlier passes left in the pool and the headers
     * by this pass's block.
     */
    method Pass(ghost start: nat, i: nat, ghost pool0: seq<int>, ghost hdrs0: seq<Header>)
      requires Valid() && ready && sampleRate > 0 && blockCount > 0
      requires free > 0 || device.Some?
      requires current == RingSlot(start, i, blockCount) && time == i * blockSamples
      requires PassesWritten(memory[..], start, i) && PassesUntouched(memory[..], pool0, start, i)
      requires PassesPrepared(headers[..], hdrs0, start, i)
      modifies this`free, this`current, this`time, this`submitted, this`completed, this`inFlight
      modifies memory, headers
      ensures Valid()
      ensures free == if old(free) == 0 then 0 else old(free) - 1
      ensures current == RingSlot(start, i + 1, blockCount) && time == (i + 1) * blockSamples
      ensures submitted == old(submitted) + 1
      ensures PassesWritten(memory[..], start, i + 1) && PassesUntouched(memory[..], pool0, start, i + 1)
      ensures PassesPrepared(headers[..], hdrs0, start, i + 1)
    {
      ghost var pool, hdrs := memory[..], headers[..];
      Step();
      PoolPass(pool, memory[..], pool0, start, i);
      HeaderPass(hdrs, headers[..], hdrs0, start, i);
      RingStep(start + i, blockCount);
      assert (i + 1) * blockSamples == i * blockSamples + blockSamples;
    }

    /**
     * The producer loop, run for `m` passes: it starts the clock from zero,
     * then every pass produces one block. The clock ends at exactly `m`
     * blocks and the ring has moved on by `m` positions. Each of the last
     * `blockCount` passes left its samples in its block, the blocks not yet
     * reached are untouched, and every block reached is prepared. Without an
     * opened device no block ever comes back, so only `free` passes can run.
     */
    method MainThread(m: nat)
      requires Valid() && ready && sampleRate > 0 && blockCount > 0
      requires device.Some? || m <= free
      modifies this`free, this`current, this`time, this`submitted, this`completed, this`inFlight
      modifies memory, headers
      ensures Valid()
      ensures time == m * blockSamples
      ensures submitted == old(submitted) + m
      ensures current == (old(current) + m) % blockCount
      ensures PassesWritten(memory[..], old(current), m)
      ensures PassesUntouched(memory[..], old(memory[..]), old(current), m)
      ensures PassesPrepared(headers[..], old(headers[..]), old(current), m)
    {
      time := 0;
      ghost var start, pool0, hdrs0 := current, memory[..], headers[..];
      DivModUnique(start, blockCount, 0, start);
      var i := 0;
      while i < m
        invariant 0 <= i <= m
        invariant Valid()
        invariant time == i * blockSamples
        invariant submitted == old(submitted) + i
        invariant current == RingSlot(start, i, blockCount)
        invariant device.Some? || m - i <= free
        invariant PassesWritten(memory[..], start, i)
        invariant PassesUntouched(memory[..], pool0, start, i)
        invariant PassesPrepared(headers[..], hdrs0, start, i)
      {
        Pass(start, i, pool0, hdrs0);
        i := i + 1;
      }
    }
  }

  /** Moving `m` blocks on in the ring from block number `k`. */
  lemma {:induction false} RingShift(k: nat, m: nat, count: nat)
    requires 0 < count
    ensures (k % count + m) % count == (k + m) % count
  {
    if m > 0 {
      var r := k % count;
      RingShift(k, m - 1, count);
      var x, y := (r + (m - 1)) % count, (k + (m - 1)) % count;
      assert x == y;
      RingStep(r + (m - 1), count);
      RingStep(k + (m - 1), count);
      assert (x + 1) % count == (r + m) % count;
      assert (y + 1) % count == (k + m) % count;
    }
  }
}
