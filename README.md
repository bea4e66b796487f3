# winsynth core in Dafny

This project models the two stateful components of the winsynth keyboard
synthesizer and proves properties of them.

**`NoiseMaker<T>`** (module `Noise`, class `Noise.NoiseMaker`) is the block-ring audio producer.
- `Create` records the configuration and looks up the output device by name.
- It opens the device with a `WAVE_FORMAT_PCM` format.
- It allocates one zeroed sample pool of `blockCount * blockSamples` samples and one wave header per block.
- The producer loop `MainThread` repeats the following:
  - if no block is free, it waits once for the device's notification;
  - it takes the current block and unprepares its header;
  - it fills the block with `trunc(clip(source(t), 1.0) * maxSample)`, advancing the clock one step per sample;
  - it prepares and submits the block and moves round-robin to the next one.
- The device's completion callback `waveOutProc` gives a block back on `WOM_DONE` and ignores every other message.

The class keeps ghost counters of blocks submitted and completed, and the list of blocks the device holds. With these its invariant states four things:
- block number `k` sits in slot `k % blockCount`;
- the producer stands at the next block number;
- every block is either free or held by the device;
- the pool and the headers have the layout `Create` gives them.

**`AudioManager`** (module `Audio`) holds the registry of held notes, a map from virtual-key code to frequency filled from a fixed two-row keyboard table, plus the selected `WaveType`.
- It mixes the held notes into one value per instant: half the sum of a sine or square oscillator over their frequencies.
- The process-wide `s_instance` variable that the static synthesis callback reads is the object `Audio.InstanceSlot`.

The registry functions `Audio.Pressed` and `Audio.Released` and the mix `Audio.Mix` are the specifications. The class methods are proved equal to them, and the lemmas relate them.

Supporting modules:
- `CMath` holds the two C++ numeric conversions the code relies on: conversion to an integer type (truncation toward zero) and `fmod(x, 1.0)`.
- `Wrappers` holds `Option`.

Numbers are modelled as follows:
- Integers are unbounded, with the 16- and 32-bit widths of the `WAVEFORMATEX` fields written out where they matter.
- `double` is modelled as `real`.
- The clock `m_dGlobalTime` is the integer count of samples produced; in seconds it is that count divided by the sample rate (`Clock`).

## Model

| member | source | states |
|---|---|---|
| Noise.Clip | include/noiseMaker.h:155-161 | for a non-negative bound the result lies in `[-max, max]`; a sample within the bound is returned unchanged; samples beyond it are clamped to `max` or `-max` |
| Noise.ClipIdempotent | include/noiseMaker.h:155-161 | clipping twice to the same bound is clipping once |
| Noise.MaxSample | include/noiseMaker.h:202-204 | `2^(8*sizeof(T)-1) - 1` is the largest value of the signed sample type: it and its negation fit, its successor does not |
| Noise.Quantize | include/noiseMaker.h:225-228 | a converted sample lies in `[-maxSample, maxSample]` and keeps the sign of the synthesized value |
| Noise.QuantizeSaturates | include/noiseMaker.h:226-228 | values at or beyond full scale give exactly `maxSample` or `-maxSample` |
| Noise.QuantizedFits | include/noiseMaker.h:203-230 | every sample written fits in the sample type `T` |
| Noise.PcmFormat | include/noiseMaker.h:67-77 | the requested format is PCM, 32 bits per sample, no extra bytes, at the requested rate; each field holds only its stored width |
| Noise.PcmFormatExact | include/noiseMaker.h:71-76 | within the field widths, `nBlockAlign = (32/8) * channels` and `nAvgBytesPerSec = sampleRate * nBlockAlign` |
| Noise.FindDevice | include/noiseMaker.h:59-66 | the device ID is the index of the first listed name equal to the requested one; there is none exactly when the name is not listed |
| Noise.BlockWithinPool | include/noiseMaker.h:94-98 | every block of the pool lies inside the pool (corrected pool size, see Findings) |
| Noise.SlotOwner | include/noiseMaker.h:94-98 | slot `i` belongs to block `n` exactly when `i / blockSamples == n`, so the blocks are pairwise disjoint |
| Noise.PoolTiled | include/noiseMaker.h:85-98 | every slot of the pool belongs to a block of the pool, so the blocks tile it |
| Noise.PoolSlotsAsWritten | include/noiseMaker.h:85 | the pool size as computed is below 2^32; it equals the true product exactly when the product is below 2^32 |
| Noise.PoolSlotsWrap | include/noiseMaker.h:85 | the pool size as written wraps to 0 for 65536 blocks of 65536 samples, while block 1 still starts at sample 65536 |
| Noise.RingDistinct | include/noiseMaker.h:236-237 | block numbers less than a full ring apart use different slots |
| Noise.InFlightDisjoint | include/noiseMaker.h:209-237 | the blocks the device holds use distinct slots, and while a block is free the next slot to fill is none of them |
| Noise.RingStep | include/noiseMaker.h:236-237 | `(current + 1) % blockCount` is the slot of the next block number |
| Noise.RingSlot | include/noiseMaker.h:236-237 | the slot `j` passes after slot `start` is a slot of the ring |
| Noise.OtherBlock | include/noiseMaker.h:221-230 | a slot of the block filled by one pass lies in no block filled by a pass less than a full ring away |
| Noise.RingShift | include/noiseMaker.h:236-237 | `m` round-robin steps from slot `k % count` reach slot `(k + m) % count` |
| Noise.AllocateBlocks | include/noiseMaker.h:84-98 | the fresh pool has `blocks * blockSamples` zero samples; header `n` points at sample `n * blockSamples` with one block's length in bytes and is not prepared |
| Noise.UserProcess | include/noiseMaker.h:125-128 | the default synthesis function is silence |
| Noise.NoiseMaker.Source | include/noiseMaker.h:225-228 | without a registered function the source is the default (silence); with one, its value |
| Noise.NoiseMaker.SampleAt | include/noiseMaker.h:225-230 | the sample written at clock step `k` is the quantized source value and fits in `T` |
| Noise.NoiseMaker.Create | include/noiseMaker.h:43-109 | establishes the invariant with `free == blockCount`, `current == 0` and the configuration recorded; the device is the first one with the name, opened only if the device accepts; ready exactly when the name is not listed or opening succeeded; then the pool is fresh and zero and no header is prepared; otherwise nothing is allocated |
| Noise.NoiseMaker.Destroy | include/noiseMaker.h:111-118 | keeps the invariant, leaves the producer stopped and reports failure |
| Noise.NoiseMaker.Stop | include/noiseMaker.h:120-124 | clears `ready` and nothing else |
| Noise.NoiseMaker.SetUserFunction | include/noiseMaker.h:150-153 | the given function becomes the sample source, nothing else changes |
| Noise.NoiseMaker.OnMessage | include/noiseMaker.h:183-191 | `Done` comes only from an opened device; on `Done` one block becomes free and leaves the device's queue (the oldest); other messages change nothing; the invariant is kept |
| Noise.NoiseMaker.ProduceBlock | include/noiseMaker.h:209-237 | one loop pass: takes exactly one free block; writes exactly the slots of the current block with consecutive samples of the source and no other slot; advances the clock by `blockSamples`; prepares only that block's header; queues the block; moves `current` to `(current + 1) % blockCount`; keeps the invariant |
| Noise.NoiseMaker.FillCurrent | include/noiseMaker.h:216-234 | unprepares, fills and re-prepares the current block; touches no other slot or header; keeps the layout |
| Noise.NoiseMaker.Submit | include/noiseMaker.h:215-237 | one free block fewer, the current block joins the device's queue and was not already in it, and the ring moves on by one |
| Noise.NoiseMaker.FillBlock | include/noiseMaker.h:223-233 | slot `base + n` receives the sample for clock step `time + n`, for each `n < blockSamples`; the clock advances by `blockSamples` and no other slot changes |
| Noise.NoiseMaker.Step | include/noiseMaker.h:207-237 | one pass with the wait, possible only with a free block or an opened device: if no block is free, the device first returns its oldest one; then the current block's slots receive the samples of the next `blockSamples` clock steps, every other slot is unchanged, only its header becomes prepared, the free count ends one lower (or at 0 after the wait) and the ring moves on by one |
| Noise.NoiseMaker.Pass | include/noiseMaker.h:207-237 | pass `i` from slot `start` extends the pool and header facts of the earlier passes by its own block, and the clock reaches `(i + 1) * blockSamples` |
| Noise.NoiseMaker.PoolPass | include/noiseMaker.h:219-233 | filling the block of pass `i` keeps the samples of the earlier passes still in the ring and the blocks not yet reached |
| Noise.NoiseMaker.HeaderPass | include/noiseMaker.h:216-234 | preparing the header of pass `i` keeps every earlier pass's header prepared and the headers not yet reached unchanged |
| Noise.NoiseMaker.MainThread | include/noiseMaker.h:197-239 | after `m` passes from a zero clock (at most `free` of them without an opened device): the clock stands at `m * blockSamples`, `m` more blocks were submitted and the ring moved `m` slots; the block of each of the last `blockCount` passes `j` holds the samples of clock steps `j * blockSamples` onwards in slot order; blocks not reached are unchanged; every block reached is prepared and no other header field changed; the invariant holds |
| CMath.Trunc | include/noiseMaker.h:226-228 | conversion to an integer type drops the fraction toward zero: the result is within one of `x`, on its side of zero |
| CMath.FModOne | src/AudioManager.cpp:135 | `fmod(x, 1.0)` lies in `[0, 1)` for non-negative `x` and in `(-1, 0]` for negative `x`, and differs from `x` by a whole number |
| Audio.KeyFrequency | src/AudioManager.cpp:163-207 | keys Q to P give C5 to E6 and Z to M give C4 to B4, position by position; every other key gives no note |
| Audio.KeyboardAscending | src/AudioManager.cpp:11-53 | the 17 keys are distinct and the notes rise strictly from Z to M and on from Q to P |
| Audio.Pressed | src/AudioManager.cpp:89-96 | key-down adds a table key that is not held, with its table frequency; a held key, an unmapped key and every other entry are unchanged |
| Audio.Released | src/AudioManager.cpp:98-102 | key-up leaves the key not held and every other entry unchanged |
| Audio.RegistryStaysRegistered | src/AudioManager.cpp:89-102 | key-down and key-up keep every held key a table key at its table frequency |
| Audio.PressThenRelease | src/AudioManager.cpp:89-102 | key-down then key-up of a key equals key-up alone, so the key ends up not held |
| Audio.PressReleaseIdempotent | src/AudioManager.cpp:89-102 | a repeated key-down or key-up changes nothing |
| Audio.RegistryBounded | include/AudioManager.h:36 | at most 17 notes are held at once |
| Audio.SineSoundMaker | src/AudioManager.cpp:127-130 | the sine tone stays in `[-1, 1]` whenever the sine function does |
| Audio.SinePeriodic | src/AudioManager.cpp:127-130 | with a `2 pi`-periodic sine function, the tone of frequency `f > 0` repeats with period `1 / f` |
| Audio.SquareSoundMaker | src/AudioManager.cpp:132-137 | the square wave is always `1` or `-1`; for a non-negative phase it is `1` exactly when the fractional part of `f * t` is below one half; a negative phase always gives `1` |
| Audio.SquarePeriodic | src/AudioManager.cpp:132-137 | for a non-negative phase the square wave repeats with period `1 / f` |
| Audio.SumRemove | src/AudioManager.cpp:143-147 | the sum over the held notes does not depend on the order the map yields them in |
| Audio.MixAfterPress | src/AudioManager.cpp:139-149 | pressing a new table key adds half its oscillator to the mix |
| Audio.MixAfterRelease | src/AudioManager.cpp:139-149 | releasing a held key removes half its oscillator from the mix |
| Audio.MixSmall | src/AudioManager.cpp:139-149 | with no key held the mix is 0; with one key it is half that note's oscillator |
| Audio.MixBounded | src/AudioManager.cpp:151-161 | if each oscillator value lies in `[-1, 1]`, the mix of `n` notes lies in `[-n/2, n/2]` |
| Audio.SquareMixBounded | src/AudioManager.cpp:151-161 | the square-wave mix of the registry lies in `[-8.5, 8.5]` |
| Audio.SineMixBounded | src/AudioManager.cpp:139-149 | with a sine function bounded by 1, the sine mix of the registry lies in `[-8.5, 8.5]` |
| Audio.InstanceSlot.constructor | src/AudioManager.cpp:56 | the process-wide instance variable starts empty |
| Audio.AudioManager.constructor | src/AudioManager.cpp:58-61 | a new manager holds no notes, plays sine waves and is the registered instance |
| Audio.AudioManager.Unregister | src/AudioManager.cpp:63-69 | the destructor empties the instance variable only if it holds this manager |
| Audio.AudioManager.HandleKeyDown | src/AudioManager.cpp:89-96 | the registry becomes `Pressed(old registry, key)` and stays within the table |
| Audio.AudioManager.HandleKeyUp | src/AudioManager.cpp:98-102 | the registry becomes `Released(old registry, key)` and stays within the table |
| Audio.AudioManager.SetWaveType | src/AudioManager.cpp:104-108 | the waveform becomes the given one; the registry is not touched |
| Audio.AudioManager.MapNoteFrequency | src/AudioManager.cpp:163-210 | a table key is entered with its table frequency, replacing any entry; any other key changes nothing |
| Audio.AudioManager.MakeSineNoise | src/AudioManager.cpp:139-149 | the result is the mix of the sine oscillator over the held notes, whatever the iteration order |
| Audio.AudioManager.MakeSquareNoise | src/AudioManager.cpp:151-161 | the result is the mix of the square oscillator over the held notes, whatever the iteration order |
| Audio.AudioManager.StaticNoiseCallback | src/AudioManager.cpp:110-125 | silence when no manager is registered; otherwise the registered manager's mix for its selected waveform |

## Left out

- Threads, `std::mutex`, `std::condition_variable` and the atomics. The producer pass (`Step`) and the completion callback (`OnMessage`) are sequential methods, and the model interleaves them only between passes.
- The `waveOut*` calls are left out: open, prepare/unprepare, write, `waveOutGetNumDevs` and `waveOutGetDevCaps`. The device list and the result of `waveOutOpen` are parameters of `Create`. Preparing and unpreparing a header is the header's `prepared` flag. Submitting is the ghost queue `inFlight`.
- `GetDevices`, `GetTime` and `waveOutProcWrap` (the static trampoline to `waveOutProc`) are not modelled separately.
- Allocation failure is left out: `new` throws rather than returning null, so the null checks after the allocations (include/noiseMaker.h:86-92) never fire.
- The `NoiseMaker` destructor's `delete[]`. Memory is not reclaimed in Dafny.
- `AudioManager::Initialize`/`Shutdown` are not part of this model. They choose the first device, construct the `NoiseMaker` and install `StaticNoiseCallback` as its user function.
- `sin` is a parameter of the sine oscillator. The bound and the period of the sine tone are proved under the hypotheses that `sin` stays within `[-1, 1]` and has period `2 pi`.
- Floating point is modelled as reals, without IEEE rounding, NaN or infinities. This covers the accumulation of the `double` clock, `fmin`/`fmax` on NaN and `1.0 / 0` for a zero sample rate.
- Noise.NoiseMaker.ProduceBlock: requires `sampleRate > 0`, because the clock step `1.0 / m_nSampleRate` is not a real number otherwise.
- Noise.NoiseMaker.ProduceBlock: requires `free > 0`. The source waits only once behind `if (m_nBlockFree == 0)`, not a `while`, and then decrements regardless. `Step` supplies the block by letting the device return one first.
- Noise.NoiseMaker.OnMessage: requires that the device holds a block when it reports `Done`, and that a device was opened. The device reports completion only for blocks that were written to it.
- Noise.NoiseMaker.MainThread: runs a given number `m` of passes instead of `while (m_bReady)`. Stopping from another thread is not modelled.
- Noise.NoiseMaker.Step: requires a free block or an opened device, and Noise.NoiseMaker.MainThread requires `m <= free` without an opened device. With no device opened nothing ever gives a block back, so after `blockCount` blocks the source waits forever at include/noiseMaker.h:211-213. A spurious wakeup there would instead decrement `m_nBlockFree` past 0 and wrap it to `UINT_MAX`. Neither is modelled.
- Noise.MaxSample: gives the intended value `2^(8*sizeof(T)-1) - 1`. The source computes it through `(T)pow(2, 8*sizeof(T)-1) - 1`, whose conversion is out of range for `T` and whose subtraction then overflows.
- Noise.PcmFormat: `wBitsPerSample` is 32 whatever `T` is, as in the source. Only `NoiseMaker<int>` is instantiated, where the two agree.
- Noise.NoiseMaker.Create: the pool, block offsets and header lengths use unbounded products (see Findings). The source's `unsigned int` and `int` products (include/noiseMaker.h:85, 96-97, 221) wrap or overflow for very large configurations.
- Noise.NoiseMaker.Create: a device name that is not listed does not make `Create` fail. The code continues without opening any device and allocates and starts the producer. The model follows the code up to the first `blockCount` blocks, even though a missing device would be expected to be an error; what happens after them is stated under `Step`.
- Audio.AudioManager.StaticNoiseCallback: the static `s_instance` is an explicit `InstanceSlot` argument, and `sin` is a parameter.
- Audio.AudioManager.MakeSineNoise: the registry lock is not modelled, so the registry is not copied or frozen during the loop; nothing else runs during a call.

## Findings

| source | as written | input that shows it | evidently intended | confidence | as-written member | corrected member |
|---|---|---|---|---|---|---|
| include/noiseMaker.h:85 | the pool size `m_nBlockCount * m_nBlockSamples` is an `unsigned int` product and wraps modulo 2^32 | 65536 blocks of 65536 samples: the pool has 0 samples while header 1 points at sample 65536 | the pool holds every block, so each block's slots lie inside it | not executed | Noise.PoolSlotsWrap | Noise.BlockWithinPool |
