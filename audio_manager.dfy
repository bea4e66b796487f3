/**
 * The synthesizer's `AudioManager`: a registry of the notes currently held,
 * from virtual-key code to frequency, filled from a fixed two-row keyboard
 * table, and the mixer that turns the registry into one output value per
 * instant with the selected waveform.
 *
 * Key codes (`WPARAM`) are naturals, frequencies and times are reals, and
 * `sin` is a parameter: the model says nothing about its values.
 */
module Audio {
  import opened Wrappers
  import CMath

  /* ---------------------------------------------------------------------- */
  /* The keyboard table                                                      */
  /* ---------------------------------------------------------------------- */

  /** Virtual-key codes of the letter keys that play notes. */
  const KeyQ: nat := 0x51
  const KeyW: nat := 0x57
  const KeyE: nat := 0x45
  const KeyR: nat := 0x52
  const KeyT: nat := 0x54
  const KeyY: nat := 0x59
  const KeyU: nat := 0x55
  const KeyI: nat := 0x49
  const KeyO: nat := 0x4F
  const KeyP: nat := 0x50
  const KeyZ: nat := 0x5A
  const KeyX: nat := 0x58
  const KeyC: nat := 0x43
  const KeyV: nat := 0x56
  const KeyB: nat := 0x42
  const KeyN: nat := 0x4E
  const KeyM: nat := 0x4D

  /** Note frequencies in hertz, octaves 4 to 6. */
  const C4: real := 261.626
  const D4: real := 293.665
  const E4: real := 329.628
  const F4: real := 349.228
  const G4: real := 392.000
  const A4: real := 440.000
  const B4: real := 493.883
  const C5: real := 523.25
  const D5: real := 587.33
  const E5: real := 659.25
  const F5: real := 698.46
  const G5: real := 783.99
  const A5: real := 880.00
  const B5: real := 987.77
  const C6: real := 1046.50
  const D6: real := 1174.66
  const E6: real := 1318.51

  /** The top row, Q to P, plays C5 to E6; the bottom row, Z to M, plays C4 to B4. */
  const TopRow: seq<nat> := [KeyQ, KeyW, KeyE, KeyR, KeyT, KeyY, KeyU, KeyI, KeyO, KeyP]
  const TopNotes: seq<real> := [C5, D5, E5, F5, G5, A5, B5, C6, D6, E6]
  const BottomRow: seq<nat> := [KeyZ, KeyX, KeyC, KeyV, KeyB, KeyN, KeyM]
  const BottomNotes: seq<real> := [C4, D4, E4, F4, G4, A4, B4]

  /** The 17 keys that play a note. */
  const NoteKeys: seq<nat> := TopRow + BottomRow

  /**
   * The selection chain of `MapNoteFrequency`: the frequency of a key of the
   * table, or none for any other key.
   */
  function KeyFrequency(key: nat): (f: Option<real>)
    ensures f.Some? <==> key in NoteKeys
    ensures forall i :: 0 <= i < |TopRow| && TopRow[i] == key ==> f == Some(TopNotes[i])
    ensures forall i :: 0 <= i < |BottomRow| && BottomRow[i] == key ==> f == Some(BottomNotes[i])
  {
    if key == KeyQ then Some(C5)
    else if key == KeyW then Some(D5)
    else if key == KeyE then Some(E5)
    else if key == KeyR then Some(F5)
    else if key == KeyT then Some(G5)
    else if key == KeyY then Some(A5)
    else if key == KeyU then Some(B5)
    else if key == KeyI then Some(C6)
    else if key == KeyO then Some(D6)
    else if key == KeyP then Some(E6)
    else if key == KeyZ then Some(C4)
    else if key == KeyX then Some(D4)
    else if key == KeyC then Some(E4)
    else if key == KeyV then Some(F4)
    else if key == KeyB then Some(G4)
    else if key == KeyN then Some(A4)
    else if key == KeyM then Some(B4)
    else None
  }

  /**
   * The table is a keyboard: its 17 keys are distinct, and its notes rise
   * strictly from Z to M and on from Q to P.
   */
  lemma KeyboardAscending()
    ensures |Elements(NoteKeys)| == 17
    ensures forall i, j :: 0 <= i < j < |BottomNotes + TopNotes| ==>
      0.0 < (BottomNotes + TopNotes)[i] < (BottomNotes + TopNotes)[j]
  {
    assert forall i, j :: 0 <= i < j < |NoteKeys| ==> NoteKeys[i] != NoteKeys[j];
    DistinctCard(NoteKeys);
  }

  /** The elements of a sequence, as a set. */
  function Elements(s: seq<nat>): set<nat>
  {
    set k | k in s
  }

  /** A sequence of distinct elements has as many elements as its set. */
  lemma {:induction false} DistinctCard(s: seq<nat>)
    requires forall i, j :: 0 <= i < j < |s| ==> s[i] != s[j]
    ensures |Elements(s)| == |s|
  {
    if |s| > 0 {
      var t := s[1..];
      DistinctCard(t);
      forall i | 0 <= i < |t|
        ensures t[i] != s[0]
      {
        assert t[i] == s[i + 1];
      }
      assert s[0] !in Elements(t);
      assert Elements(s) == Elements(t) + {s[0]};
    }
  }

  /* ---------------------------------------------------------------------- */
  /* The registry                                                            */
  /* ---------------------------------------------------------------------- */

  /** `WaveType`: the two waveforms the mixer can play. */
  datatype WaveType = Sine | Square

  /** Every held key is a key of the table, held at its table frequency. */
  ghost predicate Registered(notes: map<nat, real>)
  {
    forall k :: k in notes ==> KeyFrequency(k) == Some(notes[k])
  }

  /**
   * The registry after `HandleKeyDown(key)`: a key of the table that is not
   * held yet is added with its frequency; a held key keeps its entry; any
   * other key, and every other entry, is left as it was.
   */
  function Pressed(notes: map<nat, real>, key: nat): (r: map<nat, real>)
    ensures forall k :: k != key ==> (k in r <==> k in notes)
    ensures forall k :: k != key && k in r ==> r[k] == notes[k]
    ensures key in r <==> key in notes || key in NoteKeys
    ensures key in notes ==> r[key] == notes[key]
    ensures key !in notes && key in r ==> Some(r[key]) == KeyFrequency(key)
  {
    if key in notes then notes
    else match KeyFrequency(key)
      case None => notes
      case Some(f) => notes[key := f]
  }

  /**
   * The registry after `HandleKeyUp(key)`: the key is no longer held and
   * every other entry is left as it was.
   */
  function Released(notes: map<nat, real>, key: nat): (r: map<nat, real>)
    ensures key !in r
    ensures forall k :: k != key ==> (k in r <==> k in notes)
    ensures forall k :: k != key && k in r ==> r[k] == notes[k]
  {
    notes - {key}
  }

  /** Pressing and releasing keep the registry within the table. */
  lemma RegistryStaysRegistered(notes: map<nat, real>, key: nat)
    requires Registered(notes)
    ensures Registered(Pressed(notes, key)) && Registered(Released(notes, key))
  {
  }

  /** Releasing a key after pressing it leaves it not held, with every other entry as before. */
  lemma PressThenRelease(notes: map<nat, real>, key: nat)
    ensures Released(Pressed(notes, key), key) == Released(notes, key)
    ensures key !in Released(Pressed(notes, key), key)
  {
    assert Released(Pressed(notes, key), key).Keys == Released(notes, key).Keys;
  }

  /** Pressing a held key again, or releasing a key twice, changes nothing. */
  lemma PressReleaseIdempotent(notes: map<nat, real>, key: nat)
    ensures Pressed(Pressed(notes, key), key) == Pressed(notes, key)
    ensures Released(Released(notes, key), key) == Released(notes, key)
  {
  }

  /** A registered registry holds at most the 17 keys of the table. */
  lemma RegistryBounded(notes: map<nat, real>)
    requires Registered(notes)
    ensures |notes| <= 17
  {
    assert notes.Keys <= Elements(NoteKeys);
    SubsetCard(notes.Keys, Elements(NoteKeys));
    KeyboardAscending();
  }

  lemma {:induction false} SubsetCard(a: set<nat>, b: set<nat>)
    requires a <= b
    ensures |a| <= |b|
    decreases b
  {
    if a != {} {
      var x :| x in a;
      SubsetCard(a - {x}, b - {x});
    }
  }

  /* ---------------------------------------------------------------------- */
  /* Oscillators and the mix                                                 */
  /* ---------------------------------------------------------------------- */

  const Pi: real := 3.14159265358979323846
  const TwoPi: real := 2.0 * Pi

  /**
   * `SineSoundMaker`: the sine of the phase angle `2 pi f t`. The sine
   * function is a parameter; whenever it stays within `[-1, 1]`, so does the
   * tone.
   */
  function SineSoundMaker(sin: real -> real, freq: real, t: real): (r: real)
    ensures (forall x :: -1.0 <= sin(x) <= 1.0) ==> -1.0 <= r <= 1.0
  {
    sin(freq * TwoPi * t)
  }

  /**
   * `SquareSoundMaker`: full scale positive while `fmod(f * t, 1)` is below
   * one half, full scale negative otherwise.
   */
  function SquareSoundMaker(freq: real, t: real): (r: real)
    ensures r == 1.0 || r == -1.0
    ensures 0.0 <= freq * t ==> (r == 1.0 <==> (freq * t) - (freq * t).Floor as real < 0.5)
    ensures freq * t < 0.0 ==> r == 1.0
  {
    var phase := CMath.FModOne(freq * t);
    if phase < 0.5 then 1.0 else -1.0
  }

  /**
   * For a non-negative phase the square wave repeats every period `1 / f`.
   */
  lemma SquarePeriodic(freq: real, t: real)
    requires 0.0 < freq && 0.0 <= freq * t
    ensures SquareSoundMaker(freq, t + 1.0 / freq) == SquareSoundMaker(freq, t)
  {
    var x := freq * t;
    assert freq * (t + 1.0 / freq) == x + 1.0;
    CMath.TruncShift(x, 1);
  }

  /**
   * For a sine function with period `2 pi`, the tone of a positive frequency
   * `f` repeats after `1 / f` seconds.
   */
  lemma SinePeriodic(sin: real -> real, freq: real, t: real)
    requires 0.0 < freq
    requires forall x :: sin(x + TwoPi) == sin(x)
    ensures SineSoundMaker(sin, freq, t + 1.0 / freq) == SineSoundMaker(sin, freq, t)
  {
    var x := freq * TwoPi * t;
    assert freq * (1.0 / freq) == 1.0;
    assert freq * TwoPi * (t + 1.0 / freq) == x + TwoPi * (freq * (1.0 / freq));
    assert sin(x + TwoPi) == sin(x);
  }

  /** The sine oscillator at time `t`, as a function of the frequency. */
  function SineOsc(sin: real -> real, t: real): real -> real
  {
    freq => SineSoundMaker(sin, freq, t)
  }

  /** The square oscillator at time `t`, as a function of the frequency. */
  function SquareOsc(t: real): real -> real
  {
    freq => SquareSoundMaker(freq, t)
  }

  /** The oscillator of a waveform at time `t`. */
  function Oscillator(wave: WaveType, sin: real -> real, t: real): real -> real
  {
    match wave
    case Sine => SineOsc(sin, t)
    case Square => SquareOsc(t)
  }

  /** One held key: the one `Sum` takes first. */
  ghost function Pick(notes: map<nat, real>): (k: nat)
    requires notes != map[]
    ensures k in notes
  {
    var k :| k in notes; k
  }

  /** The sum of `osc` over the frequencies of the registry. */
  ghost function Sum(notes: map<nat, real>, osc: real -> real): real
    decreases notes.Keys
  {
    if notes == map[] then 0.0
    else
      var k := Pick(notes);
      osc(notes[k]) + Sum(notes - {k}, osc)
  }

  /** The mix: half the sum of the oscillators over the held notes. */
  ghost function Mix(notes: map<nat, real>, osc: real -> real): real
  {
    Sum(notes, osc) * 0.5
  }

  /**
   * The sum does not depend on the order: any held key can be taken out
   * first.
   */
  lemma {:induction false} SumRemove(notes: map<nat, real>, osc: real -> real, key: nat)
    requires key in notes
    ensures Sum(notes, osc) == osc(notes[key]) + Sum(notes - {key}, osc)
    decreases notes.Keys
  {
    var k := Pick(notes);
    if k != key {
      SumRemove(notes - {k}, osc, key);
      SumRemove(notes - {key}, osc, k);
      assert notes - {k} - {key} == notes - {key} - {k};
    }
  }

  /** Pressing a key that was not held adds half its oscillator to the mix. */
  lemma MixAfterPress(notes: map<nat, real>, osc: real -> real, key: nat)
    requires key !in notes && key in NoteKeys
    ensures Mix(Pressed(notes, key), osc) == Mix(notes, osc) + 0.5 * osc(KeyFrequency(key).value)
  {
    var r := Pressed(notes, key);
    SumRemove(r, osc, key);
    assert r - {key} == notes;
  }

  /** Releasing a held key takes half its oscillator out of the mix. */
  lemma MixAfterRelease(notes: map<nat, real>, osc: real -> real, key: nat)
    requires key in notes
    ensures Mix(Released(notes, key), osc) == Mix(notes, osc) - 0.5 * osc(notes[key])
  {
    SumRemove(notes, osc, key);
  }

  /** With no key held the mix is silence; with one key, half its oscillator. */
  lemma MixSmall(osc: real -> real, key: nat, freq: real)
    ensures Mix(map[], osc) == 0.0
    ensures Mix(map[key := freq], osc) == 0.5 * osc(freq)
  {
    SumRemove(map[key := freq], osc, key);
    assert map[key := freq] - {key} == map[];
  }

  /**
   * When every oscillator value lies in `[-1, 1]` (as the square wave's and
   * a true sine's do) the mix of `n` notes lies in `[-n/2, n/2]`.
   */
  lemma {:induction false} MixBounded(notes: map<nat, real>, osc: real -> real)
    requires forall k :: k in notes ==> -1.0 <= osc(notes[k]) <= 1.0
    ensures -(|notes| as real) * 0.5 <= Mix(notes, osc) <= |notes| as real * 0.5
    decreases notes.Keys
  {
    if notes != map[] {
      var k := Pick(notes);
      var rest := notes - {k};
      MixBounded(rest, osc);
      assert |rest| == |notes| - 1;
    }
  }

  /** The square-wave mix of a registered registry lies in `[-8.5, 8.5]`. */
  lemma SquareMixBounded(notes: map<nat, real>, t: real)
    requires Registered(notes)
    ensures -8.5 <= Mix(notes, SquareOsc(t)) <= 8.5
  {
    var osc := SquareOsc(t);
    forall k | k in notes
      ensures -1.0 <= osc(notes[k]) <= 1.0
    {
      assert osc(notes[k]) == SquareSoundMaker(notes[k], t);
    }
    MixBounded(notes, osc);
    RegistryBounded(notes);
  }

  /** With a sine function bounded by 1, the sine mix of a registered registry lies in `[-8.5, 8.5]`. */
  lemma SineMixBounded(notes: map<nat, real>, sin: real -> real, t: real)
    requires Registered(notes)
    requires forall x :: -1.0 <= sin(x) <= 1.0
    ensures -8.5 <= Mix(notes, SineOsc(sin, t)) <= 8.5
  {
    var osc := SineOsc(sin, t);
    forall k | k in notes
      ensures -1.0 <= osc(notes[k]) <= 1.0
    {
      assert osc(notes[k]) == SineSoundMaker(sin, notes[k], t);
    }
    MixBounded(notes, osc);
    RegistryBounded(notes);
  }

  /* ---------------------------------------------------------------------- */
  /* The manager                                                             */
  /* ---------------------------------------------------------------------- */

  /** The process-wide `s_instance` variable the static callback reads. */
  class InstanceSlot {
    var instance: AudioManager?

    constructor ()
      ensures instance == null
    {
      instance := null;
    }
  }

  class AudioManager {
    /** `m_activeNotes`: held key codes and their frequencies. */
    var activeNotes: map<nat, real>
    /** `m_currentWaveType`. */
    var waveType: WaveType

    ghost predicate Valid()
      reads this`activeNotes
    {
      Registered(activeNotes)
    }

    /**
     * A new manager holds no notes, plays sine waves and registers itself as
     * the process-wide instance.
     */
    constructor (slot: InstanceSlot)
      modifies slot
      ensures Valid()
      ensures activeNotes == map[] && waveType == Sine
      ensures slot.instance == this
    {
      activeNotes := map[];
      waveType := Sine;
      new;
      slot.instance := this;
    }

    /** The destructor: unregisters the manager if it is the registered instance. */
    method Unregister(slot: InstanceSlot)
      modifies slot
      ensures slot.instance == if old(slot.instance) == this then null else old(slot.instance)
    {
      if slot.instance == this {
        slot.instance := null;
      }
    }

    /** `HandleKeyDown`: looks a key up only when it is not held already. */
    method HandleKeyDown(key: nat)
      requires Valid()
      modifies this`activeNotes
      ensures Valid()
      ensures activeNotes == Pressed(old(activeNotes), key)
    {
      if key !in activeNotes {
        MapNoteFrequency(key);
      }
    }

    /** `HandleKeyUp`: erases the key; a key not held is ignored. */
    method HandleKeyUp(key: nat)
      requires Valid()
      modifies this`activeNotes
      ensures Valid()
      ensures activeNotes == Released(old(activeNotes), key)
    {
      activeNotes := activeNotes - {key};
    }

    /** `SetWaveType`: selects the waveform; the held notes stay as they are. */
    method SetWaveType(wave: WaveType)
      modifies this`waveType
      ensures waveType == wave
    {
      waveType := wave;
    }

    /**
     * `MapNoteFrequency`: enters a key of the table with its frequency,
     * replacing any entry it has; any other key is ignored.
     */
    method MapNoteFrequency(key: nat)
      requires Valid()
      modifies this`activeNotes
      ensures Valid()
      ensures key in NoteKeys ==> activeNotes == old(activeNotes)[key := KeyFrequency(key).value]
      ensures key !in NoteKeys ==> activeNotes == old(activeNotes)
    {
      var freq := KeyFrequency(key);
      if freq.None? {
        return;
      }
      activeNotes := activeNotes[key := freq.value];
    }

    /**
     * `MakeSineNoise`: sums the sine oscillator over the held notes, in
     * whatever order the map yields them, and halves the sum.
     */
    method MakeSineNoise(sin: real -> real, t: real) returns (out: real)
      ensures out == Mix(activeNotes, SineOsc(sin, t))
    {
      ghost var osc := SineOsc(sin, t);
      var output := 0.0;
      var rest := activeNotes;
      while rest != map[]
        invariant output + Sum(rest, osc) == Sum(activeNotes, osc)
        decreases rest.Keys
      {
        var key :| key in rest;
        SumRemove(rest, osc, key);
        output := output + SineSoundMaker(sin, rest[key], t);
        rest := rest - {key};
      }
      out := output * 0.5;
    }

    /**
     * `MakeSquareNoise`: sums the square oscillator over the held notes, in
     * whatever order the map yields them, and halves the sum.
     */
    method MakeSquareNoise(t: real) returns (out: real)
      ensures out == Mix(activeNotes, SquareOsc(t))
    {
      ghost var osc := SquareOsc(t);
      var output := 0.0;
      var rest := activeNotes;
      while rest != map[]
        invariant output + Sum(rest, osc) == Sum(activeNotes, osc)
        decreases rest.Keys
      {
        var key :| key in rest;
        SumRemove(rest, osc, key);
        output := output + SquareSoundMaker(rest[key], t);
        rest := rest - {key};
      }
      out := output * 0.5;
    }

    /**
     * `StaticNoiseCallback`, the synthesis function of the producer: silence
     * when no manager is registered, otherwise the registered manager's mix
     * for its selected waveform.
     */
    static method StaticNoiseCallback(slot: InstanceSlot, sin: real -> real, t: real) returns (out: real)
      ensures slot.instance == null ==> out == 0.0
      ensures slot.instance != null ==>
        out == Mix(slot.instance.activeNotes, Oscillator(slot.instance.waveType, sin, t))
    {
      var manager := slot.instance;
      if manager == null {
        return 0.0;
      }
      match manager.waveType {
        case Sine => out := manager.MakeSineNoise(sin, t);
        case Square => out := manager.MakeSquareNoise(t);
      }
    }
  }
}
