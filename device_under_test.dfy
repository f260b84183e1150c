/** The device under test: four square-wave generators, the OPTO_OUT mirror
    of OPTO_IN (an interrupt raises a flag, the loop tick services it), and
    the temperature message it sends every 100 ms. */
module DeviceUnderTest {
  import opened Nmea
  import opened SquareWave

  /** The mirror's state: the `opto_in_change` flag and the level last
      written to OPTO_OUT. */
  datatype Mirror = Mirror(optoInChange: bool, optoOut: bool)

  /** What the mirror reacts to: a change interrupt on OPTO_IN, or a loop
      tick that reads OPTO_IN at the given level. */
  datatype MirrorEvent = Edge | Poll(optoIn: bool)

  /** One event. An interrupt only raises the flag; a tick with the flag
      raised clears it and drives OPTO_OUT to the inverse of OPTO_IN; a tick
      with the flag clear does nothing. */
  function MirrorStep(s: Mirror, e: MirrorEvent): (s': Mirror)
    ensures e.Edge? ==> s'.optoInChange && s'.optoOut == s.optoOut
    ensures e.Poll? && s.optoInChange ==> s' == Mirror(false, !e.optoIn)
    ensures e.Poll? && !s.optoInChange ==> s' == s
  {
    match e
    case Edge => s.(optoInChange := true)
    case Poll(level) => if s.optoInChange then Mirror(false, !level) else s
  }

  /** The level one event writes to OPTO_OUT, if it writes one. */
  function WrittenBy(s: Mirror, e: MirrorEvent): seq<bool>
  {
    if e.Poll? && s.optoInChange then [!e.optoIn] else []
  }

  /** The mirror after the events `evs`, in order. */
  function Run(s: Mirror, evs: seq<MirrorEvent>): Mirror
    decreases |evs|
  {
    if evs == [] then s else Run(MirrorStep(s, evs[0]), evs[1..])
  }

  /** Every level written to OPTO_OUT during the events `evs`, in order. */
  function Written(s: Mirror, evs: seq<MirrorEvent>): seq<bool>
    decreases |evs|
  {
    if evs == [] then [] else WrittenBy(s, evs[0]) + Written(MirrorStep(s, evs[0]), evs[1..])
  }

  /** Running two event sequences back to back is running the first and then
      the second from where the first left off. */
  lemma {:induction false} RunAppend(s: Mirror, a: seq<MirrorEvent>, b: seq<MirrorEvent>)
    ensures Run(s, a + b) == Run(Run(s, a), b)
    ensures Written(s, a + b) == Written(s, a) + Written(Run(s, a), b)
    decreases |a|
  {
    if a == [] {
      assert a + b == b;
    } else {
      assert (a + b)[0] == a[0] && (a + b)[1..] == a[1..] + b;
      RunAppend(MirrorStep(s, a[0]), a[1..], b);
    }
  }

  function Edges(k: nat): (evs: seq<MirrorEvent>)
    ensures |evs| == k && forall i :: 0 <= i < k ==> evs[i] == Edge
  {
    seq(k, i => Edge)
  }

  /** Any burst of one or more interrupts only raises the flag: it writes
      nothing and leaves OPTO_OUT as it was. */
  lemma {:induction false} EdgeBurst(s: Mirror, k: nat)
    requires k >= 1
    ensures Run(s, Edges(k)) == s.(optoInChange := true)
    ensures Written(s, Edges(k)) == []
    decreases k
  {
    var evs := Edges(k);
    assert evs[1..] == Edges(k - 1);
    if k > 1 {
      EdgeBurst(s.(optoInChange := true), k - 1);
    }
  }

  /** However many interrupts arrive before a tick, the tick updates OPTO_OUT
      exactly once, to the inverse of the level it reads, and clears the flag. */
  lemma BurstThenTickWritesOnce(s: Mirror, k: nat, level: bool)
    requires k >= 1
    ensures Run(s, Edges(k) + [Poll(level)]) == Mirror(false, !level)
    ensures Written(s, Edges(k) + [Poll(level)]) == [!level]
  {
    RunAppend(s, Edges(k), [Poll(level)]);
    EdgeBurst(s, k);
  }

  /** The events of an OPTO_IN input that changes to each level of `levels`
      in turn, every change serviced by a tick before the next one. */
  function Follow(levels: seq<bool>): (evs: seq<MirrorEvent>)
    ensures |evs| == 2 * |levels|
    decreases |levels|
  {
    if levels == [] then [] else [Edge, Poll(levels[0])] + Follow(levels[1..])
  }

  function Negated(levels: seq<bool>): (out: seq<bool>)
    ensures |out| == |levels| && forall i :: 0 <= i < |levels| ==> out[i] == !levels[i]
  {
    seq(|levels|, i requires 0 <= i < |levels| => !levels[i])
  }

  /** One serviced change: the interrupt then the tick that reads `level`. */
  lemma ServicedChange(s: Mirror, level: bool)
    ensures Run(s, [Edge, Poll(level)]) == Mirror(false, !level)
    ensures Written(s, [Edge, Poll(level)]) == [!level]
  {
    var evs: seq<MirrorEvent> := [Edge, Poll(level)];
    var raised := s.(optoInChange := true);
    var serviced := Mirror(false, !level);
    assert evs[0] == Edge && evs[1..] == [Poll(level)];
    assert [Poll(level)][0] == Poll(level) && [Poll(level)][1..] == [];
    assert MirrorStep(s, Edge) == raised && MirrorStep(raised, Poll(level)) == serviced;
    calc {
      Run(s, evs);
      Run(raised, [Poll(level)]);
      Run(serviced, []);
      serviced;
    }
    calc {
      Written(s, evs);
      WrittenBy(s, Edge) + Written(raised, [Poll(level)]);
      [] + (WrittenBy(raised, Poll(level)) + Written(serviced, []));
      [!level];
    }
  }

  lemma NegatedCons(levels: seq<bool>)
    requires levels != []
    ensures Negated(levels) == [!levels[0]] + Negated(levels[1..])
  {
  }

  /** When every input change is serviced before the next, OPTO_OUT is
      written once per change, each time with the inverse of the new input
      level, and the flag ends clear. */
  lemma {:induction false} FollowMirrors(s: Mirror, levels: seq<bool>)
    ensures Written(s, Follow(levels)) == Negated(levels)
    ensures levels != [] ==> Run(s, Follow(levels)) == Mirror(false, !levels[|levels| - 1])
    ensures levels == [] ==> Run(s, Follow(levels)) == s
    decreases |levels|
  {
    if levels != [] {
      var tail := levels[1..];
      var head: seq<MirrorEvent> := [Edge, Poll(levels[0])];
      var serviced := Mirror(false, !levels[0]);
      assert Follow(levels) == head + Follow(tail);
      RunAppend(s, head, Follow(tail));
      ServicedChange(s, levels[0]);
      FollowMirrors(serviced, tail);
      calc {
        Written(s, Follow(levels));
        Written(s, head) + Written(serviced, Follow(tail));
        [!levels[0]] + Negated(tail);
        { NegatedCons(levels); }
        Negated(levels);
      }
      calc {
        Run(s, Follow(levels));
        Run(serviced, Follow(tail));
      }
      if tail != [] {
        assert tail[|tail| - 1] == levels[|levels| - 1];
      }
    }
  }

  /** An alternating input (a square wave) gives an alternating output with
      the same number of changes: the mirror preserves the change count. */
  lemma MirrorPreservesChanges(s: Mirror, levels: seq<bool>)
    requires forall i :: 0 < i < |levels| ==> levels[i] != levels[i - 1]
    ensures |Written(s, Follow(levels))| == |levels|
    ensures forall i :: 0 < i < |levels| ==> Written(s, Follow(levels))[i] != Written(s, Follow(levels))[i - 1]
  {
    FollowMirrors(s, levels);
  }

  /** The four generators of the device under test. */
  datatype DutToggle = SdaToggle | SclToggle | DqToggle | LedToggle

  /** Invocations per second of each generator: 100 on SDA, 141 on SCL,
      173 on DQ, 4 on the LED. */
  function DutFrequency(which: DutToggle): nat
  {
    match which
    case SdaToggle => 100
    case SclToggle => 141
    case DqToggle => 173
    case LedToggle => 4
  }

  /** The message sent every 100 ms: SID 1, instance 1, the main cabin source
      and 273.15 + 24.5 kelvin. */
  function TemperatureMessage(): Message
  {
    SetTemperatureExt(1, 1, MainCabinTemperature, 273.15 + 24.5)
  }

  class Dut {
    const sdaWave: Toggle
    const sclWave: Toggle
    const dqWave: Toggle
    const ledWave: Toggle
    /** `volatile bool opto_in_change`, zero-initialised. */
    var optoInChange: bool
    /** The level last written to OPTO_OUT. */
    var optoOut: bool

    ghost function MirrorState(): Mirror
      reads this
    {
      Mirror(optoInChange, optoOut)
    }

    function ToggleOf(which: DutToggle): Toggle
    {
      match which
      case SdaToggle => sdaWave
      case SclToggle => sclWave
      case DqToggle => dqWave
      case LedToggle => ledWave
    }

    ghost predicate Valid()
      reads this, sdaWave, sclWave, dqWave, ledWave
    {
      sdaWave != sclWave && sdaWave != dqWave && sdaWave != ledWave &&
      sclWave != dqWave && sclWave != ledWave && dqWave != ledWave &&
      (forall w :: ToggleOf(w).Valid() && ToggleOf(w).frequencyHz == DutFrequency(w))
    }

    /** Start-up: the flag clear, every generator fresh with state false and
        nothing written.
        The level of OPTO_OUT before its first write is not known, so it is a
        parameter. */
    constructor (initialOptoOut: bool)
      ensures Valid() && MirrorState() == Mirror(false, initialOptoOut)
      ensures forall w :: fresh(ToggleOf(w)) && !ToggleOf(w).state
      ensures forall w :: ToggleOf(w).written == []
    {
      sdaWave := new Toggle(DutFrequency(SdaToggle));
      sclWave := new Toggle(DutFrequency(SclToggle));
      dqWave := new Toggle(DutFrequency(DqToggle));
      ledWave := new Toggle(DutFrequency(LedToggle));
      optoInChange := false;
      optoOut := initialOptoOut;
      new;
      assert forall w :: ToggleOf(w) in {sdaWave, sclWave, dqWave, ledWave};
    }

    /** One invocation of a generator's timer callback; the returned level is
        the one written to its pin. Every other generator keeps its state. */
    method FireToggle(which: DutToggle) returns (level: bool)
      requires Valid()
      modifies ToggleOf(which)
      ensures Valid()
      ensures level == old(ToggleOf(which).state) && ToggleOf(which).state == !level
      ensures ToggleOf(which).written == old(ToggleOf(which).written) + [level]
      ensures forall o :: o != which ==> ToggleOf(o).state == old(ToggleOf(o).state)
    {
      level := ToggleOf(which).Tick();
    }

    /** The OPTO_IN change interrupt. */
    method Interrupt()
      modifies this
      ensures MirrorState() == MirrorStep(old(MirrorState()), Edge)
    {
      optoInChange := true;
    }

    /** The loop tick, reading OPTO_IN at `optoIn`. */
    method Tick(optoIn: bool)
      modifies this
      ensures MirrorState() == MirrorStep(old(MirrorState()), Poll(optoIn))
    {
      if optoInChange {
        optoInChange := false;
        optoOut := !optoIn;
      }
    }
  }
}
