/** How the two boards' configurations fit together. On the jig, the device
    under test's SDA, SCL and DQ generators drive the controller's SDA_TEST,
    SCL_TEST and DQ inputs, the controller's OPTO_OUT generator drives the
    device's OPTO_IN, and the device's OPTO_OUT drives the controller's
    OPTO_IN. That wiring is physical; these lemmas state what follows from it. */
module Jig {
  import opened Nmea
  import opened SquareWave
  import opened Verdict
  import Controller
  import opened DeviceUnderTest

  /** The generator whose changes each controller channel counts (for OPTO_IN,
      through the device's mirror). */
  function SourceFrequency(ch: Channel): nat
  {
    match ch
    case SdaTest => DutFrequency(SdaToggle)
    case SclTest => DutFrequency(SclToggle)
    case Dq => DutFrequency(DqToggle)
    case OptoIn => Controller.ControllerFrequency(Controller.OptoOutToggle)
  }

  /** Each generator runs at the rate the controller expects on the channel
      it feeds (DQ at 173, as the code has it). */
  lemma GeneratorsMatchExpectations(ch: Channel)
    ensures SourceFrequency(ch) == ExpectedFrequency(ch)
  {
  }

  /** With ideal timing, a generator's timer fires `1e6 / period` times in a
      1000 ms window, give or take one for the phase of the window; each
      firing is one level change. Every such count passes its channel's check. */
  lemma IdealWindowCountPasses(ch: Channel, slack: int)
    requires -1 <= slack <= 1
    ensures AssertIntAlmostEqual(1_000_000 / PeriodMicros(SourceFrequency(ch)) + slack, ExpectedFrequency(ch), FrequencyTolerance)
  {
  }

  /** The device's message passes the controller's filter, and handling it
      latches exactly the value sent, whatever was latched before. */
  lemma ProducedMessageLatched(r: Readings)
    ensures Accepts(TemperatureMessage())
    ensures Handle(r, TemperatureMessage()) == r.(cabinTemperature := ExpectedCabinTemperature)
  {
  }

  /** The value the device sends is the one the controller expects, so it
      passes the bus check. */
  lemma ProducedValuePasses()
    ensures TemperatureOk(TemperatureMessage().asTemperatureExt.value.actual)
  {
  }

  /** The end-to-end cycle: from reset, if every channel reports a count
      within one of its generator's ideal window count and the device's
      message arrives (with no other accepted message), the controller
      reports OK. */
  lemma NominalCycleOk(evs: seq<Event>)
    requires forall ch, j :: 0 <= j < |evs| && CountsFor(evs[j], ch) ==>
      -1 <= evs[j].count - 1_000_000 / PeriodMicros(SourceFrequency(ch)) <= 1
    requires forall ch :: HasCount(evs, ch)
    requires forall j :: 0 <= j < |evs| && LatchesTemperature(evs[j]) ==> evs[j].message == TemperatureMessage()
    requires Received(TemperatureMessage()) in evs
    ensures AllOk(Apply(Cleared, evs))
  {
    forall ch, j | 0 <= j < |evs| && CountsFor(evs[j], ch)
      ensures Passes(Latch(Cleared, ch, evs[j].count), Frequency(ch))
    {
      var ideal := 1_000_000 / PeriodMicros(SourceFrequency(ch));
      IdealWindowCountPasses(ch, evs[j].count - ideal);
    }
    ProducedMessageLatched(Cleared);
    ProducedValuePasses();
    var k :| 0 <= k < |evs| && evs[k] == Received(TemperatureMessage());
    assert LatchesTemperature(evs[k]);
    CycleInBandPasses(evs);
  }

  /** The OPTO_IN channel end to end: the controller's OPTO_OUT generator
      writes an alternating sequence of levels; when the device services each
      write as a change before the next, its OPTO_OUT is written as often,
      alternating, so the controller sees as many changes as its generator
      made writes. Idealised: every write, the first included, is taken as a
      change of OPTO_IN; if the line already carries the first level, that
      write raises no interrupt and the count is one lower (within the
      tolerance, see `IdealWindowCountPasses`). */
  lemma OptoLoopPreservesChanges(m: Mirror, n: nat)
    ensures |Written(m, Follow(Levels(false, n)))| == n
    ensures forall i :: 0 < i < n ==>
      Written(m, Follow(Levels(false, n)))[i] != Written(m, Follow(Levels(false, n)))[i - 1]
  {
    ConsecutiveLevelsDiffer(false, n);
    MirrorPreservesChanges(m, Levels(false, n));
  }
}
