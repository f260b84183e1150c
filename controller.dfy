/** The test-jig controller: five accumulators updated by the counters'
    consumers and the NMEA 2000 message handler, a once-a-second evaluation
    that reports the verdict and clears them, and two square-wave generators. */
module Controller {
  import opened Nmea
  import opened Verdict
  import opened SquareWave

  /** The controller's two generators: OPTO_OUT at 217 per second, the
      built-in LED at 2 per second. */
  datatype ControllerToggle = OptoOutToggle | LedToggle

  function ControllerFrequency(which: ControllerToggle): nat
  {
    match which
    case OptoOutToggle => 217
    case LedToggle => 2
  }

  class Controller {
    var sdaTestFreq: int
    var sclTestFreq: int
    var dqFreq: int
    var optoInFreq: int
    var cabinTemperature: real

    const optoOutWave: Toggle
    const ledWave: Toggle

    /** The accumulators as a value. */
    ghost function State(): Readings
      reads this
    {
      Readings(sdaTestFreq, sclTestFreq, dqFreq, optoInFreq, cabinTemperature)
    }

    function ToggleOf(which: ControllerToggle): Toggle
    {
      match which
      case OptoOutToggle => optoOutWave
      case LedToggle => ledWave
    }

    ghost predicate Valid()
      reads this, optoOutWave, ledWave
    {
      optoOutWave != ledWave &&
      optoOutWave.Valid() && optoOutWave.frequencyHz == ControllerFrequency(OptoOutToggle) &&
      ledWave.Valid() && ledWave.frequencyHz == ControllerFrequency(LedToggle)
    }

    /** Start-up: every accumulator zero, both generators fresh with state
        false and nothing written yet. */
    constructor ()
      ensures Valid() && State() == Cleared
      ensures fresh(optoOutWave) && fresh(ledWave)
      ensures !optoOutWave.state && !ledWave.state
      ensures optoOutWave.written == [] && ledWave.written == []
    {
      sdaTestFreq, sclTestFreq, dqFreq, optoInFreq := 0, 0, 0, 0;
      cabinTemperature := 0.0;
      optoOutWave := new Toggle(ControllerFrequency(OptoOutToggle));
      ledWave := new Toggle(ControllerFrequency(LedToggle));
    }

    /** The consumer connected to `ch`'s counter: the latest count overwrites
        that channel's reading; the other readings and the temperature stay. */
    method Consume(ch: Channel, input: int)
      modifies this
      ensures State() == Latch(old(State()), ch, input)
    {
      match ch
      case SdaTest => sdaTestFreq := input;
      case SclTest => sclTestFreq := input;
      case Dq => dqFreq := input;
      case OptoIn => optoInFreq := input;
    }

    /** The NMEA 2000 message handler. */
    method HandleMessage(m: Message)
      modifies this
      ensures State() == Handle(old(State()), m)
      ensures Accepts(m) ==> cabinTemperature == m.asTemperatureExt.value.actual
      ensures !Accepts(m) ==> State() == old(State())
    {
      if m.pgn == PgnTemperatureExt {
        match m.asTemperatureExt
        case Some(parsed) =>
          if parsed.source == MainCabinTemperature {
            cabinTemperature := parsed.actual;
          }
        case None =>
      }
    }

    /** The 1000 ms evaluation: make the five checks in order, clearing
        `allOk` on each failure and noting the failing check for the display,
        then reset every accumulator. */
    method Evaluate() returns (allOk: bool, failures: seq<Check>)
      modifies this
      ensures allOk == AllOk(old(State()))
      ensures failures == Failures(old(State()))
      ensures allOk <==> failures == []
      ensures State() == Cleared
    {
      ghost var before := State();
      allOk := true;
      failures := [];
      if !AssertIntAlmostEqual(sdaTestFreq, ExpectedFrequency(SdaTest), FrequencyTolerance) {
        allOk := false;
        failures := failures + [Frequency(SdaTest)];
      }
      if !AssertIntAlmostEqual(sclTestFreq, ExpectedFrequency(SclTest), FrequencyTolerance) {
        allOk := false;
        failures := failures + [Frequency(SclTest)];
      }
      if !AssertIntAlmostEqual(dqFreq, ExpectedFrequency(Dq), FrequencyTolerance) {
        allOk := false;
        failures := failures + [Frequency(Dq)];
      }
      if !AssertIntAlmostEqual(optoInFreq, ExpectedFrequency(OptoIn), FrequencyTolerance) {
        allOk := false;
        failures := failures + [Frequency(OptoIn)];
      }
      if !TemperatureOk(cabinTemperature) {
        allOk := false;
        failures := failures + [CanBus];
      }
      sdaTestFreq, sclTestFreq, dqFreq, optoInFreq := 0, 0, 0, 0;
      cabinTemperature := 0.0;
    }

    /** One invocation of a generator's timer callback; the returned level is
        the one written to its pin. The other generator and the accumulators
        are untouched. */
    method FireToggle(which: ControllerToggle) returns (level: bool)
      requires Valid()
      modifies ToggleOf(which)
      ensures Valid()
      ensures level == old(ToggleOf(which).state) && ToggleOf(which).state == !level
      ensures ToggleOf(which).written == old(ToggleOf(which).written) + [level]
      ensures forall o :: o != which ==> ToggleOf(o).state == old(ToggleOf(o).state)
    {
      level := ToggleOf(which).Tick();
    }
  }
}
