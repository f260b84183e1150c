/** The controller's verdict engine as values: the five accumulators, what
    each input does to them, and the pass/fail verdict computed from them
    once a second. The controller class drives its fields by these functions. */
module Verdict {
  import opened Nmea

  /** The four monitored inputs, each counted on level changes over 1000 ms. */
  datatype Channel = SdaTest | SclTest | Dq | OptoIn

  /** The five checks of one evaluation, in the order they are made. */
  datatype Check = Frequency(channel: Channel) | CanBus

  /** The tolerance every frequency check is made with. */
  const FrequencyTolerance: int := 10

  /** The temperature the device under test sends, and the band around it. */
  const ExpectedCabinTemperature: real := 273.15 + 24.5
  const TemperatureTolerance: real := 0.1

  /** Changes per second expected on each channel. */
  function ExpectedFrequency(ch: Channel): int
  {
    match ch
    case SdaTest => 100
    case SclTest => 141
    case Dq => 173
    case OptoIn => 217
  }

  function Abs(x: int): nat
  {
    if x < 0 then -x else x
  }

  function AbsReal(x: real): real
  {
    if x > 0.0 then x else -x
  }

  /** `assert_int_almost_equal` without its console line: the reading passes
      exactly when it lies strictly inside the band, i.e. its distance from
      the expected value is below the tolerance. */
  function AssertIntAlmostEqual(actual: int, expected: int, tol: int): (ok: bool)
    ensures ok <==> Abs(actual - expected) < tol
  {
    expected - tol < actual && actual < expected + tol
  }

  /** The bus check: it fails when the temperature is more than the tolerance
      away from the expected one, so it passes on the closed band. */
  function TemperatureOk(t: real): (ok: bool)
    ensures ok <==> ExpectedCabinTemperature - TemperatureTolerance <= t <= ExpectedCabinTemperature + TemperatureTolerance
  {
    !(AbsReal(t - ExpectedCabinTemperature) > TemperatureTolerance)
  }

  /** The controller's five accumulators. */
  datatype Readings = Readings(
    sdaTestFreq: int,
    sclTestFreq: int,
    dqFreq: int,
    optoInFreq: int,
    cabinTemperature: real)

  /** Every accumulator at its initial value, which is also the value each
      evaluation resets it to. */
  const Cleared: Readings := Readings(0, 0, 0, 0, 0.0)

  function Reading(r: Readings, ch: Channel): int
  {
    match ch
    case SdaTest => r.sdaTestFreq
    case SclTest => r.sclTestFreq
    case Dq => r.dqFreq
    case OptoIn => r.optoInFreq
  }

  /** A counter's consumer: the channel's reading becomes the reported count,
      and nothing else changes. */
  function Latch(r: Readings, ch: Channel, input: int): (r': Readings)
    ensures Reading(r', ch) == input
    ensures forall c :: c != ch ==> Reading(r', c) == Reading(r, c)
    ensures r'.cabinTemperature == r.cabinTemperature
  {
    match ch
    case SdaTest => r.(sdaTestFreq := input)
    case SclTest => r.(sclTestFreq := input)
    case Dq => r.(dqFreq := input)
    case OptoIn => r.(optoInFreq := input)
  }

  /** The three conditions under which the message handler latches a
      temperature: the PGN, a successful parse, and the main cabin source. */
  predicate Accepts(m: Message)
  {
    m.pgn == PgnTemperatureExt &&
    m.asTemperatureExt.Some? &&
    m.asTemperatureExt.value.source == MainCabinTemperature
  }

  /** The inbound message handler: an accepted message replaces the latched
      temperature by its actual value; any other message changes nothing. */
  function Handle(r: Readings, m: Message): (r': Readings)
    ensures forall c :: Reading(r', c) == Reading(r, c)
    ensures Accepts(m) ==> r'.cabinTemperature == m.asTemperatureExt.value.actual
    ensures !Accepts(m) ==> r' == r
  {
    if m.pgn == PgnTemperatureExt then
      match m.asTemperatureExt
      case Some(t) =>
        if t.source == MainCabinTemperature then r.(cabinTemperature := t.actual) else r
      case None => r
    else
      r
  }

  /** Whether one check of an evaluation passes on the given readings. */
  predicate Passes(r: Readings, c: Check)
  {
    match c
    case Frequency(ch) => AssertIntAlmostEqual(Reading(r, ch), ExpectedFrequency(ch), FrequencyTolerance)
    case CanBus => TemperatureOk(r.cabinTemperature)
  }

  /** `all_ok`: it starts true and each failing check clears it, so it holds
      exactly when every check passes. */
  function AllOk(r: Readings): (ok: bool)
    ensures ok <==> forall c :: Passes(r, c)
  {
    Passes(r, Frequency(SdaTest)) && Passes(r, Frequency(SclTest)) && Passes(r, Frequency(Dq)) &&
    Passes(r, Frequency(OptoIn)) && Passes(r, CanBus)
  }

  /** What one check contributes to the report: itself when it fails. */
  function Reported(r: Readings, c: Check): seq<Check>
  {
    if Passes(r, c) then [] else [c]
  }

  /** The checks reported as failing on the display, in evaluation order. */
  function Failures(r: Readings): seq<Check>
  {
    Reported(r, Frequency(SdaTest)) + Reported(r, Frequency(SclTest)) + Reported(r, Frequency(Dq)) +
    Reported(r, Frequency(OptoIn)) + Reported(r, CanBus)
  }

  predicate Distinct(cs: seq<Check>)
  {
    forall i, j :: 0 <= i < j < |cs| ==> cs[i] != cs[j]
  }

  /** Two duplicate-free reports with nothing in common concatenate to a
      duplicate-free report. */
  lemma DistinctConcat(a: seq<Check>, b: seq<Check>)
    requires Distinct(a) && Distinct(b)
    requires forall x :: x in a ==> x !in b
    ensures Distinct(a + b)
  {
    forall i, j | 0 <= i < j < |a + b|
      ensures (a + b)[i] != (a + b)[j]
    {
      if i < |a| && |a| <= j {
        assert (a + b)[i] == a[i] && a[i] in a;
        assert (a + b)[j] == b[j - |a|] && b[j - |a|] in b;
      }
    }
  }

  /** The report lists every failing check exactly once and no passing one,
      and it is empty exactly when `all_ok` holds. */
  lemma FailuresExact(r: Readings)
    ensures forall c :: c in Failures(r) <==> !Passes(r, c)
    ensures Distinct(Failures(r))
    ensures Failures(r) == [] <==> AllOk(r)
  {
    var s1 := Reported(r, Frequency(SdaTest));
    var s2 := Reported(r, Frequency(SclTest));
    var s3 := Reported(r, Frequency(Dq));
    var s4 := Reported(r, Frequency(OptoIn));
    var s5 := Reported(r, CanBus);
    DistinctConcat(s1, s2);
    DistinctConcat(s1 + s2, s3);
    DistinctConcat(s1 + s2 + s3, s4);
    DistinctConcat(s1 + s2 + s3 + s4, s5);
    var fs := Failures(r);
    assert fs != [] ==> fs[0] in fs;
  }

  /** A tolerance check fails on either edge of the band: both comparisons
      are strict. */
  lemma BoundaryFails(expected: int, tol: int)
    ensures !AssertIntAlmostEqual(expected - tol, expected, tol)
    ensures !AssertIntAlmostEqual(expected + tol, expected, tol)
  {
  }

  /** A count of zero (no edges seen) fails every channel, since every
      expected frequency exceeds the tolerance. */
  lemma ZeroCountFails(ch: Channel)
    ensures ExpectedFrequency(ch) > FrequencyTolerance
    ensures !Passes(Cleared, Frequency(ch))
  {
  }

  /** Freshly reset accumulators fail every check, the bus check included:
      a cycle with no input at all is never reported OK. */
  lemma ClearedFailsEverything()
    ensures Failures(Cleared) == [Frequency(SdaTest), Frequency(SclTest), Frequency(Dq), Frequency(OptoIn), CanBus]
  {
  }

  /** The readings of a cycle in which every input arrived as expected. */
  const Nominal: Readings := Readings(100, 141, 173, 217, ExpectedCabinTemperature)

  /** All checks pass on the nominal readings. */
  lemma NominalPasses()
    ensures AllOk(Nominal) && Failures(Nominal) == []
  {
  }

  /** Perturbing one channel by at least the tolerance fails the verdict and
      lists that channel alone. */
  lemma SingleFaultIsolated(ch: Channel, count: int)
    requires Abs(count - ExpectedFrequency(ch)) >= FrequencyTolerance
    ensures !AllOk(Latch(Nominal, ch, count))
    ensures Failures(Latch(Nominal, ch, count)) == [Frequency(ch)]
  {
  }

  /** What reaches the accumulators during one cycle: a count reported by a
      channel's counter, or a message from the bus. */
  datatype Event = Count(channel: Channel, count: int) | Received(message: Message)

  function Step(r: Readings, e: Event): Readings
  {
    match e
    case Count(ch, n) => Latch(r, ch, n)
    case Received(m) => Handle(r, m)
  }

  /** The accumulators after the events `evs`, in order, starting from `r`. */
  function Apply(r: Readings, evs: seq<Event>): Readings
    decreases |evs|
  {
    if evs == [] then r else Step(Apply(r, evs[..|evs| - 1]), evs[|evs| - 1])
  }

  predicate CountsFor(e: Event, ch: Channel)
  {
    e.Count? && e.channel == ch
  }

  predicate LatchesTemperature(e: Event)
  {
    e.Received? && Accepts(e.message)
  }

  /** A channel's reading is the count of the last report for that channel:
      earlier reports are overwritten, and other events never touch it. */
  lemma {:induction false} LatestCountWins(r: Readings, evs: seq<Event>, ch: Channel, i: nat)
    requires i < |evs| && CountsFor(evs[i], ch)
    requires forall j :: i < j < |evs| ==> !CountsFor(evs[j], ch)
    ensures Reading(Apply(r, evs), ch) == evs[i].count
    decreases |evs|
  {
    var prefix := evs[..|evs| - 1];
    if i < |evs| - 1 {
      assert !CountsFor(evs[|evs| - 1], ch);
      assert forall j :: i < j < |prefix| ==> prefix[j] == evs[j];
      LatestCountWins(r, prefix, ch, i);
    }
  }

  /** With no report for a channel, its reading keeps its value. */
  lemma {:induction false} UnreportedChannelKept(r: Readings, evs: seq<Event>, ch: Channel)
    requires forall j :: 0 <= j < |evs| ==> !CountsFor(evs[j], ch)
    ensures Reading(Apply(r, evs), ch) == Reading(r, ch)
    decreases |evs|
  {
    if evs != [] {
      var prefix := evs[..|evs| - 1];
      assert forall j :: 0 <= j < |prefix| ==> prefix[j] == evs[j];
      UnreportedChannelKept(r, prefix, ch);
      assert !CountsFor(evs[|evs| - 1], ch);
    }
  }

  /** The latched temperature is the actual value of the last accepted
      message; rejected messages and counts never touch it. */
  lemma {:induction false} LatestAcceptedWins(r: Readings, evs: seq<Event>, i: nat)
    requires i < |evs| && LatchesTemperature(evs[i])
    requires forall j :: i < j < |evs| ==> !LatchesTemperature(evs[j])
    ensures Apply(r, evs).cabinTemperature == evs[i].message.asTemperatureExt.value.actual
    decreases |evs|
  {
    var prefix := evs[..|evs| - 1];
    if i < |evs| - 1 {
      assert !LatchesTemperature(evs[|evs| - 1]);
      assert forall j :: i < j < |prefix| ==> prefix[j] == evs[j];
      LatestAcceptedWins(r, prefix, i);
    }
  }

  /** With no accepted message, the latched temperature keeps its value. */
  lemma {:induction false} NoAcceptedMessageKept(r: Readings, evs: seq<Event>)
    requires forall j :: 0 <= j < |evs| ==> !LatchesTemperature(evs[j])
    ensures Apply(r, evs).cabinTemperature == r.cabinTemperature
    decreases |evs|
  {
    if evs != [] {
      var prefix := evs[..|evs| - 1];
      assert forall j :: 0 <= j < |prefix| ==> prefix[j] == evs[j];
      NoAcceptedMessageKept(r, prefix);
      assert !LatchesTemperature(evs[|evs| - 1]);
    }
  }

  /** A cycle in which no accepted message arrived fails the bus check, as
      "not received", whatever the counters reported. */
  lemma MissingMessageFails(evs: seq<Event>)
    requires forall j :: 0 <= j < |evs| ==> !LatchesTemperature(evs[j])
    ensures !AllOk(Apply(Cleared, evs))
    ensures CanBus in Failures(Apply(Cleared, evs))
  {
    NoAcceptedMessageKept(Cleared, evs);
    assert !Passes(Apply(Cleared, evs), CanBus);
  }

  /** Some event of `evs` reports a count for `ch`. */
  predicate HasCount(evs: seq<Event>, ch: Channel)
  {
    exists j :: 0 <= j < |evs| && CountsFor(evs[j], ch)
  }

  /** If every report for a channel during a cycle was within its band and at
      least one arrived (or the reading was already in band), the channel
      passes at evaluation. */
  lemma {:induction false} ReportsInBandPass(r: Readings, evs: seq<Event>, ch: Channel)
    requires forall j :: 0 <= j < |evs| && CountsFor(evs[j], ch) ==> Passes(Latch(r, ch, evs[j].count), Frequency(ch))
    requires Passes(r, Frequency(ch)) || HasCount(evs, ch)
    ensures Passes(Apply(r, evs), Frequency(ch))
    decreases |evs|
  {
    if evs != [] {
      var prefix := evs[..|evs| - 1];
      var last := evs[|evs| - 1];
      assert forall j :: 0 <= j < |prefix| ==> prefix[j] == evs[j];
      if !CountsFor(last, ch) {
        if !Passes(r, Frequency(ch)) {
          var j :| 0 <= j < |evs| && CountsFor(evs[j], ch);
          assert j < |prefix|;
        }
        ReportsInBandPass(r, prefix, ch);
      }
    }
  }

  /** If every accepted message during a cycle carried a temperature in band
      and at least one arrived (or the latched value was already in band),
      the bus check passes at evaluation. */
  lemma {:induction false} MessagesInBandPass(r: Readings, evs: seq<Event>)
    requires forall j :: 0 <= j < |evs| && LatchesTemperature(evs[j]) ==> TemperatureOk(evs[j].message.asTemperatureExt.value.actual)
    requires TemperatureOk(r.cabinTemperature) || exists j :: 0 <= j < |evs| && LatchesTemperature(evs[j])
    ensures Passes(Apply(r, evs), CanBus)
    decreases |evs|
  {
    if evs != [] {
      var prefix := evs[..|evs| - 1];
      var last := evs[|evs| - 1];
      assert forall j :: 0 <= j < |prefix| ==> prefix[j] == evs[j];
      if !LatchesTemperature(last) {
        if !TemperatureOk(r.cabinTemperature) {
          var j :| 0 <= j < |evs| && LatchesTemperature(evs[j]);
          assert j < |prefix|;
        }
        MessagesInBandPass(r, prefix);
      }
    }
  }

  /** A cycle started from reset is reported OK when every channel reported
      at least once, every report was in band, and at least one accepted
      message arrived, every accepted one in band. */
  lemma CycleInBandPasses(evs: seq<Event>)
    requires forall ch, j :: 0 <= j < |evs| && CountsFor(evs[j], ch) ==> Passes(Latch(Cleared, ch, evs[j].count), Frequency(ch))
    requires forall ch :: HasCount(evs, ch)
    requires forall j :: 0 <= j < |evs| && LatchesTemperature(evs[j]) ==> TemperatureOk(evs[j].message.asTemperatureExt.value.actual)
    requires exists j :: 0 <= j < |evs| && LatchesTemperature(evs[j])
    ensures AllOk(Apply(Cleared, evs))
  {
    ReportsInBandPass(Cleared, evs, SdaTest);
    ReportsInBandPass(Cleared, evs, SclTest);
    ReportsInBandPass(Cleared, evs, Dq);
    ReportsInBandPass(Cleared, evs, OptoIn);
    MessagesInBandPass(Cleared, evs);
  }
}
