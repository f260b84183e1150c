/** Square-wave generators. Each is a repeating timer callback that keeps a
    `static bool state`, starting false, writes it to its output pin and then
    inverts it. The timer itself is the scheduler's; here a generator is
    invoked by whoever drives it. */
module SquareWave {

  /** The timer interval in microseconds registered for a generator invoked
      `frequencyHz` times a second: `1e6 / F`, truncated to the integer
      interval the timer takes. */
  function PeriodMicros(frequencyHz: nat): (period: nat)
    requires frequencyHz > 0
    ensures period * frequencyHz <= 1_000_000 < (period + 1) * frequencyHz
  {
    1_000_000 / frequencyHz
  }

  /** The levels written by `n` consecutive invocations of a generator whose
      retained state is `start` before the first of them, oldest first. */
  function Levels(start: bool, n: nat): (levels: seq<bool>)
    ensures |levels| == n
    decreases n
  {
    if n == 0 then [] else [start] + Levels(!start, n - 1)
  }

  /** The retained state after `n` invocations from `start`. */
  function StateAfter(start: bool, n: nat): bool
    decreases n
  {
    if n == 0 then start else StateAfter(!start, n - 1)
  }

  /** The state is inverted once per invocation, so only the parity of the
      number of invocations matters. */
  lemma {:induction false} StateAfterParity(start: bool, n: nat)
    ensures StateAfter(start, n) == (start != (n % 2 == 1))
    decreases n
  {
    if n > 0 {
      StateAfterParity(!start, n - 1);
    }
  }

  /** After an even number of invocations the generator is back where it started. */
  lemma EvenInvocationsRestore(start: bool, k: nat)
    ensures StateAfter(start, 2 * k) == start
  {
    StateAfterParity(start, 2 * k);
  }

  /** The i-th level written is the start level inverted i times. */
  lemma {:induction false} LevelsByParity(start: bool, n: nat)
    ensures forall i :: 0 <= i < n ==> Levels(start, n)[i] == (start != (i % 2 == 1))
    decreases n
  {
    if n > 0 {
      LevelsByParity(!start, n - 1);
      forall i | 0 <= i < n
        ensures Levels(start, n)[i] == (start != (i % 2 == 1))
      {
        if i > 0 {
          assert Levels(start, n)[i] == Levels(!start, n - 1)[i - 1];
        }
      }
    }
  }

  /** Consecutive writes of one generator differ: the output is a square wave
      with one level change per invocation. */
  lemma ConsecutiveLevelsDiffer(start: bool, n: nat)
    ensures forall i :: 0 < i < n ==> Levels(start, n)[i] != Levels(start, n)[i - 1]
  {
    LevelsByParity(start, n);
  }

  /** One more invocation appends the current state to the levels written. */
  lemma {:induction false} LevelsExtend(start: bool, n: nat)
    ensures Levels(start, n + 1) == Levels(start, n) + [StateAfter(start, n)]
    decreases n
  {
    if n > 0 {
      LevelsExtend(!start, n - 1);
      calc {
        Levels(start, n + 1);
        [start] + Levels(!start, n);
        [start] + (Levels(!start, n - 1) + [StateAfter(!start, n - 1)]);
        ([start] + Levels(!start, n - 1)) + [StateAfter(!start, n - 1)];
      }
    }
  }

  /** One generator callback and the state it retains between invocations. */
  class Toggle {
    /** Invocations per second the callback is registered for. */
    const frequencyHz: nat
    /** The callback's retained `static bool state`. */
    var state: bool
    /** Every level written to the pin so far, oldest first. */
    ghost var written: seq<bool>

    /** The state and the writes are those of |written| invocations from false. */
    ghost predicate Valid()
      reads this
    {
      frequencyHz > 0 &&
      written == Levels(false, |written|) &&
      state == StateAfter(false, |written|)
    }

    constructor (frequencyHz: nat)
      requires frequencyHz > 0
      ensures Valid() && this.frequencyHz == frequencyHz
      ensures !state && written == []
    {
      this.frequencyHz := frequencyHz;
      state := false;
      written := [];
    }

    /** One timer invocation: write the state to the pin, then invert it.
        Returns the level written. */
    method Tick() returns (level: bool)
      requires Valid()
      modifies this
      ensures Valid()
      ensures level == old(state) && state == !old(state)
      ensures written == old(written) + [level]
    {
      level := state;
      LevelsExtend(false, |written|);
      StateAfterParity(false, |written|);
      StateAfterParity(false, |written| + 1);
      written := written + [level];
      state := !state;
    }
  }
}
