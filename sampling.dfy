/** The sample accumulator of `take_reading()`: `NUM_SAMPLES` ADC codes added up. */
module Sampling {

  /** `NUM_SAMPLES` */
  const NumSamples := 10
  /** Largest code of the 10-bit ADC, the 1023 of the resistance formula. */
  const AdcMax := 1023

  /** What `analogRead` returns on the 10-bit converter. */
  type Code = c: int | 0 <= c <= AdcMax

  /** Integer sum of the codes, added in the order they were read. */
  function Sum(s: seq<int>): int {
    if s == [] then 0 else Sum(s[..|s| - 1]) + s[|s| - 1]
  }

  lemma SumAppend(s: seq<int>, x: int)
    ensures Sum(s + [x]) == Sum(s) + x
  {
    assert (s + [x])[..|s|] == s;
  }

  /** Codes in 0..1023 sum to at most 1023 per code; for ten samples at most 10230, far
      below the 2^24 up to which the board's 32-bit `double` adds integers exactly. */
  lemma {:induction false} SumBounds(s: seq<Code>)
    ensures 0 <= Sum(s) <= AdcMax * |s|
  {
    if s != [] {
      SumBounds(s[..|s| - 1]);
    }
  }
}
