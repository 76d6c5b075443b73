// Loudness of one analysis frame, as computed by `detectVolume` in src/App.tsx:
// the byte magnitudes of the analyser's frequency bins are summed, divided by
// the number of bins and by 255.

module AudioLevel {

  /** One frequency-bin magnitude, an element of a `Uint8Array`. */
  type Byte = x: int | 0 <= x < 256

  /** The analysis window configured on the analyser node. */
  const FftSize: nat := 256

  /** Web Audio API: an AnalyserNode exposes half as many frequency bins as its FFT size. */
  const FrequencyBinCount: nat := FftSize / 2

  /** Largest byte magnitude, the normalising divisor. */
  const MaxMagnitude: nat := 255

  /** `dataArray.reduce((a, b) => a + b, 0)`: a left fold of `+` starting from 0. */
  function Sum(s: seq<int>): int
  {
    if s == [] then 0 else Sum(s[..|s| - 1]) + s[|s| - 1]
  }

  /** A sum of bytes is never negative and never more than 255 per element. */
  lemma {:induction false} SumBounds(s: seq<Byte>)
    ensures 0 <= Sum(s) <= MaxMagnitude * |s|
  {
    if s != [] {
      SumBounds(s[..|s| - 1]);
    }
  }

  /** Summing n copies of one value gives n times that value. */
  lemma {:induction false} SumOfConstant(s: seq<int>, c: int)
    requires forall i :: 0 <= i < |s| ==> s[i] == c
    ensures Sum(s) == c * |s|
  {
    if s != [] {
      SumOfConstant(s[..|s| - 1], c);
    }
  }

  /** Adding one to a single bin raises the sum by exactly one. */
  lemma {:induction false} SumIncrement(s: seq<int>, k: nat)
    requires k < |s|
    ensures Sum(s[k := s[k] + 1]) == Sum(s) + 1
  {
    var t := s[k := s[k] + 1];
    if k == |s| - 1 {
      assert t[..|t| - 1] == s[..|s| - 1];
    } else {
      assert t[..|t| - 1] == s[..|s| - 1][k := s[k] + 1];
      SumIncrement(s[..|s| - 1], k);
    }
  }

  /** `(sum / bufferLength) / 255`: the mean magnitude normalised into the unit interval. */
  function Loudness(bins: seq<Byte>): (v: real)
    requires |bins| > 0
    ensures 0.0 <= v <= 1.0
  {
    SumBounds(bins);
    var n := |bins| as real;
    var avg := Sum(bins) as real / n;
    assert avg <= MaxMagnitude as real by {
      assert Sum(bins) as real <= MaxMagnitude as real * n;
    }
    avg / MaxMagnitude as real
  }

  /** A frame whose every bin is at full scale has loudness exactly 1. */
  lemma FullScaleIsOne(bins: seq<Byte>)
    requires |bins| > 0
    requires forall i :: 0 <= i < |bins| ==> bins[i] == 255
    ensures Loudness(bins) == 1.0
  {
    SumOfConstant(bins, 255);
  }

  /** A silent frame has loudness exactly 0, and only a silent frame does. */
  lemma {:induction false} SilenceIsZero(bins: seq<Byte>)
    requires |bins| > 0
    ensures Loudness(bins) == 0.0 <==> forall i :: 0 <= i < |bins| ==> bins[i] == 0
  {
    if forall i :: 0 <= i < |bins| ==> bins[i] == 0 {
      SumOfConstant(bins, 0);
    } else {
      var k :| 0 <= k < |bins| && bins[k] != 0;
      SumPositive(bins, k);
    }
  }

  /** One non-zero byte makes the sum positive. */
  lemma {:induction false} SumPositive(s: seq<Byte>, k: nat)
    requires k < |s| && s[k] != 0
    ensures Sum(s) > 0
  {
    if k == |s| - 1 {
      SumBounds(s[..|s| - 1]);
    } else {
      SumPositive(s[..|s| - 1], k);
    }
  }

  /** Raising one bin by one never lowers the loudness: it rises by 1/(255 n). */
  lemma LoudnessIncrement(bins: seq<Byte>, k: nat)
    requires k < |bins| && bins[k] < 255
    ensures Loudness(bins[k := bins[k] + 1]) == Loudness(bins) + 1.0 / (MaxMagnitude as real * |bins| as real)
  {
    SumIncrement(bins, k);
  }
}
