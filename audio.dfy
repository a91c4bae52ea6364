/**
 * The reduction of hooks/use-audio-input.ts: each tick turns the 256 bytes
 * of the analyser's frequency spectrum into a loudness and a dominant bucket.
 */
module Audio {
  import opened Types

  /** One entry of a `Uint8Array`. */
  newtype byte = x: int | 0 <= x < 256

  /** `new Uint8Array(256)`: the number of spectrum buckets. */
  const Buckets: nat := 256

  /** `dataArray.reduce((a, b) => a + b, 0)`, folded from the left. */
  function Sum(s: seq<byte>): (r: int)
    ensures 0 <= r <= 255 * |s|
  {
    if s == [] then 0 else Sum(s[..|s| - 1]) + s[|s| - 1] as int
  }

  /** `avg / 255` with `avg` the mean of the bytes. */
  function Volume(s: seq<byte>): real
    requires |s| > 0
  {
    Sum(s) as real / |s| as real / 255.0
  }

  /** The loudness of bytes in [0, 255] lies in [0, 1]. */
  lemma VolumeBounds(s: seq<byte>)
    requires |s| > 0
    ensures 0.0 <= Volume(s) <= 1.0
  {
    var n := |s| as real;
    var mean := Sum(s) as real / n;
    assert Sum(s) as real <= 255.0 * n;
    assert mean <= 255.0 by { DivideBound(Sum(s) as real, 255.0, n); }
  }

  lemma DivideBound(a: real, b: real, n: real)
    requires 0.0 <= a <= b * n && n > 0.0
    ensures 0.0 <= a / n <= b
  {
  }

  /** `m` is the first index holding the largest byte. */
  predicate IsFirstMax(s: seq<byte>, m: nat) {
    && m < |s|
    && (forall j :: 0 <= j < |s| ==> s[j] <= s[m])
    && (forall j :: 0 <= j < m ==> s[j] < s[m])
  }

  /** There is only one first maximum. */
  lemma FirstMaxUnique(s: seq<byte>, a: nat, b: nat)
    requires IsFirstMax(s, a) && IsFirstMax(s, b)
    ensures a == b
  {
    assert s[a] <= s[b] && s[b] <= s[a];
  }

  /**
   * The `for` loop of tick: only a strictly larger byte moves `maxIndex`, so
   * the result is the first index of the maximum.
   */
  method MaxIndex(data: array<byte>) returns (m: nat)
    requires data.Length > 0
    ensures IsFirstMax(data[..], m)
  {
    m := 0;
    var i := 1;
    while i < data.Length
      invariant 1 <= i <= data.Length && m < i
      invariant forall j :: 0 <= j < i ==> data[j] <= data[m]
      invariant forall j :: 0 <= j < m ==> data[j] < data[m]
    {
      if data[i] > data[m] {
        m := i;
      }
      i := i + 1;
    }
  }

  /** `maxIndex / dataArray.length`. */
  function Frequency(maxIndex: nat, length: nat): real
    requires length > 0
  {
    maxIndex as real / length as real
  }

  /** The dominant bucket of a 256-byte spectrum is at most 255/256, so below 1. */
  lemma FrequencyBelowOne(s: seq<byte>, m: nat)
    requires |s| == Buckets && IsFirstMax(s, m)
    ensures 0.0 <= Frequency(m, |s|) <= 255.0 / 256.0 < 1.0
  {
  }

  /** A flat spectrum has its first maximum at bucket 0, so frequency 0. */
  lemma FlatSpectrum(s: seq<byte>, m: nat)
    requires |s| > 0 && (forall j :: 0 <= j < |s| ==> s[j] == s[0]) && IsFirstMax(s, m)
    ensures m == 0 && Frequency(m, |s|) == 0.0
  {
    assert s[m] == s[0];
  }

  /** tick: the snapshot computed from the spectrum just read into `data`. */
  method Tick(data: array<byte>) returns (a: AudioData)
    requires data.Length == Buckets
    ensures a.volume == Volume(data[..])
    ensures exists m :: IsFirstMax(data[..], m) && a.frequency == Frequency(m, Buckets)
    ensures 0.0 <= a.volume <= 1.0 && 0.0 <= a.frequency < 1.0
  {
    var volume := Volume(data[..]);
    VolumeBounds(data[..]);
    var maxIndex := MaxIndex(data);
    FrequencyBelowOne(data[..], maxIndex);
    a := AudioData(volume, Frequency(maxIndex, data.Length));
  }

  /**
   * The value the hook returns: `{volume: 0, frequency: 0}` while disabled or
   * before the first tick, the last tick's snapshot otherwise.
   */
  function HookData(enabled: bool, lastTick: Option<AudioData>): (a: AudioData)
    ensures !enabled ==> a == Silence
    ensures enabled && lastTick.Some? ==> a == lastTick.value
  {
    if enabled then lastTick.GetOr(Silence) else Silence
  }
}
