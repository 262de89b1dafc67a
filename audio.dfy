/** Sample arithmetic on mono waveforms: durations in milliseconds, the pairwise crossfade, stitching of a chunk
    list, and time-stretching to an exact length. Sample values are reals; the blend weights and the stretch itself
    are parameters. */
module Audio {
  import opened Wrappers
  import opened Numeric

  /** A mono waveform at the project sample rate. */
  type Samples = seq<real>

  /** The overlap blend: Blend(a, b, k, n) is sample k of an n-sample overlap that mixes sample a of the outgoing
      signal with sample b of the incoming one (weights cos² and sin² of k·(π/2)/n in the source). */
  type Blend = (real, real, nat, nat) -> real

  /** A rate-based time stretch (librosa.effects.time_stretch): Stretch(data, rate). */
  type Stretch = (Samples, real) -> Samples

  /** calculate_duration_ms: zero for no samples; otherwise len·1000/sample_rate rounded half to even, which is
      never negative for a positive sample rate. A zero sample rate divides by zero. */
  function DurationMs(data: Samples, sampleRate: int): (r: Result<int>)
    ensures data == [] ==> r == Ok(0)
    ensures data != [] && sampleRate == 0 ==> r == Err(DivisionByZero)
    ensures data != [] && sampleRate > 0 ==> r.Ok? && r.value >= 0
    ensures data != [] && sampleRate < 0 ==> r.Ok? && r.value <= 0
  {
    if |data| == 0 then Ok(0)
    else if sampleRate == 0 then Err(DivisionByZero)
    else if sampleRate > 0 then
      var ms := RoundHalfEven(|data| * 1000, sampleRate);
      MulSign(ms, sampleRate);
      Ok(ms)
    else
      var ms := RoundHalfEven(-(|data| * 1000), -sampleRate);
      MulSign(ms, -sampleRate);
      Ok(ms)
  }

  /** For a positive rate the measured duration is the number of milliseconds nearest to the exact one, len·1000/rate,
      and the even one of two equally near. */
  lemma DurationMsNearest(data: Samples, sampleRate: int)
    requires data != [] && sampleRate > 0
    ensures var ms := DurationMs(data, sampleRate).value;
            && 2 * Abs(|data| * 1000 - ms * sampleRate) <= sampleRate
            && (2 * Abs(|data| * 1000 - ms * sampleRate) == sampleRate ==> ms % 2 == 0)
  {
  }

  /** The number of samples cosine_crossfade actually overlaps: none when the request is not positive or the first
      signal is empty, otherwise the request clamped to both lengths. */
  function Overlap(first: Samples, second: Samples, crossfadeSamples: int): (c: nat)
    ensures c <= |first| && c <= |second|
    ensures c > 0 ==> c <= crossfadeSamples
  {
    if crossfadeSamples <= 0 || first == [] then 0 else Min(crossfadeSamples, Min(|first|, |second|))
  }

  /** cosine_crossfade: the last c samples of `first` are blended with the first c samples of `second`, where c is
      the clamped overlap. CosineCrossfadeSpec states what the rest of the result is. */
  function CosineCrossfade(first: Samples, second: Samples, crossfadeSamples: int, blend: Blend): (r: Samples)
    ensures |r| == |first| + |second| - Overlap(first, second, crossfadeSamples)
  {
    if crossfadeSamples <= 0 || |first| == 0 then first + second
    else
      var c := Min(crossfadeSamples, Min(|first|, |second|));
      if c == 0 then first + second
      else
        var overlap := seq(c, k requires 0 <= k < c => blend(first[|first| - c + k], second[k], k, c));
        first[..|first| - c] + overlap + second[c..]
  }

  /** Everything before the overlap comes from `first` unchanged, everything after it from `second` unchanged, and
      sample k of the overlap blends sample k of the tail of `first` with sample k of `second`. Without overlap the
      result is the plain concatenation. */
  lemma CosineCrossfadeSpec(first: Samples, second: Samples, crossfadeSamples: int, blend: Blend)
    ensures var r := CosineCrossfade(first, second, crossfadeSamples, blend);
            var c := Overlap(first, second, crossfadeSamples);
            && (c == 0 ==> r == first + second)
            && r[..|first| - c] == first[..|first| - c]
            && r[|first|..] == second[c..]
            && forall k :: 0 <= k < c ==> r[|first| - c + k] == blend(first[|first| - c + k], second[k], k, c)
  {
    var r := CosineCrossfade(first, second, crossfadeSamples, blend);
    var c := Overlap(first, second, crossfadeSamples);
    if c > 0 {
      assert r[|first|..] == second[c..];
    }
  }

  /** The crossfade length stitch_chunks uses: sample_rate·crossfade_ms/1000 rounded half to even. */
  function CrossfadeSamples(sampleRate: int, crossfadeMs: int): int {
    RoundHalfEven(sampleRate * crossfadeMs, 1000)
  }

  /** The left fold of cosine_crossfade over a non-empty chunk list. */
  function Fold(chunks: seq<Samples>, c: int, blend: Blend): Samples
    requires |chunks| >= 1
  {
    if |chunks| == 1 then chunks[0]
    else CosineCrossfade(Fold(chunks[..|chunks| - 1], c, blend), chunks[|chunks| - 1], c, blend)
  }

  /** What stitch_chunks computes for a given crossfade length: nothing for no chunks, otherwise the fold. */
  function Stitched(chunks: seq<Samples>, c: int, blend: Blend): Samples {
    if chunks == [] then [] else Fold(chunks, c, blend)
  }

  /** stitch_chunks: an empty list gives an empty signal, one chunk is returned as it is, and more chunks are
      crossfaded left to right with the crossfade length rounded from milliseconds. */
  method StitchChunks(chunkAudios: seq<Samples>, sampleRate: int, crossfadeMs: int, blend: Blend)
    returns (result: Samples)
    ensures chunkAudios == [] ==> result == []
    ensures |chunkAudios| == 1 ==> result == chunkAudios[0]
    ensures result == Stitched(chunkAudios, CrossfadeSamples(sampleRate, crossfadeMs), blend)
  {
    if chunkAudios == [] {
      return [];
    }
    result := chunkAudios[0];
    var crossfadeSamples := RoundHalfEven(sampleRate * crossfadeMs, 1000);
    for i := 1 to |chunkAudios|
      invariant result == Fold(chunkAudios[..i], crossfadeSamples, blend)
    {
      assert chunkAudios[..i + 1][..i] == chunkAudios[..i];
      result := CosineCrossfade(result, chunkAudios[i], crossfadeSamples, blend);
    }
    assert chunkAudios[..|chunkAudios|] == chunkAudios;
  }

  /** The total number of samples in a chunk list. */
  function TotalLength(chunks: seq<Samples>): nat {
    if chunks == [] then 0 else TotalLength(chunks[..|chunks| - 1]) + |chunks[|chunks| - 1]|
  }

  /** The concatenation of a chunk list. */
  function Concat(chunks: seq<Samples>): Samples {
    if chunks == [] then [] else Concat(chunks[..|chunks| - 1]) + chunks[|chunks| - 1]
  }

  /** When every chunk is at least as long as a positive crossfade, each of the n-1 joins overlaps by exactly that
      many samples, so the stitched length is the total length minus (n-1)·c. */
  lemma {:induction false} StitchedLength(chunks: seq<Samples>, c: int, blend: Blend)
    requires |chunks| >= 1 && c > 0
    requires forall i :: 0 <= i < |chunks| ==> |chunks[i]| >= c
    ensures |Stitched(chunks, c, blend)| == TotalLength(chunks) - (|chunks| - 1) * c
    ensures |Stitched(chunks, c, blend)| >= c
  {
    if |chunks| == 1 {
      assert chunks[..0] == [];
    } else {
      var init := chunks[..|chunks| - 1];
      StitchedLength(init, c, blend);
      var acc := Fold(init, c, blend);
      var last := chunks[|chunks| - 1];
      assert |acc| == TotalLength(init) - (|chunks| - 2) * c;
      assert (|chunks| - 1) * c == (|chunks| - 2) * c + c;
      assert TotalLength(chunks) == TotalLength(init) + |last|;
      assert Overlap(acc, last, c) == c;
      assert Stitched(chunks, c, blend) == CosineCrossfade(acc, last, c, blend);
    }
  }

  /** Without a positive crossfade, stitching is plain concatenation. */
  lemma {:induction false} StitchedWithoutCrossfade(chunks: seq<Samples>, c: int, blend: Blend)
    requires c <= 0
    ensures Stitched(chunks, c, blend) == Concat(chunks)
  {
    if |chunks| == 1 {
      assert chunks[..0] == [];
      assert Concat(chunks) == Concat([]) + chunks[0];
    } else if |chunks| > 1 {
      StitchedWithoutCrossfade(chunks[..|chunks| - 1], c, blend);
    }
  }

  /** The exact sample count time_stretch_to_duration produces for a target duration: target·rate/1000 rounded half
      to even, and at least one. */
  function DesiredSamples(targetMs: int, sampleRate: int): int {
    Max(RoundHalfEven(targetMs * sampleRate, 1000), 1)
  }

  /** Truncate, or pad with trailing silence, to exactly `desired` samples. */
  function FitLength(stretched: Samples, desired: nat): (r: Samples)
    ensures |r| == desired
    ensures forall k :: 0 <= k < desired ==> r[k] == if k < |stretched| then stretched[k] else 0.0
  {
    if |stretched| > desired then stretched[..desired]
    else if |stretched| < desired then stretched + seq(desired - |stretched|, _ => 0.0)
    else stretched
  }

  /** time_stretch_to_duration: the input is returned unchanged when the target is not positive, when there are no
      samples or when their duration rounds to zero; otherwise the stretched signal is cut or padded with silence to
      exactly DesiredSamples(target) samples. */
  function TimeStretchToDuration(data: Samples, sampleRate: int, targetMs: int, stretch: Stretch)
    : (r: Result<Samples>)
    ensures targetMs <= 0 || data == [] ==> r == Ok(data)
    ensures targetMs > 0 && data != [] && sampleRate == 0 ==> r == Err(DivisionByZero)
    ensures targetMs > 0 && data != [] && DurationMs(data, sampleRate) == Ok(0) ==> r == Ok(data)
    ensures targetMs > 0 && data != [] && DurationMs(data, sampleRate).Ok? && DurationMs(data, sampleRate).value != 0
            ==> var stretched := stretch(data, DurationMs(data, sampleRate).value as real / targetMs as real);
                && r.Ok?
                && |r.value| == DesiredSamples(targetMs, sampleRate)
                && forall k :: 0 <= k < |r.value| ==>
                     r.value[k] == if k < |stretched| then stretched[k] else 0.0
  {
    if targetMs <= 0 || |data| == 0 then Ok(data)
    else
      var current :- DurationMs(data, sampleRate);
      if current == 0 then Ok(data)
      else
        var desired := Max(RoundHalfEven(targetMs * sampleRate, 1000), 1);
        var rate := current as real / targetMs as real;
        Ok(FitLength(stretch(data, rate), desired))
  }

  /** Locked-mode duration preservation: above 1000 Hz, audio stretched to a positive target duration measures
      exactly that duration again. */
  lemma LockedDurationExact(data: Samples, sampleRate: int, targetMs: int, stretch: Stretch)
    requires sampleRate > 1000 && targetMs > 0 && data != []
    requires DurationMs(data, sampleRate).value != 0
    ensures TimeStretchToDuration(data, sampleRate, targetMs, stretch).Ok?
    ensures DurationMs(TimeStretchToDuration(data, sampleRate, targetMs, stretch).value, sampleRate) == Ok(targetMs)
  {
    var s := RoundHalfEven(targetMs * sampleRate, 1000);
    MulSign(targetMs, sampleRate);
    MulSign(s, 1000);
    assert s >= 1;
    var out := TimeStretchToDuration(data, sampleRate, targetMs, stretch).value;
    assert |out| == s;
    RoundNearest(s * 1000, sampleRate, targetMs);
  }
}
