/**
 * Destination sample buffers: one array of samples per channel, as in
 * `float**` / `int**` channel-pointer arrays. Sample values are opaque; the
 * only value this model writes is silence.
 */
module SampleBuffers {

  type Sample = real

  const Silence: Sample := 0.0

  /** The arrays of the first `n` channels that are present. */
  function ChannelArrays(dest: seq<array?<Sample>>, n: int): set<array<Sample>>
    requires n <= |dest|
  {
    set c | 0 <= c < n && dest[c] != null :: dest[c]
  }

  /** FloatVectorOperations::clear(a + start, n) */
  method ClearRange(a: array<Sample>, start: int, n: int)
    requires 0 <= start && 0 <= n && start + n <= a.Length
    modifies a
    ensures forall k :: start <= k < start + n ==> a[k] == Silence
    ensures forall k :: 0 <= k < a.Length && !(start <= k < start + n) ==> a[k] == old(a[k])
  {
    forall k | start <= k < start + n {
      a[k] := Silence;
    }
  }

  /**
   * The silencing loop `for (c = 0; c < numChannels; ++c) clear(dest[c] + start, numSamples)`.
   * Two channels may share one array; every requested span ends up silent and
   * no other sample changes.
   */
  method ClearChannels(dest: seq<array?<Sample>>, numChannels: int, start: int, numSamples: int)
    requires 0 <= numChannels <= |dest| && 0 <= start && 0 <= numSamples
    requires forall c :: 0 <= c < numChannels ==> dest[c] != null && start + numSamples <= dest[c].Length
    modifies ChannelArrays(dest, numChannels)
    ensures forall c, k :: 0 <= c < numChannels && start <= k < start + numSamples ==> dest[c][k] == Silence
    ensures forall c, k :: 0 <= c < numChannels && 0 <= k < dest[c].Length && !(start <= k < start + numSamples)
              ==> dest[c][k] == old(dest[c][k])
  {
    var c := 0;
    while c < numChannels
      invariant 0 <= c <= numChannels
      invariant forall c', k :: 0 <= c' < c && start <= k < start + numSamples ==> dest[c'][k] == Silence
      invariant forall c', k :: 0 <= c' < numChannels && 0 <= k < dest[c'].Length && !(start <= k < start + numSamples)
                  ==> dest[c'][k] == old(dest[c'][k])
    {
      ClearRange(dest[c], start, numSamples);
      c := c + 1;
    }
  }

  /**
   * Like ClearChannels, but a channel whose pointer is null is skipped
   * (a reader's destination may omit channels).
   */
  method ClearPresentChannels(dest: seq<array?<Sample>>, numChannels: int, start: int, numSamples: int)
    requires 0 <= numChannels <= |dest| && 0 <= start && 0 <= numSamples
    requires forall c :: 0 <= c < numChannels && dest[c] != null ==> start + numSamples <= dest[c].Length
    modifies ChannelArrays(dest, numChannels)
    ensures forall c, k :: 0 <= c < numChannels && dest[c] != null && start <= k < start + numSamples ==> dest[c][k] == Silence
    ensures forall c, k :: 0 <= c < numChannels && dest[c] != null && 0 <= k < dest[c].Length && !(start <= k < start + numSamples)
              ==> dest[c][k] == old(dest[c][k])
  {
    var c := 0;
    while c < numChannels
      invariant 0 <= c <= numChannels
      invariant forall c', k :: 0 <= c' < c && dest[c'] != null && start <= k < start + numSamples ==> dest[c'][k] == Silence
      invariant forall c', k :: 0 <= c' < numChannels && dest[c'] != null && 0 <= k < dest[c'].Length && !(start <= k < start + numSamples)
                  ==> dest[c'][k] == old(dest[c'][k])
    {
      if dest[c] != null {
        ClearRange(dest[c], start, numSamples);
      }
      c := c + 1;
    }
  }
}
