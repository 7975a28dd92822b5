/**
 * AudioFormatReaders over ARA model objects: one that reads an audio source
 * through the host's audio reader, guarded by a read/write lock that the
 * document-controller thread takes while the source changes; and two that
 * render playback regions (a given set, or the regions of a sequence) through
 * a playback renderer.
 */
module AudioReaders {
  import opened ContentScopes
  import opened ListenerLists
  import opened ReadWriteLocks
  import opened SampleBuffers
  import opened ModelObjects
  import opened InstanceRoles
  import opened RegionFormats

  /** An ARA host audio reader, created for one audio source. */
  datatype HostAudioReader = HostAudioReader(audioSource: AudioSource)

  /** The reader's unique_ptr to its host audio reader. */
  datatype ReaderHandle = NoReader | Reader(host: HostAudioReader)

  /** Where the host writes one source channel: a destination channel at an offset, or the dummy buffer. */
  datatype ChannelPointer = Unset | IntoDestination(buffer: array<Sample>, offset: int) | IntoDummyBuffer

  /**
   * The host's readAudioSamples(startSample, numSamples, channelPointers):
   * whether the host read succeeded. The samples it writes are not modelled.
   */
  type HostRead = (HostAudioReader, int, int, seq<ChannelPointer>) -> bool

  /** Whether one of the first `count` source channels has no destination channel to go to. */
  function AnyChannelMissing(dest: seq<array?<Sample>>, numDestChannels: int, count: nat): bool
    requires numDestChannels <= |dest|
  {
    if count == 0 then false
    else AnyChannelMissing(dest, numDestChannels, count - 1) || !(count - 1 < numDestChannels && dest[count - 1] != null)
  }

  class AudioSourceReader {
    var bitsPerSample: nat
    var usesFloatingPointData: bool
    var sampleRate: real
    var numChannels: nat
    var lengthInSamples: int
    var tmpPtrs: seq<ChannelPointer>
    const lock: ReadWriteLock
    var dummyBuffer: seq<Sample>
    var audioSourceBeingRead: AudioSource?
    var araHostReader: ReaderHandle

    /**
     * Copies the source's format, sizes the channel-pointer table to its
     * channel count, listens to the source, and creates a host reader only if
     * the source's sample access is enabled.
     */
    constructor (source: AudioSource, use64BitSamples: bool)
      modifies source`listeners
      ensures bitsPerSample == (if use64BitSamples then 64 else 32) && usesFloatingPointData
      ensures sampleRate == source.sampleRate && numChannels == source.channelCount && lengthInSamples == source.sampleCount
      ensures |tmpPtrs| == numChannels && dummyBuffer == []
      ensures audioSourceBeingRead == source
      ensures source.listeners == AddIfAbsent(old(source.listeners), this)
      ensures araHostReader == (if source.sampleAccessEnabled then Reader(HostAudioReader(source)) else NoReader)
      ensures fresh(lock) && lock.writeDepth == 0 && lock.readers == 0
    {
      bitsPerSample := if use64BitSamples then 64 else 32;
      usesFloatingPointData := true;
      sampleRate := source.sampleRate;
      numChannels := source.channelCount;
      lengthInSamples := source.sampleCount;
      tmpPtrs := seq(source.channelCount, _ => Unset);
      lock := new ReadWriteLock();
      dummyBuffer := [];
      audioSourceBeingRead := source;
      araHostReader := NoReader;
      new;
      source.AddListener(this);
      if source.sampleAccessEnabled {
        Recreate();
      }
    }

    /**
     * The destructor: stops listening to the source it reads, then drops the
     * host reader under the write lock. It dereferences the source pointer,
     * which WillDestroyAudioSource may have set to null (see DestroyCorrected).
     */
    method Destroy()
      requires audioSourceBeingRead != null
      modifies audioSourceBeingRead`listeners, this`araHostReader, lock
      ensures old(audioSourceBeingRead).listeners == RemoveFirst(old(audioSourceBeingRead.listeners), this)
      ensures araHostReader == NoReader
      ensures lock.writeDepth == old(lock.writeDepth) && lock.readers == old(lock.readers)
    {
      audioSourceBeingRead.RemoveListener(this);
      lock.EnterWrite();
      Invalidate();
      lock.ExitWrite();
    }

    /** The destructor with the null check it needs once the source has gone. */
    method DestroyCorrected()
      modifies (if audioSourceBeingRead == null then {} else {audioSourceBeingRead})`listeners, this`araHostReader, lock
      ensures old(audioSourceBeingRead) != null ==>
                old(audioSourceBeingRead).listeners == RemoveFirst(old(audioSourceBeingRead.listeners), this)
      ensures araHostReader == NoReader
      ensures lock.writeDepth == old(lock.writeDepth) && lock.readers == old(lock.readers)
    {
      if audioSourceBeingRead != null {
        audioSourceBeingRead.RemoveListener(this);
      }
      lock.EnterWrite();
      Invalidate();
      lock.ExitWrite();
    }

    /** Sample access is about to change: take the write lock (held until the "did" hook) and drop the reader on disable. */
    method WillEnableAudioSourceSamplesAccess(audioSource: AudioSource, enable: bool)
      modifies this`araHostReader, lock
      ensures audioSource != audioSourceBeingRead ==>
                araHostReader == old(araHostReader) && lock.writeDepth == old(lock.writeDepth)
      ensures audioSource == audioSourceBeingRead ==>
                araHostReader == (if enable then old(araHostReader) else NoReader)
                && lock.writeDepth == old(lock.writeDepth) + 1
      ensures lock.readers == old(lock.readers)
    {
      if audioSource != audioSourceBeingRead {
        return;
      }
      lock.EnterWrite();
      if enable == false {
        Invalidate();
      }
    }

    /** Sample access has changed: recreate the reader on enable and release the write lock. */
    method DidEnableAudioSourceSamplesAccess(audioSource: AudioSource, enable: bool)
      requires audioSource == audioSourceBeingRead ==> lock.writeDepth > 0
      modifies this`araHostReader, lock
      ensures audioSource != audioSourceBeingRead ==>
                araHostReader == old(araHostReader) && lock.writeDepth == old(lock.writeDepth)
      ensures audioSource == audioSourceBeingRead ==>
                araHostReader == (if enable then Reader(HostAudioReader(audioSource)) else old(araHostReader))
                && lock.writeDepth == old(lock.writeDepth) - 1
      ensures lock.readers == old(lock.readers)
    {
      if audioSource != audioSourceBeingRead {
        return;
      }
      if enable {
        Recreate();
      }
      lock.ExitWrite();
    }

    /** The source is going away: drop the reader and forget the source, under the write lock. */
    method WillDestroyAudioSource(audioSource: AudioSource)
      modifies this`araHostReader, this`audioSourceBeingRead, lock
      ensures audioSource != old(audioSourceBeingRead) ==>
                araHostReader == old(araHostReader) && audioSourceBeingRead == old(audioSourceBeingRead)
      ensures audioSource == old(audioSourceBeingRead) ==> araHostReader == NoReader && audioSourceBeingRead == null
      ensures lock.writeDepth == old(lock.writeDepth) && lock.readers == old(lock.readers)
    {
      if audioSource != audioSourceBeingRead {
        return;
      }
      lock.EnterWrite();
      Invalidate();
      audioSourceBeingRead := null;
      lock.ExitWrite();
    }

    /** A content update drops the reader only when it is for this source and affects samples. */
    method DoUpdateAudioSourceContent(audioSource: AudioSource, range: ContentRange, scopeFlags: Scopes)
      modifies this`araHostReader, lock
      ensures araHostReader == (if audioSource == audioSourceBeingRead && AffectSamples(scopeFlags) then NoReader else old(araHostReader))
      ensures lock.writeDepth == old(lock.writeDepth) && lock.readers == old(lock.readers)
    {
      if audioSource != audioSourceBeingRead {
        return;
      }
      if !AffectSamples(scopeFlags) {
        return;
      }
      lock.EnterWrite();
      Invalidate();
      lock.ExitWrite();
    }

    method Recreate()
      requires audioSourceBeingRead != null
      modifies this`araHostReader
      ensures araHostReader == Reader(HostAudioReader(audioSourceBeingRead))
    {
      araHostReader := Reader(HostAudioReader(audioSourceBeingRead));
    }

    method Invalidate()
      modifies this`araHostReader
      ensures araHostReader == NoReader
    {
      araHostReader := NoReader;
    }

    /**
     * After a read that reaches the host: channel c of the source goes to
     * destination channel c at the offset when the caller gave that channel,
     * and to the dummy buffer otherwise; the dummy buffer has grown to
     * `numSamples` if any channel uses it.
     */
    predicate ChannelsMapped(dest: seq<array?<Sample>>, numDestChannels: int, startOffsetInDestBuffer: int,
                             numSamples: int, channelCount: nat, dummySizeBefore: nat)
      requires numDestChannels <= |dest|
      reads this
    {
      && |tmpPtrs| == channelCount
      && (forall c :: 0 <= c < channelCount ==>
            tmpPtrs[c] == (if c < numDestChannels && dest[c] != null
                           then IntoDestination(dest[c], startOffsetInDestBuffer) else IntoDummyBuffer))
      && |dummyBuffer| == (if AnyChannelMissing(dest, numDestChannels, channelCount)
                           then MaxInt(dummySizeBefore, numSamples) else dummySizeBefore)
    }

    method MapChannels(dest: seq<array?<Sample>>, numDestChannels: int, startOffsetInDestBuffer: int, numSamples: int)
      requires 0 <= numDestChannels <= |dest|
      modifies this`tmpPtrs, this`dummyBuffer
      ensures ChannelsMapped(dest, numDestChannels, startOffsetInDestBuffer, numSamples, |old(tmpPtrs)|, |old(dummyBuffer)|)
    {
      ghost var usedDummy := false;
      for c := 0 to |tmpPtrs|
        invariant |tmpPtrs| == |old(tmpPtrs)|
        invariant forall c' :: 0 <= c' < c ==>
                    tmpPtrs[c'] == (if c' < numDestChannels && dest[c'] != null
                                    then IntoDestination(dest[c'], startOffsetInDestBuffer) else IntoDummyBuffer)
        invariant usedDummy == AnyChannelMissing(dest, numDestChannels, c)
        invariant |dummyBuffer| == if usedDummy then MaxInt(|old(dummyBuffer)|, numSamples) else |old(dummyBuffer)|
      {
        if c < numDestChannels && dest[c] != null {
          tmpPtrs := tmpPtrs[c := IntoDestination(dest[c], startOffsetInDestBuffer)];
        } else {
          if numSamples > |dummyBuffer| {
            dummyBuffer := dummyBuffer + seq(numSamples - |dummyBuffer|, _ => Silence);
          }
          tmpPtrs := tmpPtrs[c := IntoDummyBuffer];
          usedDummy := true;
        }
      }
    }

    /**
     * readSamples as written. When the read lock cannot be taken, or there is
     * no host reader, the first `numSamples` samples of each destination
     * channel are zeroed and the result is false; when the lock was taken but
     * there is no host reader, the read stays held (it is never released).
     * Otherwise the channel pointers are mapped, the host reads, and the lock
     * is released.
     */
    method ReadSamples(dest: seq<array?<Sample>>, numDestChannels: int, startOffsetInDestBuffer: int,
                       startSampleInFile: int, numSamples: int, readAudioSamples: HostRead) returns (success: bool)
      requires 0 <= numDestChannels <= |dest| && 0 <= numSamples
      requires lock.WriterHolds() || araHostReader == NoReader ==>
                 forall c :: 0 <= c < numDestChannels ==> dest[c] != null && numSamples <= dest[c].Length
      modifies lock, this`tmpPtrs, this`dummyBuffer, ChannelArrays(dest, numDestChannels)
      ensures lock.writeDepth == old(lock.writeDepth)
      ensures old(lock.WriterHolds()) || old(araHostReader) == NoReader ==>
                && !success
                && (forall c, k :: 0 <= c < numDestChannels && 0 <= k < numSamples ==> dest[c][k] == Silence)
                && (forall c, k :: 0 <= c < numDestChannels && numSamples <= k < dest[c].Length ==> dest[c][k] == old(dest[c][k]))
                && tmpPtrs == old(tmpPtrs) && dummyBuffer == old(dummyBuffer)
                && lock.readers == old(lock.readers) + (if old(lock.WriterHolds()) then 0 else 1)
      ensures !old(lock.WriterHolds()) && old(araHostReader) != NoReader ==>
                && ChannelsMapped(dest, numDestChannels, startOffsetInDestBuffer, numSamples, |old(tmpPtrs)|, |old(dummyBuffer)|)
                && success == readAudioSamples(araHostReader.host, startSampleInFile, numSamples, tmpPtrs)
                && lock.readers == old(lock.readers)
    {
      var entered := lock.TryEnterRead();
      if !entered || araHostReader == NoReader {
        ClearChannels(dest, numDestChannels, 0, numSamples);
        return false;
      }
      MapChannels(dest, numDestChannels, startOffsetInDestBuffer, numSamples);
      success := readAudioSamples(araHostReader.host, startSampleInFile, numSamples, tmpPtrs);
      lock.ExitRead();
    }

    /**
     * readSamples as evidently intended: every read taken is released, and a
     * failed read zeroes exactly the requested span
     * [startOffsetInDestBuffer, startOffsetInDestBuffer + numSamples) of each
     * destination channel the caller gave.
     */
    method ReadSamplesCorrected(dest: seq<array?<Sample>>, numDestChannels: int, startOffsetInDestBuffer: int,
                                startSampleInFile: int, numSamples: int, readAudioSamples: HostRead) returns (success: bool)
      requires 0 <= numDestChannels <= |dest| && 0 <= numSamples && 0 <= startOffsetInDestBuffer
      requires forall c :: 0 <= c < numDestChannels && dest[c] != null ==> startOffsetInDestBuffer + numSamples <= dest[c].Length
      modifies lock, this`tmpPtrs, this`dummyBuffer, ChannelArrays(dest, numDestChannels)
      ensures lock.writeDepth == old(lock.writeDepth) && lock.readers == old(lock.readers)
      ensures old(lock.WriterHolds()) || old(araHostReader) == NoReader ==>
                && !success
                && (forall c, k :: (0 <= c < numDestChannels && dest[c] != null
                      && startOffsetInDestBuffer <= k < startOffsetInDestBuffer + numSamples) ==> dest[c][k] == Silence)
                && (forall c, k :: (0 <= c < numDestChannels && dest[c] != null && 0 <= k < dest[c].Length
                      && !(startOffsetInDestBuffer <= k < startOffsetInDestBuffer + numSamples)) ==> dest[c][k] == old(dest[c][k]))
                && tmpPtrs == old(tmpPtrs) && dummyBuffer == old(dummyBuffer)
      ensures !old(lock.WriterHolds()) && old(araHostReader) != NoReader ==>
                && ChannelsMapped(dest, numDestChannels, startOffsetInDestBuffer, numSamples, |old(tmpPtrs)|, |old(dummyBuffer)|)
                && success == readAudioSamples(araHostReader.host, startSampleInFile, numSamples, tmpPtrs)
    {
      var entered := lock.TryEnterRead();
      if !entered || araHostReader == NoReader {
        if entered {
          lock.ExitRead();
        }
        ClearPresentChannels(dest, numDestChannels, startOffsetInDestBuffer, numSamples);
        return false;
      }
      MapChannels(dest, numDestChannels, startOffsetInDestBuffer, numSamples);
      success := readAudioSamples(araHostReader.host, startSampleInFile, numSamples, tmpPtrs);
      lock.ExitRead();
    }
  }

  /** The ARA SDK's conversion of a time (seconds) at a sample rate to a sample position. */
  type SamplePosition = (real, real) -> int

  /** What the playback-region reader's constructor reads from one region and its audio source. */
  function RegionFormatOf(region: PlaybackRegion, samplePosition: SamplePosition): RegionFormat
    reads region`startInPlaybackTime, region`durationInPlaybackTime
    reads region.audioModification.audioSource`sampleRate, region.audioModification.audioSource`channelCount
  {
    var source := region.audioModification.audioSource;
    RegionFormat(source.sampleRate, source.channelCount,
                 samplePosition(region.startInPlaybackTime + region.durationInPlaybackTime, source.sampleRate))
  }

  function RegionFormatsOf(regions: seq<PlaybackRegion>, samplePosition: SamplePosition): (fs: seq<RegionFormat>)
    reads (set r | r in regions :: r)`startInPlaybackTime, (set r | r in regions :: r)`durationInPlaybackTime
    reads (set r | r in regions :: r.audioModification.audioSource)`sampleRate
    reads (set r | r in regions :: r.audioModification.audioSource)`channelCount
    ensures |fs| == |regions| && forall i :: 0 <= i < |regions| ==> fs[i] == RegionFormatOf(regions[i], samplePosition)
    decreases |regions|
  {
    if regions == [] then []
    else
      assert regions[0] in regions;
      assert forall r :: r in regions[1..] ==> r in regions;
      [RegionFormatOf(regions[0], samplePosition)] + RegionFormatsOf(regions[1..], samplePosition)
  }

  /**
   * Renders a list of playback regions through a playback renderer; its
   * format is derived from the regions it keeps.
   */
  class PlaybackRegionReader {
    var bitsPerSample: nat
    var usesFloatingPointData: bool
    var sampleRate: real
    var numChannels: nat
    var lengthInSamples: int
    const playbackRenderer: PlaybackRenderer
    const lock: ReadWriteLock
    /** What the constructor read from the given regions and their sources. */
    ghost const formats: seq<RegionFormat>

    function Format(): ReaderFormat
      reads this
    {
      ReaderFormat(sampleRate, numChannels, lengthInSamples)
    }

    /**
     * Visits the regions in order: the first source sample rate becomes the
     * reader's, regions whose source rate differs are skipped, and each kept
     * region widens channel count and length and is added to the renderer.
     */
    constructor (playbackRenderer: PlaybackRenderer, playbackRegions: seq<PlaybackRegion>, samplePosition: SamplePosition)
      modifies playbackRenderer`playbackRegions
      ensures this.playbackRenderer == playbackRenderer
      ensures bitsPerSample == 32 && usesFloatingPointData
      ensures |formats| == |playbackRegions|
      ensures forall i :: 0 <= i < |formats| ==> formats[i] == old(RegionFormatOf(playbackRegions[i], samplePosition))
      ensures Format() == FormatAfter(formats)
      ensures playbackRenderer.playbackRegions == old(playbackRenderer.playbackRegions) + KeptItems(playbackRegions, formats)
      ensures fresh(lock) && lock.writeDepth == 0 && lock.readers == 0
    {
      lock := new ReadWriteLock();
      ghost var fs := RegionFormatsOf(playbackRegions, samplePosition);
      var format := VisitAll(playbackRenderer, playbackRegions, samplePosition, fs);
      formats := fs;
      bitsPerSample := 32;
      usesFloatingPointData := true;
      sampleRate := format.sampleRate;
      numChannels := format.numChannels;
      lengthInSamples := format.lengthInSamples;
      this.playbackRenderer := playbackRenderer;
    }

    /** The constructor given no regions: the zero format, and the renderer untouched. */
    constructor WithoutRegions(playbackRenderer: PlaybackRenderer)
      ensures this.playbackRenderer == playbackRenderer
      ensures bitsPerSample == 32 && usesFloatingPointData && Format() == NoFormat
      ensures fresh(lock) && lock.writeDepth == 0 && lock.readers == 0
    {
      bitsPerSample := 32;
      usesFloatingPointData := true;
      numChannels := 0;
      lengthInSamples := 0;
      sampleRate := 0.0;
      this.playbackRenderer := playbackRenderer;
      lock := new ReadWriteLock();
      formats := [];
    }

    /**
     * The constructor's loop, from the zero format: the format fields it
     * leaves are returned, the kept regions are added to the renderer.
     */
    static method VisitAll(renderer: PlaybackRenderer, playbackRegions: seq<PlaybackRegion>, samplePosition: SamplePosition,
                           ghost fs: seq<RegionFormat>) returns (format: ReaderFormat)
      requires |fs| == |playbackRegions|
      requires forall i :: 0 <= i < |fs| ==> fs[i] == RegionFormatOf(playbackRegions[i], samplePosition)
      modifies renderer`playbackRegions
      ensures format == FormatAfter(fs)
      ensures renderer.playbackRegions == old(renderer.playbackRegions) + KeptItems(playbackRegions, fs)
    {
      format := NoFormat;
      ghost var kept := [];
      assert fs[..0] == [] && playbackRegions[..0] == [];
      for i := 0 to |playbackRegions|
        invariant format == FormatAfter(fs[..i])
        invariant kept == KeptItems(playbackRegions[..i], fs[..i])
        invariant renderer.playbackRegions == old(renderer.playbackRegions) + kept
      {
        VisitNext(playbackRegions, fs, i, format, kept);
        assert fs[i] == old(RegionFormatOf(playbackRegions[i], samplePosition));
        kept := kept + (if Keeps(format, fs[i]) then [playbackRegions[i]] else []);
        var keeps;
        format, keeps := Visit(renderer, format, playbackRegions[i], samplePosition, fs[i]);
      }
      assert playbackRegions[..|playbackRegions|] == playbackRegions && fs[..|playbackRegions|] == fs;
    }

    /**
     * One turn of the constructor's loop over the regions: adopt the source's
     * rate if none is set yet, skip the region if the rates differ, otherwise
     * widen channel count and length and add the region to the renderer.
     */
    static method Visit(renderer: PlaybackRenderer, format: ReaderFormat, region: PlaybackRegion, samplePosition: SamplePosition,
                        ghost f: RegionFormat) returns (format': ReaderFormat, kept: bool)
      requires f == RegionFormatOf(region, samplePosition)
      modifies renderer`playbackRegions
      ensures kept == Keeps(format, f) && format' == Step(format, f)
      ensures renderer.playbackRegions == old(renderer.playbackRegions) + (if kept then [region] else [])
    {
      var source := region.audioModification.audioSource;
      var sampleRate := format.sampleRate;
      if sampleRate == 0.0 {
        sampleRate := source.sampleRate;
      }
      if sampleRate != source.sampleRate {
        return format, false;
      }
      kept := true;
      format' := ReaderFormat(sampleRate, MaxNat(format.numChannels, source.channelCount),
                              MaxInt(format.lengthInSamples, samplePosition(region.startInPlaybackTime + region.durationInPlaybackTime, sampleRate)));
      renderer.AddPlaybackRegion(region);
    }

    /** One turn of the constructor's loop on this reader's own format fields. */
    method VisitRegion(region: PlaybackRegion, samplePosition: SamplePosition, ghost f: RegionFormat) returns (kept: bool)
      requires f == RegionFormatOf(region, samplePosition)
      modifies this`sampleRate, this`numChannels, this`lengthInSamples, playbackRenderer`playbackRegions
      ensures kept == Keeps(old(Format()), f) && Format() == Step(old(Format()), f)
      ensures playbackRenderer.playbackRegions == old(playbackRenderer.playbackRegions) + (if kept then [region] else [])
    {
      var format;
      format, kept := Visit(playbackRenderer, Format(), region, samplePosition, f);
      sampleRate, numChannels, lengthInSamples := format.sampleRate, format.numChannels, format.lengthInSamples;
    }

    /**
     * readSamples as written: when the read lock cannot be taken the first
     * `numSamples` samples of each destination channel are zeroed and the
     * result is false; otherwise the renderer renders the span and the result
     * is true. The read lock is released on every path.
     */
    method ReadSamples(dest: seq<array?<Sample>>, numDestChannels: int, startOffsetInDestBuffer: int,
                       startSampleInFile: int, numSamples: int) returns (success: bool)
      requires 0 <= numDestChannels <= |dest| && 0 <= numSamples
      requires lock.WriterHolds() ==>
                 forall c :: 0 <= c < numDestChannels ==> dest[c] != null && numSamples <= dest[c].Length
      modifies lock, ChannelArrays(dest, numDestChannels)
      ensures success <==> !old(lock.WriterHolds())
      ensures lock.writeDepth == old(lock.writeDepth) && lock.readers == old(lock.readers)
      ensures !success ==>
                && (forall c, k :: 0 <= c < numDestChannels && 0 <= k < numSamples ==> dest[c][k] == Silence)
                && (forall c, k :: 0 <= c < numDestChannels && numSamples <= k < dest[c].Length ==> dest[c][k] == old(dest[c][k]))
    {
      var entered := lock.TryEnterRead();
      if !entered {
        ClearChannels(dest, numDestChannels, 0, numSamples);
        return false;
      }
      lock.ExitRead();
      return true;
    }

    /** readSamples as evidently intended: a failed read zeroes exactly the requested span of each channel given. */
    method ReadSamplesCorrected(dest: seq<array?<Sample>>, numDestChannels: int, startOffsetInDestBuffer: int,
                                startSampleInFile: int, numSamples: int) returns (success: bool)
      requires 0 <= numDestChannels <= |dest| && 0 <= numSamples && 0 <= startOffsetInDestBuffer
      requires forall c :: 0 <= c < numDestChannels && dest[c] != null ==> startOffsetInDestBuffer + numSamples <= dest[c].Length
      modifies lock, ChannelArrays(dest, numDestChannels)
      ensures success <==> !old(lock.WriterHolds())
      ensures lock.writeDepth == old(lock.writeDepth) && lock.readers == old(lock.readers)
      ensures !success ==>
                && (forall c, k :: (0 <= c < numDestChannels && dest[c] != null
                      && startOffsetInDestBuffer <= k < startOffsetInDestBuffer + numSamples) ==> dest[c][k] == Silence)
                && (forall c, k :: (0 <= c < numDestChannels && dest[c] != null && 0 <= k < dest[c].Length
                      && !(startOffsetInDestBuffer <= k < startOffsetInDestBuffer + numSamples)) ==> dest[c][k] == old(dest[c][k]))
    {
      var entered := lock.TryEnterRead();
      if !entered {
        ClearPresentChannels(dest, numDestChannels, startOffsetInDestBuffer, numSamples);
        return false;
      }
      lock.ExitRead();
      return true;
    }
  }

  /**
   * Renders the playback regions of one region sequence and follows the
   * sequence: it listens to each region it renders, and adds or drops
   * regions as they move into or out of the sequence or are destroyed. The
   * playback-region reader it extends is `base`.
   */
  class RegionSequenceReader {
    const base: PlaybackRegionReader
    const sequence: RegionSequence
    /** What the constructor read from the sequence's regions and their sources. */
    ghost const formats: seq<RegionFormat>

    /** Every region the renderer plays has this reader among its listeners. */
    predicate ListensToRenderedRegions()
      reads base.playbackRenderer, (set r | r in base.playbackRenderer.playbackRegions :: r)`listeners
    {
      forall r :: r in base.playbackRenderer.playbackRegions ==> this in r.listeners
    }

    /**
     * Starts as a playback-region reader with no regions, then runs the same
     * loop over the sequence's regions, also listening to each region it keeps.
     */
    constructor (playbackRenderer: PlaybackRenderer, regionSequence: RegionSequence, samplePosition: SamplePosition)
      modifies playbackRenderer`playbackRegions, (set r | r in regionSequence.playbackRegions :: r)`listeners
      ensures base.playbackRenderer == playbackRenderer && sequence == regionSequence
      ensures |formats| == |regionSequence.playbackRegions|
      ensures forall i :: 0 <= i < |formats| ==> formats[i] == old(RegionFormatOf(regionSequence.playbackRegions[i], samplePosition))
      ensures base.bitsPerSample == 32 && base.usesFloatingPointData
      ensures base.Format() == FormatAfter(formats)
      ensures playbackRenderer.playbackRegions == old(playbackRenderer.playbackRegions) + KeptItems(regionSequence.playbackRegions, formats)
      ensures forall r :: r in regionSequence.playbackRegions ==>
                r.listeners == if r in KeptItems(regionSequence.playbackRegions, formats) then AddIfAbsent(old(r.listeners), this) else old(r.listeners)
      ensures old(playbackRenderer.playbackRegions) == [] ==> ListensToRenderedRegions()
      ensures fresh(base) && fresh(base.lock) && base.lock.writeDepth == 0 && base.lock.readers == 0
    {
      var regions := regionSequence.playbackRegions;
      formats := RegionFormatsOf(regions, samplePosition);
      base := new PlaybackRegionReader.WithoutRegions(playbackRenderer);
      sequence := regionSequence;
      new;
      FollowAll(regions, samplePosition, formats);
    }

    /** The constructor's loop over the sequence's regions, starting from the zero format. */
    method FollowAll(regions: seq<PlaybackRegion>, samplePosition: SamplePosition, ghost fs: seq<RegionFormat>)
      requires base.Format() == NoFormat && |fs| == |regions|
      requires forall i :: 0 <= i < |fs| ==> fs[i] == RegionFormatOf(regions[i], samplePosition)
      modifies base`sampleRate, base`numChannels, base`lengthInSamples, base.playbackRenderer`playbackRegions
      modifies (set r | r in regions :: r)`listeners
      ensures base.Format() == FormatAfter(fs)
      ensures base.playbackRenderer.playbackRegions == old(base.playbackRenderer.playbackRegions) + KeptItems(regions, fs)
      ensures forall r :: r in regions ==>
                r.listeners == if r in KeptItems(regions, fs) then AddIfAbsent(old(r.listeners), this) else old(r.listeners)
      ensures old(base.playbackRenderer.playbackRegions) == [] ==> ListensToRenderedRegions()
    {
      var renderer := base.playbackRenderer;
      ghost var kept := [];
      ghost var before := map r | r in regions :: r.listeners;
      assert fs[..0] == [] && regions[..0] == [];
      for i := 0 to |regions|
        invariant base.Format() == FormatAfter(fs[..i])
        invariant kept == KeptItems(regions[..i], fs[..i])
        invariant renderer.playbackRegions == old(renderer.playbackRegions) + kept
        invariant forall r :: r in before ==> r.listeners == if r in kept then AddIfAbsent(before[r], this) else before[r]
      {
        assert fs[i] == old(RegionFormatOf(regions[i], samplePosition));
        assert regions[i] in regions;
        kept := FollowNext(regions[i], regions, samplePosition, fs, i, old(renderer.playbackRegions), kept, before);
      }
      assert regions[..|regions|] == regions && fs[..|regions|] == fs;
      if old(renderer.playbackRegions) == [] {
        forall r | r in renderer.playbackRegions
          ensures this in r.listeners
        {
          assert r in kept && r in regions && r in before;
        }
      }
    }

    /**
     * One turn of the constructor's loop: the base reader's turn on region
     * `i`, and listening to that region when it is kept.
     */
    method FollowNext(region: PlaybackRegion, regions: seq<PlaybackRegion>, samplePosition: SamplePosition, ghost fs: seq<RegionFormat>, i: nat,
                      ghost start: seq<PlaybackRegion>, ghost kept: seq<PlaybackRegion>, ghost before: map<PlaybackRegion, seq<object>>)
      returns (ghost kept': seq<PlaybackRegion>)
      requires i < |regions| == |fs| && region == regions[i] && fs[i] == RegionFormatOf(region, samplePosition)
      requires base.Format() == FormatAfter(fs[..i]) && kept == KeptItems(regions[..i], fs[..i])
      requires base.playbackRenderer.playbackRegions == start + kept
      requires region in before
      requires forall r :: r in before ==> r.listeners == if r in kept then AddIfAbsent(before[r], this) else before[r]
      modifies base`sampleRate, base`numChannels, base`lengthInSamples, base.playbackRenderer`playbackRegions, region`listeners
      ensures base.Format() == FormatAfter(fs[..i + 1]) && kept' == KeptItems(regions[..i + 1], fs[..i + 1])
      ensures base.playbackRenderer.playbackRegions == start + kept'
      ensures forall r :: r in before ==> r.listeners == if r in kept' then AddIfAbsent(before[r], this) else before[r]
    {
      VisitNext(regions, fs, i, base.Format(), kept);
      var keeps := base.VisitRegion(region, samplePosition, fs[i]);
      if keeps {
        region.AddListener(this);
      }
      kept' := kept + (if keeps then [region] else []);
    }

    /**
     * A region's properties are about to change: a rendered region that
     * leaves the sequence is dropped (and no longer listened to), a region
     * that is not rendered and joins the sequence is added (and listened to),
     * each under the write lock.
     */
    method WillUpdatePlaybackRegionProperties(playbackRegion: PlaybackRegion, newProperties: PlaybackRegionProperties)
      modifies base.playbackRenderer`playbackRegions, playbackRegion`listeners, base.lock
      ensures var rendered := playbackRegion in old(base.playbackRenderer.playbackRegions);
              var joins := newProperties.regionSequence == sequence;
              && base.playbackRenderer.playbackRegions
                   == (if rendered && !joins then RemoveFirst(old(base.playbackRenderer.playbackRegions), playbackRegion)
                       else if !rendered && joins then old(base.playbackRenderer.playbackRegions) + [playbackRegion]
                       else old(base.playbackRenderer.playbackRegions))
              && playbackRegion.listeners
                   == (if rendered && !joins then RemoveFirst(old(playbackRegion.listeners), this)
                       else if !rendered && joins then AddIfAbsent(old(playbackRegion.listeners), this)
                       else old(playbackRegion.listeners))
      ensures base.lock.writeDepth == old(base.lock.writeDepth) && base.lock.readers == old(base.lock.readers)
      ensures NoDuplicates(old(base.playbackRenderer.playbackRegions)) ==>
                && NoDuplicates(base.playbackRenderer.playbackRegions)
                && (playbackRegion in base.playbackRenderer.playbackRegions <==> newProperties.regionSequence == sequence)
    {
      var renderer := base.playbackRenderer;
      if playbackRegion in renderer.playbackRegions {
        if newProperties.regionSequence != sequence {
          base.lock.EnterWrite();
          playbackRegion.RemoveListener(this);
          renderer.RemovePlaybackRegion(playbackRegion);
          base.lock.ExitWrite();
        }
      } else if newProperties.regionSequence == sequence {
        base.lock.EnterWrite();
        playbackRegion.AddListener(this);
        assert renderer.playbackRegions + [playbackRegion] == AddIfAbsent(renderer.playbackRegions, playbackRegion);
        renderer.AddPlaybackRegion(playbackRegion);
        base.lock.ExitWrite();
      }
    }

    /** A rendered region that is about to be destroyed is dropped and no longer listened to, under the write lock. */
    method WillDestroyPlaybackRegion(playbackRegion: PlaybackRegion)
      modifies base.playbackRenderer`playbackRegions, playbackRegion`listeners, base.lock
      ensures base.playbackRenderer.playbackRegions == RemoveFirst(old(base.playbackRenderer.playbackRegions), playbackRegion)
      ensures playbackRegion.listeners
                == if playbackRegion in old(base.playbackRenderer.playbackRegions)
                   then RemoveFirst(old(playbackRegion.listeners), this) else old(playbackRegion.listeners)
      ensures base.lock.writeDepth == old(base.lock.writeDepth) && base.lock.readers == old(base.lock.readers)
      ensures NoDuplicates(old(base.playbackRenderer.playbackRegions)) ==>
                NoDuplicates(base.playbackRenderer.playbackRegions) && playbackRegion !in base.playbackRenderer.playbackRegions
    {
      var renderer := base.playbackRenderer;
      if playbackRegion in renderer.playbackRegions {
        base.lock.EnterWrite();
        playbackRegion.RemoveListener(this);
        renderer.RemovePlaybackRegion(playbackRegion);
        base.lock.ExitWrite();
      }
    }
  }

  /**
   * The read-lock leak in AudioSourceReader.ReadSamples: with no host reader
   * and no writer holding the lock, a read of nothing leaves one more read
   * held than before, so a later EnterWrite by the controller thread would
   * wait for a reader that never leaves.
   */
  method ReadLockLeakAsWritten(reader: AudioSourceReader, readAudioSamples: HostRead)
    requires reader.araHostReader == NoReader && !reader.lock.WriterHolds()
    modifies reader.lock, reader`tmpPtrs, reader`dummyBuffer
    ensures reader.lock.readers == old(reader.lock.readers) + 1
  {
    var success := reader.ReadSamples([], 0, 0, 0, 0, readAudioSamples);
  }

  /** The same read through ReadSamplesCorrected leaves the lock as it was. */
  method ReadLockReleasedCorrected(reader: AudioSourceReader, readAudioSamples: HostRead)
    requires reader.araHostReader == NoReader && !reader.lock.WriterHolds()
    modifies reader.lock, reader`tmpPtrs, reader`dummyBuffer
    ensures reader.lock.readers == old(reader.lock.readers)
  {
    var success := reader.ReadSamplesCorrected([], 0, 0, 0, 0, readAudioSamples);
  }

  /**
   * A failed PlaybackRegionReader.ReadSamples of two samples at offset 2 into
   * a four-sample channel: the two samples before the requested span are
   * erased and the requested span keeps its old contents.
   */
  method ClearIgnoresOffsetAsWritten(reader: PlaybackRegionReader) returns (channel: array<Sample>)
    requires reader.lock.WriterHolds()
    modifies reader.lock
    ensures fresh(channel) && channel[..] == [Silence, Silence, 1.0, 1.0]
  {
    channel := new Sample[4](_ => 1.0);
    var dest := [channel];
    var success := reader.ReadSamples(dest, 1, 2, 0, 2);
    assert dest[0][0] == channel[0] && dest[0][1] == channel[1] && dest[0][2] == channel[2] && dest[0][3] == channel[3];
    assert channel[..] == [channel[0], channel[1], channel[2], channel[3]];
  }

  /** The same read through ReadSamplesCorrected silences exactly the requested span. */
  method ClearsRequestedSpanCorrected(reader: PlaybackRegionReader) returns (channel: array<Sample>)
    requires reader.lock.WriterHolds()
    modifies reader.lock
    ensures fresh(channel) && channel[..] == [1.0, 1.0, Silence, Silence]
  {
    channel := new Sample[4](_ => 1.0);
    var dest := [channel];
    var success := reader.ReadSamplesCorrected(dest, 1, 2, 0, 2);
    assert dest[0][0] == channel[0] && dest[0][1] == channel[1] && dest[0][2] == channel[2] && dest[0][3] == channel[3];
    assert channel[..] == [channel[0], channel[1], channel[2], channel[3]];
  }

  /**
   * The same failed read through AudioSourceReader.ReadSamples, while the
   * controller thread holds the write lock: again the span before the
   * requested one is erased.
   */
  method SourceClearIgnoresOffsetAsWritten(reader: AudioSourceReader, readAudioSamples: HostRead) returns (channel: array<Sample>)
    requires reader.lock.WriterHolds()
    modifies reader.lock, reader`tmpPtrs, reader`dummyBuffer
    ensures fresh(channel) && channel[..] == [Silence, Silence, 1.0, 1.0]
  {
    channel := new Sample[4](_ => 1.0);
    var dest := [channel];
    var success := reader.ReadSamples(dest, 1, 2, 0, 2, readAudioSamples);
    assert dest[0][0] == channel[0] && dest[0][1] == channel[1] && dest[0][2] == channel[2] && dest[0][3] == channel[3];
    assert channel[..] == [channel[0], channel[1], channel[2], channel[3]];
  }

  /** The same read through AudioSourceReader.ReadSamplesCorrected silences exactly the requested span. */
  method SourceClearsRequestedSpanCorrected(reader: AudioSourceReader, readAudioSamples: HostRead) returns (channel: array<Sample>)
    requires reader.lock.WriterHolds()
    modifies reader.lock, reader`tmpPtrs, reader`dummyBuffer
    ensures fresh(channel) && channel[..] == [1.0, 1.0, Silence, Silence]
  {
    channel := new Sample[4](_ => 1.0);
    var dest := [channel];
    var success := reader.ReadSamplesCorrected(dest, 1, 2, 0, 2, readAudioSamples);
    assert dest[0][0] == channel[0] && dest[0][1] == channel[1] && dest[0][2] == channel[2] && dest[0][3] == channel[3];
    assert channel[..] == [channel[0], channel[1], channel[2], channel[3]];
  }

  /**
   * Once WillDestroyAudioSource has run for the reader's source, the source
   * pointer is null, so the destructor as written (Destroy, which needs a
   * source) dereferences null; DestroyCorrected still drops the host reader.
   */
  method DestroyAfterSourceDestroyedAsWritten(reader: AudioSourceReader)
    requires reader.audioSourceBeingRead != null
    modifies reader`araHostReader, reader`audioSourceBeingRead, reader.lock
    ensures reader.audioSourceBeingRead == null && reader.araHostReader == NoReader
  {
    reader.WillDestroyAudioSource(reader.audioSourceBeingRead);
    reader.DestroyCorrected();
  }
}
