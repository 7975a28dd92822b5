/**
 * The plug-in instance roles: the playback renderer (format state and a
 * silent processBlock) and the editor view (an ordered vector of selection
 * listeners notified in turn).
 */
module InstanceRoles {
  import opened SampleBuffers
  import opened ListenerLists
  import opened ModelObjects

  class PlaybackRenderer {
    var sampleRate: real
    var maxSamplesPerBlock: int
    var rendering: bool
    /** The regions this renderer plays, kept by the ARA SDK base class. */
    var playbackRegions: seq<PlaybackRegion>

    constructor ()
      ensures sampleRate == 44100.0 && maxSamplesPerBlock == 1024
      ensures playbackRegions == []
    {
      sampleRate := 44100.0;
      maxSamplesPerBlock := 1024;
      rendering := false;
      playbackRegions := [];
    }

    method PrepareToPlay(newSampleRate: real, newMaxSamplesPerBlock: int)
      modifies this`sampleRate, this`maxSamplesPerBlock, this`rendering
      ensures sampleRate == newSampleRate && maxSamplesPerBlock == newMaxSamplesPerBlock
      ensures rendering
    {
      sampleRate := newSampleRate;
      maxSamplesPerBlock := newMaxSamplesPerBlock;
      rendering := true;
    }

    method ReleaseResources()
      modifies this`rendering
      ensures !rendering
    {
      rendering := false;
    }

    /**
     * Renders silence: every sample of every channel of the block is zero
     * afterwards. An AudioBuffer's channels all hold the block's samples.
     */
    method ProcessBlock(buffer: seq<array<Sample>>, numSamples: int)
      requires 0 <= numSamples <= maxSamplesPerBlock
      requires forall c :: 0 <= c < |buffer| ==> buffer[c].Length == numSamples
      modifies ChannelArrays(buffer, |buffer|)
      ensures forall c, k :: 0 <= c < |buffer| && 0 <= k < buffer[c].Length ==> buffer[c][k] == Silence
    {
      ClearChannels(buffer, |buffer|, 0, numSamples);
    }

    method AddPlaybackRegion(playbackRegion: PlaybackRegion)
      modifies this`playbackRegions
      ensures playbackRegions == old(playbackRegions) + [playbackRegion]
    {
      playbackRegions := playbackRegions + [playbackRegion];
    }

    method RemovePlaybackRegion(playbackRegion: PlaybackRegion)
      modifies this`playbackRegions
      ensures playbackRegions == RemoveFirst(old(playbackRegions), playbackRegion)
    {
      playbackRegions := RemoveFirst(playbackRegions, playbackRegion);
    }
  }

  /** The host's view selection: selected regions, sequences and an optional time range. */
  datatype ViewSelection = ViewSelection(
    playbackRegions: seq<PlaybackRegion>,
    regionSequences: seq<RegionSequence>,
    timeRange: ContentRange)

  datatype EditorViewCall =
    | OnNewSelection(listener: object, currentSelection: ViewSelection)
    | OnHideRegionSequences(listener: object, regionSequences: seq<RegionSequence>)

  class EditorView {
    var listeners: seq<object>

    constructor ()
      ensures listeners == []
    {
      listeners := [];
    }

    /** Calls onNewSelection on each listener once, in vector order. */
    method DoNotifySelection(currentSelection: ViewSelection) returns (calls: seq<EditorViewCall>)
      ensures |calls| == |listeners|
      ensures forall i :: 0 <= i < |calls| ==> calls[i] == OnNewSelection(listeners[i], currentSelection)
    {
      calls := CallEach(listeners, (l: object) => OnNewSelection(l, currentSelection));
    }

    /** Calls onHideRegionSequences on each listener once, in vector order. */
    method DoNotifyHideRegionSequences(regionSequences: seq<RegionSequence>) returns (calls: seq<EditorViewCall>)
      ensures |calls| == |listeners|
      ensures forall i :: 0 <= i < |calls| ==> calls[i] == OnHideRegionSequences(listeners[i], regionSequences)
    {
      calls := CallEach(listeners, (l: object) => OnHideRegionSequences(l, regionSequences));
    }

    /** push_back: a listener added twice is called twice. */
    method AddSelectionListener(l: object)
      modifies this`listeners
      ensures listeners == old(listeners) + [l]
    {
      listeners := listeners + [l];
    }

    /** find_erase: removes the first occurrence, if any. */
    method RemoveSelectionListener(l: object)
      modifies this`listeners
      ensures listeners == RemoveFirst(old(listeners), l)
    {
      listeners := RemoveFirst(listeners, l);
    }
  }
}
