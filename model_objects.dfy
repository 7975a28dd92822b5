/**
 * The plug-in side mirrors of the host's document graph (audio sources,
 * audio modifications, playback regions, region sequences) and the document
 * controller that collects pending content updates for the host.
 *
 * The graph links (a source's modifications, a modification's regions, a
 * sequence's regions, a region's sequence) are maintained by the ARA SDK;
 * here they are plain fields. The document controller is reached in C++
 * through getDocument()->getDocumentController(); here it is passed in.
 */
module ModelObjects {
  import opened ContentScopes
  import opened ListenerLists

  // ---------------------------------------------------------------------------
  // Notification payloads

  /** The optional content range of a content update (a null pointer: the whole content). */
  datatype ContentRange = WholeContent | ContentTimeRange(start: real, duration: real)

  datatype AudioSourceProperties = AudioSourceProperties(sampleCount: int, sampleRate: real, channelCount: nat)

  datatype AudioSourceEvent =
    | WillUpdateAudioSourceProperties(newProperties: AudioSourceProperties)
    | DidUpdateAudioSourceProperties
    | DoUpdateAudioSourceContent(range: ContentRange, scopeFlags: Scopes)
    | WillEnableAudioSourceSamplesAccess(enable: bool)
    | DidEnableAudioSourceSamplesAccess(enable: bool)
    | DoDeactivateAudioSourceForUndoHistory(deactivate: bool)

  /** One listener callback: the listener, the notifying source and the event with its arguments. */
  datatype AudioSourceCall = AudioSourceCall(listener: object, audioSource: AudioSource, event: AudioSourceEvent)

  datatype RegionSequenceProperties = RegionSequenceProperties(name: string, orderIndex: int)

  datatype RegionSequenceEvent =
    | WillUpdateRegionSequenceProperties(newProperties: RegionSequenceProperties)
    | DidUpdateRegionSequenceProperties

  datatype RegionSequenceCall = RegionSequenceCall(listener: object, regionSequence: RegionSequence, event: RegionSequenceEvent)

  /** The host's new properties for a playback region; only the owning sequence matters here. */
  datatype PlaybackRegionProperties = PlaybackRegionProperties(
    startInPlaybackTime: real, durationInPlaybackTime: real, regionSequence: RegionSequence)

  /** A content-changed notification sent to the host's model update controller. */
  datatype HostNotification =
    | AudioSourceContentChanged(audioSource: AudioSource, scopes: Scopes)
    | AudioModificationContentChanged(audioModification: AudioModification, scopes: Scopes)
    | PlaybackRegionContentChanged(playbackRegion: PlaybackRegion, scopes: Scopes)

  // ---------------------------------------------------------------------------
  // Pending content updates: `updates[object] += scopeFlags`

  /** The scopes pending for `k`; a missing entry reads as a default-constructed (nothing affected) one. */
  function Pending<K>(m: map<K, Scopes>, k: K): Scopes {
    if k in m then m[k] else NothingIsAffected
  }

  /** `updates[k] += s`: the entry for `k` keeps what was pending and gains `s`; no other entry changes. */
  function MergeInto<K>(m: map<K, Scopes>, k: K, s: Scopes): (r: map<K, Scopes>)
    ensures r.Keys == m.Keys + {k}
    ensures Pending(m, k) <= r[k] && s <= r[k]
    ensures forall j :: j in m && j != k ==> r[j] == m[j]
  {
    m[k := Merge(Pending(m, k), s)]
  }

  /** `updates[k] += s` for each key of `keys` in turn. */
  function MergeAll<K>(m: map<K, Scopes>, keys: seq<K>, s: Scopes): map<K, Scopes>
    decreases |keys|
  {
    if keys == [] then m else MergeAll(MergeInto(m, keys[0], s), keys[1..], s)
  }

  lemma {:induction false} MergeAllAppend<K>(m: map<K, Scopes>, a: seq<K>, b: seq<K>, s: Scopes)
    ensures MergeAll(m, a + b, s) == MergeAll(MergeAll(m, a, s), b, s)
    decreases |a|
  {
    if a == [] {
      assert a + b == b;
    } else {
      assert (a + b)[0] == a[0] && (a + b)[1..] == a[1..] + b;
      MergeAllAppend(MergeInto(m, a[0], s), a[1..], b, s);
    }
  }

  /**
   * Merging `s` into the entries of `keys` creates an entry for every key,
   * merges `s` into what was pending for it, and leaves every other entry alone.
   */
  lemma {:induction false} MergeAllSpec<K>(m: map<K, Scopes>, keys: seq<K>, s: Scopes)
    ensures forall k :: k in MergeAll(m, keys, s) <==> k in m || k in keys
    ensures forall k :: k in keys ==> MergeAll(m, keys, s)[k] == Merge(Pending(m, k), s)
    ensures forall k :: k in m && k !in keys ==> MergeAll(m, keys, s)[k] == m[k]
    decreases |keys|
  {
    if keys != [] {
      var m' := MergeInto(m, keys[0], s);
      MergeAllSpec(m', keys[1..], s);
      forall k | k in keys[1..]
        ensures Merge(Pending(m', k), s) == Merge(Pending(m, k), s)
      {
        if k == keys[0] {
          assert Pending(m', k) == Merge(Pending(m, k), s);
        }
      }
    }
  }

  /** All playback regions of the given modifications, modification by modification. */
  function RegionsOf(modifications: seq<AudioModification>): seq<PlaybackRegion>
    reads modifications
  {
    if modifications == [] then []
    else modifications[0].playbackRegions + RegionsOf(modifications[1..])
  }

  lemma {:induction false} RegionsOfAppend(a: seq<AudioModification>, b: seq<AudioModification>)
    ensures RegionsOf(a + b) == RegionsOf(a) + RegionsOf(b)
  {
    if a == [] {
      assert a + b == b;
    } else {
      assert (a + b)[0] == a[0] && (a + b)[1..] == a[1..] + b;
      RegionsOfAppend(a[1..], b);
    }
  }

  /** A region is reached by the cascade exactly when one of the modifications lists it. */
  lemma {:induction false} RegionsOfMembers(modifications: seq<AudioModification>, r: PlaybackRegion)
    ensures r in RegionsOf(modifications) <==> exists i :: 0 <= i < |modifications| && r in modifications[i].playbackRegions
  {
    if modifications != [] {
      RegionsOfMembers(modifications[1..], r);
      if r in RegionsOf(modifications[1..]) {
        var i :| 0 <= i < |modifications[1..]| && r in modifications[1..][i].playbackRegions;
        assert r in modifications[i + 1].playbackRegions;
      }
      if exists i :: 0 <= i < |modifications| && r in modifications[i].playbackRegions {
        var i :| 0 <= i < |modifications| && r in modifications[i].playbackRegions;
        if i > 0 {
          assert r in modifications[1..][i - 1].playbackRegions;
        }
      }
    }
  }

  // ---------------------------------------------------------------------------
  // Folds over a region sequence's regions

  function Min(a: real, b: real): real { if a <= b then a else b }
  function Max(a: real, b: real): real { if a >= b then a else b }

  /** A region's start in playback time, moved back by its head time when asked to. */
  function RegionStartTime(r: PlaybackRegion, includeHeadAndTail: bool): real
    reads r
  {
    if includeHeadAndTail then r.startInPlaybackTime - r.headTime else r.startInPlaybackTime
  }

  /** A region's end in playback time, moved on by its tail time when asked to. */
  function RegionEndTime(r: PlaybackRegion, includeHeadAndTail: bool): real
    reads r
  {
    if includeHeadAndTail then r.EndInPlaybackTime() + r.tailTime else r.EndInPlaybackTime()
  }

  /** The sample rates of the regions' audio sources, region by region. */
  function SourceSampleRates(regions: seq<PlaybackRegion>): (rates: seq<real>)
    reads set r | r in regions :: r.audioModification.audioSource
    ensures |rates| == |regions|
    ensures forall i :: 0 <= i < |regions| ==> rates[i] == regions[i].audioModification.audioSource.sampleRate
  {
    if regions == [] then []
    else [regions[0].audioModification.audioSource.sampleRate] + SourceSampleRates(regions[1..])
  }

  /**
   * The loop of getCommonSampleRate from a running value `common`: a zero
   * running value adopts the next rate, and a rate that differs from the
   * running value ends the loop with 0.
   */
  function CommonRateFrom(rates: seq<real>, common: real): real {
    if rates == [] then common
    else
      var c := if common == 0.0 then rates[0] else common;
      if c != rates[0] then 0.0 else CommonRateFrom(rates[1..], c)
  }

  function CommonSampleRate(rates: seq<real>): real {
    CommonRateFrom(rates, 0.0)
  }

  lemma {:induction false} CommonRateFromAgreeing(rates: seq<real>, common: real, v: real)
    requires rates != [] && forall i :: 0 <= i < |rates| ==> rates[i] == v
    requires common == 0.0 || common == v
    ensures CommonRateFrom(rates, common) == v
  {
    if |rates| > 1 {
      CommonRateFromAgreeing(rates[1..], v, v);
    }
  }

  lemma {:induction false} CommonRateFromNonzero(rates: seq<real>, common: real)
    requires CommonRateFrom(rates, common) != 0.0
    ensures common == 0.0 || common == CommonRateFrom(rates, common)
    ensures forall i :: 0 <= i < |rates| ==> rates[i] == CommonRateFrom(rates, common) || rates[i] == 0.0
  {
    if rates != [] {
      var c := if common == 0.0 then rates[0] else common;
      CommonRateFromNonzero(rates[1..], c);
      forall i | 1 <= i < |rates|
        ensures rates[i] == CommonRateFrom(rates, common) || rates[i] == 0.0
      {
        assert rates[i] == rates[1..][i - 1];
      }
    }
  }

  /**
   * The rates settle at position `k`: every rate before it is 0, the rate at
   * `k` is not, and every rate from `k` on equals it.
   */
  predicate SettlesAt(rates: seq<real>, k: int) {
    && 0 <= k < |rates| && rates[k] != 0.0
    && (forall j :: 0 <= j < k ==> rates[j] == 0.0)
    && (forall j :: k <= j < |rates| ==> rates[j] == rates[k])
  }

  /** From a non-zero running value the loop ends with it iff every rate equals it, and with 0 otherwise. */
  lemma {:induction false} CommonRateFromSet(rates: seq<real>, common: real)
    requires common != 0.0
    ensures CommonRateFrom(rates, common) == if forall j :: 0 <= j < |rates| ==> rates[j] == common then common else 0.0
  {
    if rates != [] && rates[0] == common {
      CommonRateFromSet(rates[1..], common);
      assert forall j :: 1 <= j < |rates| ==> rates[j] == rates[1..][j - 1];
    }
  }

  /** From 0 the loop skips leading zero rates, adopts the first non-zero one, and keeps it only if no later rate differs. */
  lemma {:induction false} CommonRateFromZero(rates: seq<real>)
    ensures CommonRateFrom(rates, 0.0) != 0.0 <==> exists k :: SettlesAt(rates, k)
    ensures forall k :: SettlesAt(rates, k) ==> CommonRateFrom(rates, 0.0) == rates[k]
  {
    if rates != [] {
      var tail := rates[1..];
      if rates[0] == 0.0 {
        CommonRateFromZero(tail);
        forall k | SettlesAt(rates, k) ensures k >= 1 && SettlesAt(tail, k - 1) {
          assert tail[k - 1] == rates[k];
        }
        forall k | SettlesAt(tail, k) ensures SettlesAt(rates, k + 1) {
          assert forall j :: 1 <= j < |rates| ==> rates[j] == tail[j - 1];
        }
      } else {
        CommonRateFromSet(tail, rates[0]);
        forall k | SettlesAt(rates, k) ensures k == 0 {}
        if forall j :: 0 <= j < |tail| ==> tail[j] == rates[0] {
          assert forall j :: 1 <= j < |rates| ==> rates[j] == tail[j - 1];
          assert SettlesAt(rates, 0);
        } else {
          var j :| 0 <= j < |tail| && tail[j] != rates[0];
          assert rates[j + 1] != rates[0];
          assert !SettlesAt(rates, 0);
        }
      }
    }
  }

  /**
   * getCommonSampleRate: 0 without regions; the shared rate when all sources
   * agree; otherwise every rate is the result or 0, so two different non-zero
   * rates give 0. Exactly: the result is non-zero iff the rates settle (zero
   * rates, then one non-zero rate throughout), and then it is that rate; a 0
   * after the adopted rate ends the loop with 0.
   */
  lemma CommonSampleRateSpec(rates: seq<real>)
    ensures rates == [] ==> CommonSampleRate(rates) == 0.0
    ensures rates != [] && (forall i :: 0 <= i < |rates| ==> rates[i] == rates[0]) ==> CommonSampleRate(rates) == rates[0]
    ensures CommonSampleRate(rates) != 0.0 ==>
              forall i :: 0 <= i < |rates| ==> rates[i] == CommonSampleRate(rates) || rates[i] == 0.0
    ensures (exists i, j :: 0 <= i < |rates| && 0 <= j < |rates| && rates[i] != 0.0 && rates[j] != 0.0 && rates[i] != rates[j])
              ==> CommonSampleRate(rates) == 0.0
    ensures CommonSampleRate(rates) != 0.0 <==> exists k :: SettlesAt(rates, k)
    ensures forall k :: SettlesAt(rates, k) ==> CommonSampleRate(rates) == rates[k]
  {
    if rates != [] && forall i :: 0 <= i < |rates| ==> rates[i] == rates[0] {
      CommonRateFromAgreeing(rates, 0.0, rates[0]);
    }
    if CommonSampleRate(rates) != 0.0 {
      CommonRateFromNonzero(rates, 0.0);
    }
    CommonRateFromZero(rates);
  }

  // ---------------------------------------------------------------------------
  // The three pending-update maps of the document controller, as one value

  datatype PendingUpdates = PendingUpdates(
    sources: map<AudioSource, Scopes>,
    modifications: map<AudioModification, Scopes>,
    regions: map<PlaybackRegion, Scopes>)

  /** notifyPlaybackRegionContentChanged: `playbackRegionUpdates[region] += scopeFlags`, nothing else. */
  function AfterRegionChange(p: PendingUpdates, region: PlaybackRegion, scopeFlags: Scopes): (q: PendingUpdates)
    ensures q.sources == p.sources && q.modifications == p.modifications
    ensures q.regions.Keys == p.regions.Keys + {region}
    ensures q.regions[region] == Merge(Pending(p.regions, region), scopeFlags)
    ensures forall r :: r in p.regions && r != region ==> q.regions[r] == p.regions[r]
  {
    p.(regions := MergeInto(p.regions, region, scopeFlags))
  }

  /**
   * notifyAudioModificationContentChanged: merge into the modification's
   * entry and, with the cascade flag, into the entry of each of its regions.
   */
  function AfterModificationChange(p: PendingUpdates, modification: AudioModification, scopeFlags: Scopes, notifyAllPlaybackRegions: bool): PendingUpdates
    reads modification
  {
    var q := p.(modifications := MergeInto(p.modifications, modification, scopeFlags));
    if notifyAllPlaybackRegions then q.(regions := MergeAll(q.regions, modification.playbackRegions, scopeFlags)) else q
  }

  /** One turn of the source cascade: the next modification and its regions join the merged prefixes. */
  lemma CascadeStep(p: PendingUpdates, modifications: seq<AudioModification>, i: int, scopeFlags: Scopes)
    requires 0 <= i < |modifications|
    ensures MergeInto(MergeAll(p.modifications, modifications[..i], scopeFlags), modifications[i], scopeFlags)
              == MergeAll(p.modifications, modifications[..i + 1], scopeFlags)
    ensures MergeAll(MergeAll(p.regions, RegionsOf(modifications[..i]), scopeFlags), modifications[i].playbackRegions, scopeFlags)
              == MergeAll(p.regions, RegionsOf(modifications[..i + 1]), scopeFlags)
  {
    var m := modifications[i];
    assert modifications[..i + 1] == modifications[..i] + [m];
    MergeAllAppend(p.modifications, modifications[..i], [m], scopeFlags);
    RegionsOfAppend(modifications[..i], [m]);
    assert RegionsOf([m]) == m.playbackRegions by {
      assert [m][1..] == [];
    }
    MergeAllAppend(p.regions, RegionsOf(modifications[..i]), m.playbackRegions, scopeFlags);
  }

  /**
   * notifyAudioSourceContentChanged: merge into the source's entry and, with
   * the cascade flag, into every modification of the source and every
   * region of those modifications.
   */
  function AfterSourceChange(p: PendingUpdates, audioSource: AudioSource, scopeFlags: Scopes, notifyAll: bool): PendingUpdates
    reads audioSource, audioSource.audioModifications
  {
    var q := p.(sources := MergeInto(p.sources, audioSource, scopeFlags));
    if notifyAll then
      q.(modifications := MergeAll(q.modifications, audioSource.audioModifications, scopeFlags),
         regions := MergeAll(q.regions, RegionsOf(audioSource.audioModifications), scopeFlags))
    else q
  }

  /**
   * What a content change of a modification leaves pending: its own entry
   * holds the new scopes; with the cascade every one of its regions has an
   * entry holding them too; without it the region map is untouched. The
   * source map never changes.
   */
  lemma ModificationChangeSpec(p: PendingUpdates, modification: AudioModification, scopeFlags: Scopes, cascade: bool)
    ensures var q := AfterModificationChange(p, modification, scopeFlags, cascade);
      && q.sources == p.sources
      && q.modifications == MergeInto(p.modifications, modification, scopeFlags)
      && (!cascade ==> q.regions == p.regions)
      && (cascade ==> forall r :: r in modification.playbackRegions ==> r in q.regions && scopeFlags <= q.regions[r])
      && (forall r :: r in q.regions <==> r in p.regions || (cascade && r in modification.playbackRegions))
  {
    MergeAllSpec(p.regions, modification.playbackRegions, scopeFlags);
  }

  /**
   * What a content change of a source leaves pending: its own entry holds the
   * new scopes; with the cascade, every modification of the source and every
   * playback region of each of them has an entry holding the scopes, and
   * nothing else gains an entry; without it only the source map changes.
   */
  lemma SourceChangeSpec(p: PendingUpdates, audioSource: AudioSource, scopeFlags: Scopes, cascade: bool)
    ensures var q := AfterSourceChange(p, audioSource, scopeFlags, cascade);
      && q.sources == MergeInto(p.sources, audioSource, scopeFlags)
      && (!cascade ==> q.modifications == p.modifications && q.regions == p.regions)
      && (cascade ==> forall i :: 0 <= i < |audioSource.audioModifications| ==>
            var m := audioSource.audioModifications[i];
            m in q.modifications && scopeFlags <= q.modifications[m]
            && forall r :: r in m.playbackRegions ==> r in q.regions && scopeFlags <= q.regions[r])
      && (forall r :: r in q.regions ==>
            (r in p.regions || (cascade && exists i :: 0 <= i < |audioSource.audioModifications| && r in audioSource.audioModifications[i].playbackRegions)))
  {
    var mods := audioSource.audioModifications;
    MergeAllSpec(p.modifications, mods, scopeFlags);
    MergeAllSpec(p.regions, RegionsOf(mods), scopeFlags);
    var q := AfterSourceChange(p, audioSource, scopeFlags, cascade);
    forall r: PlaybackRegion | cascade && r in q.regions && r !in p.regions
      ensures exists i :: 0 <= i < |mods| && r in mods[i].playbackRegions
    {
      CascadeRegionOrigin(p, audioSource, scopeFlags, r);
      RegionsOfMembers(mods, r);
    }
    forall i, r: PlaybackRegion | cascade && 0 <= i < |mods| && r in mods[i].playbackRegions
      ensures r in q.regions && scopeFlags <= q.regions[r]
    {
      RegionsOfMembers(mods, r);
    }
  }

  lemma CascadeRegionOrigin(p: PendingUpdates, audioSource: AudioSource, scopeFlags: Scopes, r: PlaybackRegion)
    requires r in AfterSourceChange(p, audioSource, scopeFlags, true).regions && r !in p.regions
    ensures r in RegionsOf(audioSource.audioModifications)
  {
    MergeAllSpec(p.regions, RegionsOf(audioSource.audioModifications), scopeFlags);
  }

  /** A merge only ever adds scopes: flags already pending stay pending. */
  lemma {:induction false} MergeAllKeeps<K>(m: map<K, Scopes>, keys: seq<K>, s: Scopes, k: K)
    requires k in m
    ensures k in MergeAll(m, keys, s) && m[k] <= MergeAll(m, keys, s)[k]
    decreases |keys|
  {
    if keys != [] {
      MergeAllKeeps(MergeInto(m, keys[0], s), keys[1..], s, k);
    }
  }

  // ---------------------------------------------------------------------------
  // Audio source

  class AudioSource {
    var sampleRate: real
    var channelCount: nat
    var sampleCount: int
    var sampleAccessEnabled: bool
    /** The source's modifications, kept by the ARA SDK. */
    var audioModifications: seq<AudioModification>
    var listeners: seq<object>

    constructor (properties: AudioSourceProperties, sampleAccessEnabled: bool)
      ensures sampleRate == properties.sampleRate && channelCount == properties.channelCount
      ensures sampleCount == properties.sampleCount && this.sampleAccessEnabled == sampleAccessEnabled
      ensures audioModifications == [] && listeners == []
    {
      sampleRate := properties.sampleRate;
      channelCount := properties.channelCount;
      sampleCount := properties.sampleCount;
      this.sampleAccessEnabled := sampleAccessEnabled;
      audioModifications := [];
      listeners := [];
    }

    /** Each listener registered now gets exactly one call, for this source, with `event`. */
    predicate DeliveredToListeners(calls: seq<AudioSourceCall>, event: AudioSourceEvent)
      reads this
    {
      && |calls| == |listeners|
      && (forall i :: 0 <= i < |calls| ==>
            calls[i].audioSource == this && calls[i].event == event && calls[i].listener in listeners)
      && (forall j :: 0 <= j < |listeners| ==> exists i :: 0 <= i < |calls| && calls[i].listener == listeners[j])
    }

    method Deliver(event: AudioSourceEvent) returns (calls: seq<AudioSourceCall>)
      ensures DeliveredToListeners(calls, event)
    {
      var callFor := (l: object) => AudioSourceCall(l, this, event);
      calls := CallEach(listeners, callFor);
      forall i | 0 <= i < |calls|
        ensures calls[i].audioSource == this && calls[i].event == event
        ensures calls[i].listener == listeners[i] && calls[i].listener in listeners
      {
        assert calls[i] == callFor(listeners[i]);
        assert listeners[i] in listeners;
      }
      forall j | 0 <= j < |listeners|
        ensures exists i :: 0 <= i < |calls| && calls[i].listener == listeners[j]
      {
        assert calls[j].listener == listeners[j];
      }
      assert |calls| == |listeners|;
      assert forall i :: 0 <= i < |calls| ==> calls[i].listener in listeners;
      assert forall i :: 0 <= i < |calls| ==> calls[i].event == event;
    }

    method WillUpdateAudioSourceProperties(newProperties: AudioSourceProperties) returns (calls: seq<AudioSourceCall>)
      ensures DeliveredToListeners(calls, AudioSourceEvent.WillUpdateAudioSourceProperties(newProperties))
    {
      calls := Deliver(AudioSourceEvent.WillUpdateAudioSourceProperties(newProperties));
    }

    method DidUpdateAudioSourceProperties() returns (calls: seq<AudioSourceCall>)
      ensures DeliveredToListeners(calls, AudioSourceEvent.DidUpdateAudioSourceProperties)
    {
      calls := Deliver(AudioSourceEvent.DidUpdateAudioSourceProperties);
    }

    method DoUpdateAudioSourceContent(range: ContentRange, scopeFlags: Scopes) returns (calls: seq<AudioSourceCall>)
      ensures DeliveredToListeners(calls, AudioSourceEvent.DoUpdateAudioSourceContent(range, scopeFlags))
    {
      calls := Deliver(AudioSourceEvent.DoUpdateAudioSourceContent(range, scopeFlags));
    }

    method WillEnableAudioSourceSamplesAccess(enable: bool) returns (calls: seq<AudioSourceCall>)
      ensures DeliveredToListeners(calls, AudioSourceEvent.WillEnableAudioSourceSamplesAccess(enable))
    {
      calls := Deliver(AudioSourceEvent.WillEnableAudioSourceSamplesAccess(enable));
    }

    method DidEnableAudioSourceSamplesAccess(enable: bool) returns (calls: seq<AudioSourceCall>)
      ensures DeliveredToListeners(calls, AudioSourceEvent.DidEnableAudioSourceSamplesAccess(enable))
    {
      calls := Deliver(AudioSourceEvent.DidEnableAudioSourceSamplesAccess(enable));
    }

    method DoDeactivateAudioSourceForUndoHistory(deactivate: bool) returns (calls: seq<AudioSourceCall>)
      ensures DeliveredToListeners(calls, AudioSourceEvent.DoDeactivateAudioSourceForUndoHistory(deactivate))
    {
      calls := Deliver(AudioSourceEvent.DoDeactivateAudioSourceForUndoHistory(deactivate));
    }

    /**
     * Calls willDestroyAudioSource on a copy of the listener list taken
     * before the first callback, skipping listeners that are no longer
     * registered when their turn comes. `react` gives the registrations
     * and removals each listener's callback makes on this source.
     */
    method WillDestroyAudioSource(react: object -> seq<Edit<object>>) returns (called: seq<object>)
      modifies this`listeners
      ensures Outcome(called, listeners) == Dispatch(old(listeners), old(listeners), react)
    {
      called, listeners := CallOverSnapshot(listeners, react);
    }

    method AddListener(l: object)
      modifies this`listeners
      ensures listeners == AddIfAbsent(old(listeners), l)
    {
      listeners := AddIfAbsent(listeners, l);
    }

    method RemoveListener(l: object)
      modifies this`listeners
      ensures listeners == RemoveFirst(old(listeners), l)
    {
      listeners := RemoveFirst(listeners, l);
    }

    /** Forwards to the document controller, with the cascade flag unchanged. */
    method NotifyContentChanged(controller: DocumentController, scopeFlags: Scopes, notifyAllAudioModificationsAndPlaybackRegions: bool)
      modifies controller
      ensures controller.Updates() == AfterSourceChange(old(controller.Updates()), this, scopeFlags, notifyAllAudioModificationsAndPlaybackRegions)
    {
      controller.NotifyAudioSourceContentChanged(this, scopeFlags, notifyAllAudioModificationsAndPlaybackRegions);
    }
  }

  // ---------------------------------------------------------------------------
  // Audio modification

  class AudioModification {
    const audioSource: AudioSource
    /** The modification's playback regions, kept by the ARA SDK. */
    var playbackRegions: seq<PlaybackRegion>

    constructor (audioSource: AudioSource)
      ensures this.audioSource == audioSource && playbackRegions == []
    {
      this.audioSource := audioSource;
      playbackRegions := [];
    }

    /** Forwards to the document controller, with the cascade flag unchanged. */
    method NotifyContentChanged(controller: DocumentController, scopeFlags: Scopes, notifyAllPlaybackRegions: bool)
      modifies controller
      ensures controller.Updates() == AfterModificationChange(old(controller.Updates()), this, scopeFlags, notifyAllPlaybackRegions)
    {
      controller.NotifyAudioModificationContentChanged(this, scopeFlags, notifyAllPlaybackRegions);
    }
  }

  // ---------------------------------------------------------------------------
  // Playback region

  class PlaybackRegion {
    const audioModification: AudioModification
    var startInPlaybackTime: real
    var durationInPlaybackTime: real
    /** The sequence the region currently belongs to (a region property the host may change). */
    var regionSequence: RegionSequence?
    var headTime: real
    var tailTime: real
    var listeners: seq<object>

    constructor (audioModification: AudioModification, startInPlaybackTime: real, durationInPlaybackTime: real, regionSequence: RegionSequence?)
      ensures this.audioModification == audioModification && this.regionSequence == regionSequence
      ensures this.startInPlaybackTime == startInPlaybackTime && this.durationInPlaybackTime == durationInPlaybackTime
      ensures headTime == 0.0 && tailTime == 0.0 && listeners == []
    {
      this.audioModification := audioModification;
      this.startInPlaybackTime := startInPlaybackTime;
      this.durationInPlaybackTime := durationInPlaybackTime;
      this.regionSequence := regionSequence;
      headTime := 0.0;
      tailTime := 0.0;
      listeners := [];
    }

    function EndInPlaybackTime(): real
      reads this
    {
      startInPlaybackTime + durationInPlaybackTime
    }

    method SetHeadTime(newHeadTime: real, controller: DocumentController)
      modifies this`headTime, controller
      ensures headTime == newHeadTime
      ensures controller.Updates() == AfterRegionChange(old(controller.Updates()), this, SamplesAreAffected)
    {
      headTime := newHeadTime;
      NotifyContentChanged(controller, SamplesAreAffected);
    }

    method SetTailTime(newTailTime: real, controller: DocumentController)
      modifies this`tailTime, controller
      ensures tailTime == newTailTime
      ensures controller.Updates() == AfterRegionChange(old(controller.Updates()), this, SamplesAreAffected)
    {
      tailTime := newTailTime;
      NotifyContentChanged(controller, SamplesAreAffected);
    }

    method SetHeadAndTailTime(newHeadTime: real, newTailTime: real, controller: DocumentController)
      modifies this`headTime, this`tailTime, controller
      ensures headTime == newHeadTime && tailTime == newTailTime
      ensures controller.Updates() == AfterRegionChange(old(controller.Updates()), this, SamplesAreAffected)
    {
      headTime := newHeadTime;
      tailTime := newTailTime;
      NotifyContentChanged(controller, SamplesAreAffected);
    }

    method NotifyContentChanged(controller: DocumentController, scopeFlags: Scopes)
      modifies controller
      ensures controller.Updates() == AfterRegionChange(old(controller.Updates()), this, scopeFlags)
    {
      controller.NotifyPlaybackRegionContentChanged(this, scopeFlags);
    }

    method AddListener(l: object)
      modifies this`listeners
      ensures listeners == AddIfAbsent(old(listeners), l)
    {
      listeners := AddIfAbsent(listeners, l);
    }

    method RemoveListener(l: object)
      modifies this`listeners
      ensures listeners == RemoveFirst(old(listeners), l)
    {
      listeners := RemoveFirst(listeners, l);
    }
  }

  // ---------------------------------------------------------------------------
  // Region sequence

  class RegionSequence {
    var name: string
    var orderIndex: int
    /** The sequence's playback regions, kept by the ARA SDK. */
    var playbackRegions: seq<PlaybackRegion>
    var listeners: seq<object>

    constructor (properties: RegionSequenceProperties)
      ensures name == properties.name && orderIndex == properties.orderIndex
      ensures playbackRegions == [] && listeners == []
    {
      name := properties.name;
      orderIndex := properties.orderIndex;
      playbackRegions := [];
      listeners := [];
    }

    /**
     * The union of the regions' spans in playback time, each optionally
     * widened by its head and tail time; (0, 0) without regions.
     */
    method GetTimeRange(includeHeadAndTail: bool) returns (startTime: real, endTime: real)
      ensures playbackRegions == [] ==> startTime == 0.0 && endTime == 0.0
      ensures forall i :: 0 <= i < |playbackRegions| ==>
                startTime <= RegionStartTime(playbackRegions[i], includeHeadAndTail)
                && RegionEndTime(playbackRegions[i], includeHeadAndTail) <= endTime
      ensures playbackRegions != [] ==>
                exists i :: 0 <= i < |playbackRegions| && startTime == RegionStartTime(playbackRegions[i], includeHeadAndTail)
      ensures playbackRegions != [] ==>
                exists i :: 0 <= i < |playbackRegions| && endTime == RegionEndTime(playbackRegions[i], includeHeadAndTail)
    {
      var regions := playbackRegions;
      if regions == [] {
        return 0.0, 0.0;
      }
      startTime := RegionStartTime(regions[0], includeHeadAndTail);
      endTime := RegionEndTime(regions[0], includeHeadAndTail);
      for i := 1 to |regions|
        invariant forall k :: 0 <= k < i ==>
                    startTime <= RegionStartTime(regions[k], includeHeadAndTail)
                    && RegionEndTime(regions[k], includeHeadAndTail) <= endTime
        invariant exists k :: 0 <= k < i && startTime == RegionStartTime(regions[k], includeHeadAndTail)
        invariant exists k :: 0 <= k < i && endTime == RegionEndTime(regions[k], includeHeadAndTail)
      {
        startTime := Min(startTime, RegionStartTime(regions[i], includeHeadAndTail));
        endTime := Max(endTime, RegionEndTime(regions[i], includeHeadAndTail));
      }
    }

    /** The sample rate all regions' sources share, or 0 (see CommonSampleRateSpec). */
    method GetCommonSampleRate() returns (commonSampleRate: real)
      ensures commonSampleRate == CommonSampleRate(SourceSampleRates(playbackRegions))
    {
      var regions := playbackRegions;
      ghost var rates := SourceSampleRates(regions);
      commonSampleRate := 0.0;
      for i := 0 to |regions|
        invariant CommonSampleRate(rates) == CommonRateFrom(rates[i..], commonSampleRate)
      {
        assert rates[i..][1..] == rates[i + 1..];
        var sampleRate := regions[i].audioModification.audioSource.sampleRate;
        if commonSampleRate == 0.0 {
          commonSampleRate := sampleRate;
        }
        if commonSampleRate != sampleRate {
          return 0.0;
        }
      }
    }

    /** True iff the source of every region has sample access enabled (so true without regions). */
    method IsSampleAccessEnabled() returns (enabled: bool)
      ensures enabled <==> forall i :: 0 <= i < |playbackRegions| ==>
                             playbackRegions[i].audioModification.audioSource.sampleAccessEnabled
    {
      var regions := playbackRegions;
      for i := 0 to |regions|
        invariant forall k :: 0 <= k < i ==> regions[k].audioModification.audioSource.sampleAccessEnabled
      {
        if regions[i].audioModification.audioSource.sampleAccessEnabled == false {
          return false;
        }
      }
      return true;
    }

    /** Each listener registered now gets exactly one call, for this sequence, with `event`. */
    predicate DeliveredToListeners(calls: seq<RegionSequenceCall>, event: RegionSequenceEvent)
      reads this
    {
      && |calls| == |listeners|
      && (forall i :: 0 <= i < |calls| ==>
            calls[i].regionSequence == this && calls[i].event == event && calls[i].listener in listeners)
      && (forall j :: 0 <= j < |listeners| ==> exists i :: 0 <= i < |calls| && calls[i].listener == listeners[j])
    }

    method Deliver(event: RegionSequenceEvent) returns (calls: seq<RegionSequenceCall>)
      ensures DeliveredToListeners(calls, event)
    {
      var callFor := (l: object) => RegionSequenceCall(l, this, event);
      calls := CallEach(listeners, callFor);
      forall i | 0 <= i < |calls|
        ensures calls[i].regionSequence == this && calls[i].event == event
        ensures calls[i].listener == listeners[i] && calls[i].listener in listeners
      {
        assert calls[i] == callFor(listeners[i]);
        assert listeners[i] in listeners;
      }
      forall j | 0 <= j < |listeners|
        ensures exists i :: 0 <= i < |calls| && calls[i].listener == listeners[j]
      {
        assert calls[j].listener == listeners[j];
      }
      assert |calls| == |listeners|;
      assert forall i :: 0 <= i < |calls| ==> calls[i].listener in listeners;
      assert forall i :: 0 <= i < |calls| ==> calls[i].event == event;
    }

    method WillUpdateRegionSequenceProperties(newProperties: RegionSequenceProperties) returns (calls: seq<RegionSequenceCall>)
      ensures DeliveredToListeners(calls, RegionSequenceEvent.WillUpdateRegionSequenceProperties(newProperties))
    {
      calls := Deliver(RegionSequenceEvent.WillUpdateRegionSequenceProperties(newProperties));
    }

    method DidUpdateRegionSequenceProperties() returns (calls: seq<RegionSequenceCall>)
      ensures DeliveredToListeners(calls, RegionSequenceEvent.DidUpdateRegionSequenceProperties)
    {
      calls := Deliver(RegionSequenceEvent.DidUpdateRegionSequenceProperties);
    }

    /** Snapshot dispatch of willDestroyRegionSequence, as for audio sources. */
    method WillDestroyRegionSequence(react: object -> seq<Edit<object>>) returns (called: seq<object>)
      modifies this`listeners
      ensures Outcome(called, listeners) == Dispatch(old(listeners), old(listeners), react)
    {
      called, listeners := CallOverSnapshot(listeners, react);
    }

    method AddListener(l: object)
      modifies this`listeners
      ensures listeners == AddIfAbsent(old(listeners), l)
    {
      listeners := AddIfAbsent(listeners, l);
    }

    method RemoveListener(l: object)
      modifies this`listeners
      ensures listeners == RemoveFirst(old(listeners), l)
    {
      listeners := RemoveFirst(listeners, l);
    }
  }

  // ---------------------------------------------------------------------------
  // Document controller: pending content updates

  /** `entries` lists every entry of `m` exactly once, in some order. */
  ghost predicate EntriesOf<K>(entries: seq<(K, Scopes)>, m: map<K, Scopes>)
  {
    && |entries| == |m.Keys|
    && (forall i :: 0 <= i < |entries| ==> entries[i].0 in m && entries[i].1 == m[entries[i].0])
    && (forall i, j :: 0 <= i < j < |entries| ==> entries[i].0 != entries[j].0)
    && (forall k :: k in m ==> exists i :: 0 <= i < |entries| && entries[i].0 == k)
  }

  /** The entries of `m`, in some order (std::map iterates in key order; the keys here are unordered). */
  method Entries<K>(m: map<K, Scopes>) returns (entries: seq<(K, Scopes)>)
    ensures EntriesOf(entries, m)
  {
    var remaining := m.Keys;
    entries := [];
    while remaining != {}
      invariant remaining <= m.Keys
      invariant forall i :: 0 <= i < |entries| ==>
                  entries[i].0 in m && entries[i].0 !in remaining && entries[i].1 == m[entries[i].0]
      invariant forall i, j :: 0 <= i < j < |entries| ==> entries[i].0 != entries[j].0
      invariant forall k :: k in m && k !in remaining ==> exists i :: 0 <= i < |entries| && entries[i].0 == k
      invariant |entries| + |remaining| == |m.Keys|
      decreases remaining
    {
      var k :| k in remaining;
      ghost var before := entries;
      entries := entries + [(k, m[k])];
      remaining := remaining - {k};
      forall k' | k' in m && k' !in remaining
        ensures exists i :: 0 <= i < |entries| && entries[i].0 == k'
      {
        if k' == k {
          assert entries[|before|].0 == k;
        } else {
          var i :| 0 <= i < |before| && before[i].0 == k';
          assert entries[i].0 == k';
        }
      }
    }
  }

  function SourceNotifications(entries: seq<(AudioSource, Scopes)>): (ns: seq<HostNotification>)
    ensures |ns| == |entries| && forall i :: 0 <= i < |ns| ==> ns[i].AudioSourceContentChanged?
  {
    seq(|entries|, i requires 0 <= i < |entries| => AudioSourceContentChanged(entries[i].0, entries[i].1))
  }

  function ModificationNotifications(entries: seq<(AudioModification, Scopes)>): (ns: seq<HostNotification>)
    ensures |ns| == |entries| && forall i :: 0 <= i < |ns| ==> ns[i].AudioModificationContentChanged?
  {
    seq(|entries|, i requires 0 <= i < |entries| => AudioModificationContentChanged(entries[i].0, entries[i].1))
  }

  function RegionNotifications(entries: seq<(PlaybackRegion, Scopes)>): (ns: seq<HostNotification>)
    ensures |ns| == |entries| && forall i :: 0 <= i < |ns| ==> ns[i].PlaybackRegionContentChanged?
  {
    seq(|entries|, i requires 0 <= i < |entries| => PlaybackRegionContentChanged(entries[i].0, entries[i].1))
  }

  /** The position of a notification's kind in the flush: sources, then modifications, then regions. */
  function KindRank(n: HostNotification): nat {
    match n
    case AudioSourceContentChanged(_, _) => 0
    case AudioModificationContentChanged(_, _) => 1
    case PlaybackRegionContentChanged(_, _) => 2
  }

  /** Every source notification precedes every modification notification, and those precede every region notification. */
  predicate InFlushOrder(sent: seq<HostNotification>) {
    forall i, j :: 0 <= i < j < |sent| ==> KindRank(sent[i]) <= KindRank(sent[j])
  }

  /** Whether `n` announces a pending update of `p`, with that object's merged scopes. */
  predicate AnnouncesPending(n: HostNotification, p: PendingUpdates) {
    match n
    case AudioSourceContentChanged(s, x) => s in p.sources && x == p.sources[s]
    case AudioModificationContentChanged(m, x) => m in p.modifications && x == p.modifications[m]
    case PlaybackRegionContentChanged(r, x) => r in p.regions && x == p.regions[r]
  }

  /**
   * `sent` announces exactly the pending updates `p`: one notification per
   * pending object, carrying that object's merged scopes, and nothing else.
   */
  predicate Announces(sent: seq<HostNotification>, p: PendingUpdates) {
    && |sent| == |p.sources.Keys| + |p.modifications.Keys| + |p.regions.Keys|
    && (forall i :: 0 <= i < |sent| ==> AnnouncesPending(sent[i], p))
    && (forall s :: s in p.sources ==> AudioSourceContentChanged(s, p.sources[s]) in sent)
    && (forall m :: m in p.modifications ==> AudioModificationContentChanged(m, p.modifications[m]) in sent)
    && (forall r :: r in p.regions ==> PlaybackRegionContentChanged(r, p.regions[r]) in sent)
  }

  /** Flushing the source map announces each pending source with its accumulated scopes, and nothing else. */
  lemma SourceNotificationsSpec(entries: seq<(AudioSource, Scopes)>, p: PendingUpdates)
    requires EntriesOf(entries, p.sources)
    ensures forall i :: 0 <= i < |entries| ==> AnnouncesPending(SourceNotifications(entries)[i], p)
    ensures forall s :: s in p.sources ==> AudioSourceContentChanged(s, p.sources[s]) in SourceNotifications(entries)
  {
    var ns := SourceNotifications(entries);
    forall s | s in p.sources
      ensures AudioSourceContentChanged(s, p.sources[s]) in ns
    {
      var i :| 0 <= i < |entries| && entries[i].0 == s;
      assert ns[i] == AudioSourceContentChanged(s, p.sources[s]);
    }
  }

  /** Flushing the modification map announces each pending modification with its accumulated scopes, and nothing else. */
  lemma ModificationNotificationsSpec(entries: seq<(AudioModification, Scopes)>, p: PendingUpdates)
    requires EntriesOf(entries, p.modifications)
    ensures forall i :: 0 <= i < |entries| ==> AnnouncesPending(ModificationNotifications(entries)[i], p)
    ensures forall m :: m in p.modifications ==> AudioModificationContentChanged(m, p.modifications[m]) in ModificationNotifications(entries)
  {
    var ns := ModificationNotifications(entries);
    forall m | m in p.modifications
      ensures AudioModificationContentChanged(m, p.modifications[m]) in ns
    {
      var i :| 0 <= i < |entries| && entries[i].0 == m;
      assert ns[i] == AudioModificationContentChanged(m, p.modifications[m]);
    }
  }

  /** Flushing the region map announces each pending region with its accumulated scopes, and nothing else. */
  lemma RegionNotificationsSpec(entries: seq<(PlaybackRegion, Scopes)>, p: PendingUpdates)
    requires EntriesOf(entries, p.regions)
    ensures forall i :: 0 <= i < |entries| ==> AnnouncesPending(RegionNotifications(entries)[i], p)
    ensures forall r :: r in p.regions ==> PlaybackRegionContentChanged(r, p.regions[r]) in RegionNotifications(entries)
  {
    var ns := RegionNotifications(entries);
    forall r | r in p.regions
      ensures PlaybackRegionContentChanged(r, p.regions[r]) in ns
    {
      var i :| 0 <= i < |entries| && entries[i].0 == r;
      assert ns[i] == PlaybackRegionContentChanged(r, p.regions[r]);
    }
  }

  /** The three flushed lists, sources first, together announce exactly the pending updates. */
  lemma {:induction false} NotificationsAnnounce(a: seq<HostNotification>, b: seq<HostNotification>, c: seq<HostNotification>, p: PendingUpdates)
    requires |a| == |p.sources.Keys| && |b| == |p.modifications.Keys| && |c| == |p.regions.Keys|
    requires forall i :: 0 <= i < |a| ==> AnnouncesPending(a[i], p)
    requires forall i :: 0 <= i < |b| ==> AnnouncesPending(b[i], p)
    requires forall i :: 0 <= i < |c| ==> AnnouncesPending(c[i], p)
    requires forall s :: s in p.sources ==> AudioSourceContentChanged(s, p.sources[s]) in a
    requires forall m :: m in p.modifications ==> AudioModificationContentChanged(m, p.modifications[m]) in b
    requires forall r :: r in p.regions ==> PlaybackRegionContentChanged(r, p.regions[r]) in c
    ensures Announces(a + b + c, p)
  {
    var sent := a + b + c;
    forall i | 0 <= i < |sent|
      ensures AnnouncesPending(sent[i], p)
    {
      if i < |a| {
        assert sent[i] == a[i];
      } else if i < |a| + |b| {
        assert sent[i] == b[i - |a|];
      } else {
        assert sent[i] == c[i - |a| - |b|];
      }
    }
  }

  class DocumentController {
    var audioSourceUpdates: map<AudioSource, Scopes>
    var audioModificationUpdates: map<AudioModification, Scopes>
    var playbackRegionUpdates: map<PlaybackRegion, Scopes>

    constructor ()
      ensures Updates() == PendingUpdates(map[], map[], map[])
    {
      audioSourceUpdates := map[];
      audioModificationUpdates := map[];
      playbackRegionUpdates := map[];
    }

    function Updates(): PendingUpdates
      reads this
    {
      PendingUpdates(audioSourceUpdates, audioModificationUpdates, playbackRegionUpdates)
    }

    method NotifyAudioSourceContentChanged(audioSource: AudioSource, scopeFlags: Scopes, notifyAllAudioModificationsAndPlaybackRegions: bool)
      modifies this
      ensures Updates() == AfterSourceChange(old(Updates()), audioSource, scopeFlags, notifyAllAudioModificationsAndPlaybackRegions)
    {
      audioSourceUpdates := MergeInto(audioSourceUpdates, audioSource, scopeFlags);
      if notifyAllAudioModificationsAndPlaybackRegions {
        var modifications := audioSource.audioModifications;
        ghost var p := Updates();
        for i := 0 to |modifications|
          invariant audioSourceUpdates == p.sources
          invariant audioModificationUpdates == MergeAll(p.modifications, modifications[..i], scopeFlags)
          invariant playbackRegionUpdates == MergeAll(p.regions, RegionsOf(modifications[..i]), scopeFlags)
        {
          CascadeStep(p, modifications, i, scopeFlags);
          NotifyAudioModificationContentChanged(modifications[i], scopeFlags, true);
        }
        assert modifications[..|modifications|] == modifications;
      }
    }

    method NotifyAudioModificationContentChanged(audioModification: AudioModification, scopeFlags: Scopes, notifyAllPlaybackRegions: bool)
      modifies this
      ensures Updates() == AfterModificationChange(old(Updates()), audioModification, scopeFlags, notifyAllPlaybackRegions)
    {
      audioModificationUpdates := MergeInto(audioModificationUpdates, audioModification, scopeFlags);
      if notifyAllPlaybackRegions {
        var regions := audioModification.playbackRegions;
        ghost var p := Updates();
        for i := 0 to |regions|
          invariant audioSourceUpdates == p.sources && audioModificationUpdates == p.modifications
          invariant playbackRegionUpdates == MergeAll(p.regions, regions[..i], scopeFlags)
        {
          NotifyPlaybackRegionContentChanged(regions[i], scopeFlags);
          assert regions[..i + 1] == regions[..i] + [regions[i]];
          MergeAllAppend(p.regions, regions[..i], [regions[i]], scopeFlags);
        }
        assert regions[..|regions|] == regions;
      }
    }

    method NotifyPlaybackRegionContentChanged(playbackRegion: PlaybackRegion, scopeFlags: Scopes)
      modifies this
      ensures Updates() == AfterRegionChange(old(Updates()), playbackRegion, scopeFlags)
    {
      playbackRegionUpdates := MergeInto(playbackRegionUpdates, playbackRegion, scopeFlags);
    }

    /**
     * Sends one notification per pending entry, carrying its accumulated
     * scopes, to the host's model update controller when there is one
     * (sources first, then modifications, then regions), and clears all
     * three maps in either case.
     */
    method DoNotifyModelUpdates(hasModelUpdateController: bool) returns (sent: seq<HostNotification>)
      modifies this
      ensures Updates() == PendingUpdates(map[], map[], map[])
      ensures !hasModelUpdateController ==> sent == []
      ensures hasModelUpdateController ==> Announces(sent, old(Updates())) && InFlushOrder(sent)
    {
      sent := [];
      if hasModelUpdateController {
        sent := PendingNotifications();
      }
      audioSourceUpdates := map[];
      audioModificationUpdates := map[];
      playbackRegionUpdates := map[];
    }

    /** The notifications for every pending update, one per object, in the order sources, modifications, regions. */
    method PendingNotifications() returns (sent: seq<HostNotification>)
      ensures Announces(sent, Updates())
      ensures InFlushOrder(sent)
    {
      var sourceEntries := Entries(audioSourceUpdates);
      var modificationEntries := Entries(audioModificationUpdates);
      var regionEntries := Entries(playbackRegionUpdates);
      var a := SourceNotifications(sourceEntries);
      var b := ModificationNotifications(modificationEntries);
      var c := RegionNotifications(regionEntries);
      SourceNotificationsSpec(sourceEntries, Updates());
      ModificationNotificationsSpec(modificationEntries, Updates());
      RegionNotificationsSpec(regionEntries, Updates());
      NotificationsAnnounce(a, b, c, Updates());
      sent := a + b + c;
      assert forall i :: 0 <= i < |sent| ==>
        KindRank(sent[i]) == if i < |a| then 0 else if i < |a| + |b| then 1 else 2;
    }

    /** The head and tail time the region currently holds, for the host. */
    method DoGetPlaybackRegionHeadAndTailTime(playbackRegion: PlaybackRegion) returns (headTime: real, tailTime: real)
      ensures headTime == playbackRegion.headTime && tailTime == playbackRegion.tailTime
    {
      headTime := playbackRegion.headTime;
      tailTime := playbackRegion.tailTime;
    }
  }
}
