# ARA plug-in client: a Dafny model

This project models the non-UI core of JUCE's ARA plug-in client module. ARA (Audio Random Access) lets a host hand its document graph to a plug-in. The graph holds audio sources, the audio modifications of each source, and the playback regions of each modification, arranged in region sequences. The model covers:

- **Audio readers.**
  - `AudioSourceReader` reads a source through the host's audio reader. It guards the read with a read/write lock that the document-controller thread takes while the source changes. It drops and recreates the host reader as sample access is disabled and enabled, on sample-affecting content updates, and when the source is destroyed.
  - `PlaybackRegionReader` and `RegionSequenceReader` fold their regions into a reader format. The first non-zero source rate wins, regions with another rate are skipped, and the channel count and length are maxima over the kept regions. They hand the kept regions to a playback renderer.
  - The sequence reader also keeps the renderer's regions in step with regions joining and leaving its sequence.
- **Pending content updates.** The document controller has three maps, one each for sources, modifications and regions, from object to accumulated content-update scopes. `notify…ContentChanged` merges scopes into them, optionally cascading from a source to its modifications to their regions. `doNotifyModelUpdates` sends one host notification per entry and then clears all three maps.
- **The ARA factory.** Configuration bitmasks become the list of analyzeable content types and the set of supported playback transformations. The descriptor is built on first use only.
- **Model-object helpers.**
  - A region sequence's time range, common sample rate and "all sources have sample access" check.
  - Head and tail setters that send a sample-affecting content change.
  - Listener registration.
  - Forwarding notifications.
  - The snapshot dispatch of the "will destroy" notifications, which skips listeners removed mid-dispatch.
- **Instance roles.** The playback renderer's format state, its silent `processBlock` and its list of regions. The editor view's ordered vector of selection listeners.

Modules:
- `ContentScopes`: scopes as sets of affected aspects.
- `ListenerLists`: registration lists and snapshot dispatch.
- `ReadWriteLocks`: the lock as sequential state.
- `SampleBuffers`: destination channel arrays and the zero-fill loops.
- `ModelObjects`: the graph classes and the document controller.
- `AraFactory`: the factory descriptor.
- `InstanceRoles`: the playback renderer and the editor view.
- `RegionFormats`: the reader-format fold as a specification.
- `AudioReaders`: the three readers.

Calls into code that is not part of this model become parameters:
- The host's `readAudioSamples` becomes a function `HostRead`.
- `getEndInPlaybackSamples` becomes a function `SamplePosition`.
- The document controller, reached in C++ through the document, is passed in explicitly.
- Whether the host supplied a model-update controller is a `bool`.

## Model

All source paths are under `modules/juce_audio_plugin_client/ARA/`; the table writes them out in full.

| member | source | states |
|---|---|---|
| ListenerLists.AddIfAbsent | modules/juce_audio_plugin_client/ARA/juce_ARAAudioSource.cpp:56-59 | the listener is registered afterwards; every earlier listener stays registered; nothing else is added; a list without duplicates keeps none |
| ListenerLists.RemoveFirst | modules/juce_audio_plugin_client/ARA/juce_ARAAudioSource.cpp:61-64 | the list shrinks by one exactly when the listener was registered; every other listener stays; nothing new appears; an absent listener leaves the list alone; without duplicates the listener is gone afterwards |
| ListenerLists.RemoveFirstCutsFirstOccurrence | modules/juce_audio_plugin_client/ARA/juce_ARAPlugInInstanceRoles.cpp:70-73 | removal cuts out exactly the first occurrence and keeps the rest in order |
| ListenerLists.ApplyEdits | modules/juce_audio_plugin_client/ARA/juce_ARAAudioSource.cpp:51-52 | registrations and removals made by callbacks keep a list free of duplicates |
| ListenerLists.Dispatch | modules/juce_audio_plugin_client/ARA/juce_ARAAudioSource.cpp:48-53 | only listeners of the snapshot are called, and each at most once when the snapshot has no duplicates |
| ListenerLists.DispatchAppend | modules/juce_audio_plugin_client/ARA/juce_ARAAudioSource.cpp:48-53 | dispatching over a concatenated snapshot is dispatching over the first part, then over the second from the list the first part left |
| ListenerLists.CalledIffStillRegistered | modules/juce_audio_plugin_client/ARA/juce_ARAAudioSource.cpp:51-52 | a listener is called iff it is still registered after the callbacks of the listeners before it; one removed earlier is skipped |
| ListenerLists.NewcomerNotCalled | modules/juce_audio_plugin_client/ARA/juce_ARAAudioSource.cpp:48 | a listener outside the snapshot, such as one added during the dispatch, is never called |
| ListenerLists.UndisturbedDispatchCallsAll | modules/juce_audio_plugin_client/ARA/juce_ARAAudioSource.cpp:48-53 | when no callback changes the registrations, every snapshot listener is called once, in order, and the list is unchanged |
| ListenerLists.CallOverSnapshot | modules/juce_audio_plugin_client/ARA/juce_ARAAudioSource.cpp:48-53 | the copy-then-check loop produces exactly the calls and the final list of the snapshot dispatch |
| ListenerLists.CallEach | modules/juce_audio_plugin_client/ARA/juce_ARAPlugInInstanceRoles.cpp:53-63 | one call per registered listener, in list order, built from that listener |
| ContentScopes.Merge | modules/juce_audio_plugin_client/ARA/juce_ARADocumentController.cpp:95 | `+=` loses nothing either side affects, affects samples iff either side does, and leaves a value unchanged when merged into an entry with nothing affected |
| ContentScopes.AffectSamples | modules/juce_audio_plugin_client/ARA/juce_ARAAudioReaders.cpp:79 | whether the samples are among the affected aspects; DoUpdateAudioSourceContent drops the host reader exactly then |
| ReadWriteLocks.ReadWriteLock.constructor | modules/juce_audio_plugin_client/ARA/juce_ARAAudioReaders.h:36-37 | a new lock has no writer and no readers |
| ReadWriteLocks.ReadWriteLock.TryEnterRead | modules/juce_audio_plugin_client/ARA/juce_ARAAudioReaders.cpp:108 | the read is taken, and counted, iff no writer holds the lock; the write depth is unchanged |
| ReadWriteLocks.ReadWriteLock.ExitRead | modules/juce_audio_plugin_client/ARA/juce_ARAAudioReaders.cpp:128 | releases one held read; the write depth is unchanged |
| ReadWriteLocks.ReadWriteLock.EnterWrite | modules/juce_audio_plugin_client/ARA/juce_ARAAudioReaders.cpp:39 | the writer takes, or re-enters, the lock; the readers are unchanged |
| ReadWriteLocks.ReadWriteLock.ExitWrite | modules/juce_audio_plugin_client/ARA/juce_ARAAudioReaders.cpp:57 | releases one write acquisition; the readers are unchanged |
| SampleBuffers.ClearRange | modules/juce_audio_plugin_client/ARA/juce_ARAAudioReaders.cpp:111 | the span is silent and every sample outside it is unchanged |
| SampleBuffers.ClearChannels | modules/juce_audio_plugin_client/ARA/juce_ARAAudioReaders.cpp:110-111 | every requested span of every channel is silent, even when channels share an array; nothing outside the spans changes |
| SampleBuffers.ClearPresentChannels | modules/juce_audio_plugin_client/ARA/juce_ARAAudioReaders.cpp:110-111 | like ClearChannels, skipping channels that are absent |
| AraFactory.ContentTypeIndex | modules/juce_audio_plugin_client/ARA/juce_ARADocumentController.cpp:45-62 | each content type has a bit index below seven, and the listed order maps that index back to the type |
| AraFactory.TransformationIndex | modules/juce_audio_plugin_client/ARA/juce_ARADocumentController.cpp:64-77 | each transformation has a bit index below four, and the listed order maps that index back to the flag |
| AraFactory.BitSet | modules/juce_audio_plugin_client/ARA/juce_ARADocumentController.cpp:57 | `mask & (1 << i)` is non-zero; used by every bit-selection lemma below |
| AraFactory.ContentTypesBelow | modules/juce_audio_plugin_client/ARA/juce_ARADocumentController.cpp:55-59 | the loop's first n turns; characterised by ContentTypesBelowMembers and ContentTypesBelowOrdered |
| AraFactory.AnalyzeableContentTypes | modules/juce_audio_plugin_client/ARA/juce_ARADocumentController.cpp:45-62 | the analyzeable content types; characterised by AnalyzeableContentTypesSpec |
| AraFactory.SupportedTransformations | modules/juce_audio_plugin_client/ARA/juce_ARADocumentController.cpp:64-77 | the supported transformation flags; characterised by SupportedTransformationsSpec |
| AraFactory.ContentTypesBelowMembers | modules/juce_audio_plugin_client/ARA/juce_ARADocumentController.cpp:45-62 | a type is in the list built from the first n bits iff its index is below n and its bit is set |
| AraFactory.ContentTypesBelowOrdered | modules/juce_audio_plugin_client/ARA/juce_ARADocumentController.cpp:45-62 | that list is strictly increasing in bit index |
| AraFactory.AnalyzeableContentTypesSpec | modules/juce_audio_plugin_client/ARA/juce_ARADocumentController.cpp:45-62 | the analyzeable content types are exactly the types whose bit is set, each once, in index order |
| AraFactory.SupportedTransformationsSpec | modules/juce_audio_plugin_client/ARA/juce_ARADocumentController.cpp:64-77 | a transformation is supported iff its bit is set |
| AraFactory.CollectContentTypes | modules/juce_audio_plugin_client/ARA/juce_ARADocumentController.cpp:45-62 | the push_back loop yields the analyzeable content types of the mask |
| AraFactory.CollectTransformationFlags | modules/juce_audio_plugin_client/ARA/juce_ARADocumentController.cpp:64-77 | the loop, starting from no flags, yields the supported transformations of the mask |
| AraFactory.Factory.constructor | modules/juce_audio_plugin_client/ARA/juce_ARADocumentController.cpp:61-62 | the count field equals the length of the content-type list |
| AraFactory.FactorySingleton.constructor | modules/juce_audio_plugin_client/ARA/juce_ARADocumentController.cpp:7 | before the first call no factory exists |
| AraFactory.FactorySingleton.GetARAFactory | modules/juce_audio_plugin_client/ARA/juce_ARADocumentController.cpp:7-80 | the first call builds a fresh factory from the masks; every later call returns that same factory |
| InstanceRoles.PlaybackRenderer.constructor | modules/juce_audio_plugin_client/ARA/juce_ARAPlugInInstanceRoles.cpp:6-10 | a new renderer has rate 44100 and block size 1024, and no regions |
| InstanceRoles.PlaybackRenderer.PrepareToPlay | modules/juce_audio_plugin_client/ARA/juce_ARAPlugInInstanceRoles.cpp:12-18 | stores exactly the given rate and block size and turns rendering on |
| InstanceRoles.PlaybackRenderer.ReleaseResources | modules/juce_audio_plugin_client/ARA/juce_ARAPlugInInstanceRoles.cpp:20-23 | turns rendering off |
| InstanceRoles.PlaybackRenderer.ProcessBlock | modules/juce_audio_plugin_client/ARA/juce_ARAPlugInInstanceRoles.cpp:25-30 | given a block no larger than the prepared size, every sample of every channel is zero afterwards |
| InstanceRoles.PlaybackRenderer.AddPlaybackRegion | modules/juce_audio_plugin_client/ARA/juce_ARAPlugInInstanceRoles.cpp:32-35 | the region is appended to the renderer's regions |
| InstanceRoles.PlaybackRenderer.RemovePlaybackRegion | modules/juce_audio_plugin_client/ARA/juce_ARAPlugInInstanceRoles.cpp:36-39 | the first occurrence of the region is removed |
| InstanceRoles.EditorView.constructor | modules/juce_audio_plugin_client/ARA/juce_ARAPlugInInstanceRoles.h:66 | a new view has no selection listeners |
| InstanceRoles.EditorView.DoNotifySelection | modules/juce_audio_plugin_client/ARA/juce_ARAPlugInInstanceRoles.cpp:53-57 | each listener gets onNewSelection once, in vector order, with the same selection |
| InstanceRoles.EditorView.DoNotifyHideRegionSequences | modules/juce_audio_plugin_client/ARA/juce_ARAPlugInInstanceRoles.cpp:59-63 | each listener gets onHideRegionSequences once, in vector order, with the same sequences |
| InstanceRoles.EditorView.AddSelectionListener | modules/juce_audio_plugin_client/ARA/juce_ARAPlugInInstanceRoles.cpp:65-68 | appends the listener at the end, even when it is already there |
| InstanceRoles.EditorView.RemoveSelectionListener | modules/juce_audio_plugin_client/ARA/juce_ARAPlugInInstanceRoles.cpp:70-73 | removes the first occurrence of the listener, if any |
| ModelObjects.MergeInto | modules/juce_audio_plugin_client/ARA/juce_ARADocumentController.cpp:95 | `updates[k] += s`: the key gains an entry holding what was pending for it and the new scopes; no other entry changes |
| ModelObjects.MergeAllAppend | modules/juce_audio_plugin_client/ARA/juce_ARADocumentController.cpp:99-103 | merging over a concatenation is merging over each part in turn |
| ModelObjects.MergeAllSpec | modules/juce_audio_plugin_client/ARA/juce_ARADocumentController.cpp:112-116 | each listed key gets an entry holding its earlier scopes merged with the new ones; every other entry is unchanged; no other key appears |
| ModelObjects.MergeAllKeeps | modules/juce_audio_plugin_client/ARA/juce_ARADocumentController.cpp:95 | a merge never loses an entry or a pending scope |
| ModelObjects.RegionsOfAppend | modules/juce_audio_plugin_client/ARA/juce_ARADocumentController.cpp:99-103 | the regions of concatenated modification lists are the concatenated regions |
| ModelObjects.RegionsOfMembers | modules/juce_audio_plugin_client/ARA/juce_ARADocumentController.cpp:99-103 | a region is reached by the cascade iff one of the modifications lists it |
| ModelObjects.SourceSampleRates | modules/juce_audio_plugin_client/ARA/juce_ARAModelObjects.cpp:56-58 | one rate per region, that of its modification's audio source |
| ModelObjects.CommonRateFromAgreeing | modules/juce_audio_plugin_client/ARA/juce_ARAModelObjects.cpp:52-64 | from 0 or the shared value, a run of equal rates yields that rate |
| ModelObjects.CommonRateFromNonzero | modules/juce_audio_plugin_client/ARA/juce_ARAModelObjects.cpp:52-64 | a non-zero result is the running value if set, and every rate is the result or 0 |
| ModelObjects.CommonRateFrom | modules/juce_audio_plugin_client/ARA/juce_ARAModelObjects.cpp:54-63 | the loop from a running value; its properties are stated by CommonRateFromAgreeing, CommonRateFromNonzero, CommonRateFromSet and CommonRateFromZero |
| ModelObjects.CommonRateFromSet | modules/juce_audio_plugin_client/ARA/juce_ARAModelObjects.cpp:58-63 | once the running value is non-zero, the result is that value if every remaining rate equals it, and 0 otherwise |
| ModelObjects.CommonRateFromZero | modules/juce_audio_plugin_client/ARA/juce_ARAModelObjects.cpp:54-63 | from 0, the result is non-zero iff the remaining rates are 0 up to a non-zero rate that every later rate repeats, and is then that rate |
| ModelObjects.CommonSampleRate | modules/juce_audio_plugin_client/ARA/juce_ARAModelObjects.cpp:52-64 | getCommonSampleRate; its properties are stated by CommonSampleRateSpec |
| ModelObjects.CommonSampleRateSpec | modules/juce_audio_plugin_client/ARA/juce_ARAModelObjects.cpp:52-64 | 0 without regions; the shared rate when all agree; two different non-zero rates give 0; exactly: the result is non-zero iff the rates are zero up to some position k, the rate at k is non-zero and every later rate equals it, and then the result is the rate at k |
| ModelObjects.AfterSourceChange | modules/juce_audio_plugin_client/ARA/juce_ARADocumentController.cpp:93-104 | the pending maps after notifyAudioSourceContentChanged; its properties are stated by SourceChangeSpec and CascadeRegionOrigin |
| ModelObjects.AfterModificationChange | modules/juce_audio_plugin_client/ARA/juce_ARADocumentController.cpp:106-117 | the pending maps after notifyAudioModificationContentChanged; its properties are stated by ModificationChangeSpec |
| ModelObjects.AfterRegionChange | modules/juce_audio_plugin_client/ARA/juce_ARADocumentController.cpp:119-124 | only the region map changes: the region's entry gains the scopes and every other entry stays |
| ModelObjects.CascadeStep | modules/juce_audio_plugin_client/ARA/juce_ARADocumentController.cpp:99-103 | one more modification of the cascade extends both merged prefixes by it and its regions |
| ModelObjects.ModificationChangeSpec | modules/juce_audio_plugin_client/ARA/juce_ARADocumentController.cpp:106-117 | the modification's entry gains the scopes; with the cascade each of its regions has an entry holding them; without it the region map is unchanged; the source map never changes; only those regions gain entries |
| ModelObjects.SourceChangeSpec | modules/juce_audio_plugin_client/ARA/juce_ARADocumentController.cpp:93-104 | the source's entry gains the scopes; with the cascade every modification and each of its regions has an entry holding them, and no other region gains one; without it only the source map changes |
| ModelObjects.CascadeRegionOrigin | modules/juce_audio_plugin_client/ARA/juce_ARADocumentController.cpp:99-103 | a region newly pending after the cascade belongs to one of the source's modifications |
| ModelObjects.AudioSource.constructor | modules/juce_audio_plugin_client/ARA/juce_ARAAudioSource.cpp:6-8 | a new source holds the given properties, no modifications and no listeners |
| ModelObjects.AudioSource.Deliver | modules/juce_audio_plugin_client/ARA/juce_ARAAudioSource.cpp:10-38 | every registered listener gets one call carrying this source and the event, and nothing else is called |
| ModelObjects.AudioSource.WillUpdateAudioSourceProperties | modules/juce_audio_plugin_client/ARA/juce_ARAAudioSource.cpp:10-13 | forwards this source and the new properties to each listener |
| ModelObjects.AudioSource.DidUpdateAudioSourceProperties | modules/juce_audio_plugin_client/ARA/juce_ARAAudioSource.cpp:15-18 | forwards this source to each listener |
| ModelObjects.AudioSource.DoUpdateAudioSourceContent | modules/juce_audio_plugin_client/ARA/juce_ARAAudioSource.cpp:20-23 | forwards this source, the range and the scopes to each listener |
| ModelObjects.AudioSource.WillEnableAudioSourceSamplesAccess | modules/juce_audio_plugin_client/ARA/juce_ARAAudioSource.cpp:25-28 | forwards this source and the flag to each listener |
| ModelObjects.AudioSource.DidEnableAudioSourceSamplesAccess | modules/juce_audio_plugin_client/ARA/juce_ARAAudioSource.cpp:30-33 | forwards this source and the flag to each listener |
| ModelObjects.AudioSource.DoDeactivateAudioSourceForUndoHistory | modules/juce_audio_plugin_client/ARA/juce_ARAAudioSource.cpp:35-38 | forwards this source and the flag to each listener |
| ModelObjects.AudioSource.WillDestroyAudioSource | modules/juce_audio_plugin_client/ARA/juce_ARAAudioSource.cpp:40-54 | the listeners called and the list left are those of the snapshot dispatch over the list as it was |
| ModelObjects.AudioSource.AddListener | modules/juce_audio_plugin_client/ARA/juce_ARAAudioSource.cpp:56-59 | registers the listener unless it already is |
| ModelObjects.AudioSource.RemoveListener | modules/juce_audio_plugin_client/ARA/juce_ARAAudioSource.cpp:61-64 | unregisters the listener |
| ModelObjects.AudioSource.NotifyContentChanged | modules/juce_audio_plugin_client/ARA/juce_ARAModelObjects.cpp:72-76 | the controller's pending updates change as a source content change with the same scopes and cascade flag |
| ModelObjects.AudioModification.constructor | modules/juce_audio_plugin_client/ARA/juce_ARAModelObjects.cpp:80-82 | a new modification belongs to the given source and has no regions |
| ModelObjects.AudioModification.NotifyContentChanged | modules/juce_audio_plugin_client/ARA/juce_ARAModelObjects.cpp:84-88 | the controller's pending updates change as a modification content change with the same scopes and cascade flag |
| ModelObjects.PlaybackRegion.constructor | modules/juce_audio_plugin_client/ARA/juce_ARAModelObjects.cpp:92-94 | a new region has the given modification, sequence and span, zero head and tail time, and no listeners |
| ModelObjects.PlaybackRegion.SetHeadTime | modules/juce_audio_plugin_client/ARA/juce_ARAModelObjects.cpp:96-100 | sets the head time, and the region's pending entry gains the samples scope |
| ModelObjects.PlaybackRegion.SetTailTime | modules/juce_audio_plugin_client/ARA/juce_ARAModelObjects.cpp:102-106 | sets the tail time, and the region's pending entry gains the samples scope |
| ModelObjects.PlaybackRegion.SetHeadAndTailTime | modules/juce_audio_plugin_client/ARA/juce_ARAModelObjects.cpp:108-113 | sets both times, and the region's pending entry gains the samples scope |
| ModelObjects.PlaybackRegion.NotifyContentChanged | modules/juce_audio_plugin_client/ARA/juce_ARAModelObjects.cpp:115-119 | the controller's pending updates change as a region content change with the same scopes |
| ModelObjects.PlaybackRegion.AddListener | modules/juce_audio_plugin_client/ARA/juce_ARAPlaybackRegion.h:28 | registers the listener unless it already is |
| ModelObjects.PlaybackRegion.RemoveListener | modules/juce_audio_plugin_client/ARA/juce_ARAPlaybackRegion.h:28 | unregisters the listener |
| ModelObjects.RegionSequence.constructor | modules/juce_audio_plugin_client/ARA/juce_ARARegionSequence.cpp:7-9 | a new sequence holds the given properties, no regions and no listeners |
| ModelObjects.RegionSequence.GetTimeRange | modules/juce_audio_plugin_client/ARA/juce_ARAModelObjects.cpp:24-50 | (0, 0) without regions; otherwise every region's span, widened by head and tail time when asked, lies within the range, and both ends are attained by some region |
| ModelObjects.RegionSequence.GetCommonSampleRate | modules/juce_audio_plugin_client/ARA/juce_ARAModelObjects.cpp:52-64 | the loop, which stops at the first disagreeing rate, yields the common-rate fold over the sources' rates |
| ModelObjects.RegionSequence.IsSampleAccessEnabled | modules/juce_audio_plugin_client/ARA/juce_ARARegionSequence.cpp:11-17 | true iff every region's source has sample access enabled, so true without regions |
| ModelObjects.RegionSequence.Deliver | modules/juce_audio_plugin_client/ARA/juce_ARARegionSequence.cpp:19-27 | every registered listener gets one call carrying this sequence and the event, and nothing else is called |
| ModelObjects.RegionSequence.WillUpdateRegionSequenceProperties | modules/juce_audio_plugin_client/ARA/juce_ARARegionSequence.cpp:19-22 | forwards this sequence and the new properties to each listener |
| ModelObjects.RegionSequence.DidUpdateRegionSequenceProperties | modules/juce_audio_plugin_client/ARA/juce_ARARegionSequence.cpp:24-27 | forwards this sequence to each listener |
| ModelObjects.RegionSequence.WillDestroyRegionSequence | modules/juce_audio_plugin_client/ARA/juce_ARARegionSequence.cpp:29-39 | the listeners called and the list left are those of the snapshot dispatch over the list as it was |
| ModelObjects.RegionSequence.AddListener | modules/juce_audio_plugin_client/ARA/juce_ARARegionSequence.cpp:41-44 | registers the listener unless it already is; nothing else changes |
| ModelObjects.RegionSequence.RemoveListener | modules/juce_audio_plugin_client/ARA/juce_ARARegionSequence.cpp:46-49 | unregisters the listener; nothing else changes |
| ModelObjects.Entries | modules/juce_audio_plugin_client/ARA/juce_ARADocumentController.cpp:148-155 | iterating a map lists each entry exactly once, with its scopes |
| ModelObjects.SourceNotifications | modules/juce_audio_plugin_client/ARA/juce_ARADocumentController.cpp:148-149 | one source notification per entry |
| ModelObjects.ModificationNotifications | modules/juce_audio_plugin_client/ARA/juce_ARADocumentController.cpp:150-151 | one modification notification per entry |
| ModelObjects.RegionNotifications | modules/juce_audio_plugin_client/ARA/juce_ARADocumentController.cpp:152-153 | one region notification per entry |
| ModelObjects.SourceNotificationsSpec | modules/juce_audio_plugin_client/ARA/juce_ARADocumentController.cpp:148-149 | every notification announces a pending source with its merged scopes, and every pending source is announced |
| ModelObjects.ModificationNotificationsSpec | modules/juce_audio_plugin_client/ARA/juce_ARADocumentController.cpp:150-151 | the same for modifications |
| ModelObjects.RegionNotificationsSpec | modules/juce_audio_plugin_client/ARA/juce_ARADocumentController.cpp:152-153 | the same for regions |
| ModelObjects.NotificationsAnnounce | modules/juce_audio_plugin_client/ARA/juce_ARADocumentController.cpp:146-156 | the three lists together announce exactly the pending updates, one notification per entry |
| ModelObjects.DocumentController.constructor | modules/juce_audio_plugin_client/ARA/juce_ARADocumentController.h:245-247 | a new controller has nothing pending |
| ModelObjects.DocumentController.NotifyAudioSourceContentChanged | modules/juce_audio_plugin_client/ARA/juce_ARADocumentController.cpp:93-104 | the pending maps become those of a source content change (see SourceChangeSpec) |
| ModelObjects.DocumentController.NotifyAudioModificationContentChanged | modules/juce_audio_plugin_client/ARA/juce_ARADocumentController.cpp:106-117 | the pending maps become those of a modification content change (see ModificationChangeSpec) |
| ModelObjects.DocumentController.NotifyPlaybackRegionContentChanged | modules/juce_audio_plugin_client/ARA/juce_ARADocumentController.cpp:119-124 | only the region map changes, the region's entry gaining the scopes |
| ModelObjects.DocumentController.DoNotifyModelUpdates | modules/juce_audio_plugin_client/ARA/juce_ARADocumentController.cpp:143-161 | with a model-update controller, exactly one notification per pending entry, carrying its merged scopes; without one, nothing is sent; all three maps are empty afterwards either way; sources are announced first, then modifications, then regions |
| ModelObjects.DocumentController.PendingNotifications | modules/juce_audio_plugin_client/ARA/juce_ARADocumentController.cpp:146-156 | the notifications announce exactly the pending updates, sources first, then modifications, then regions |
| ModelObjects.DocumentController.DoGetPlaybackRegionHeadAndTailTime | modules/juce_audio_plugin_client/ARA/juce_ARADocumentController.cpp:222-227 | returns the region's current head and tail time |
| RegionFormats.Keeps | modules/juce_audio_plugin_client/ARA/juce_ARAAudioReaders.cpp:151-158 | whether one loop turn keeps a region; characterised by KeptIffRateMatches |
| RegionFormats.Step | modules/juce_audio_plugin_client/ARA/juce_ARAAudioReaders.cpp:151-161 | one loop turn over the format; characterised by VisitNext and FormatIsMaxOverKept |
| RegionFormats.FormatAfter | modules/juce_audio_plugin_client/ARA/juce_ARAAudioReaders.cpp:144-164 | the format after the loop; characterised by SampleRateIsFirstNonzero and FormatIsMaxOverKept |
| RegionFormats.KeptInPrefix | modules/juce_audio_plugin_client/ARA/juce_ARAAudioReaders.cpp:146-164 | later regions do not change whether an earlier one is kept |
| RegionFormats.KeptIndices | modules/juce_audio_plugin_client/ARA/juce_ARAAudioReaders.cpp:146-164 | the kept positions are valid and strictly increasing |
| RegionFormats.KeptIndicesSpec | modules/juce_audio_plugin_client/ARA/juce_ARAAudioReaders.cpp:151-158 | a position is among the kept ones iff the loop keeps that region |
| RegionFormats.KeptItems | modules/juce_audio_plugin_client/ARA/juce_ARAAudioReaders.cpp:163 | the regions handed to the renderer are among the given regions |
| RegionFormats.VisitNext | modules/juce_audio_plugin_client/ARA/juce_ARAAudioReaders.cpp:146-164 | one more loop turn takes one step of the format fold and appends the region iff it is kept |
| RegionFormats.KeptItemsAreSelected | modules/juce_audio_plugin_client/ARA/juce_ARAAudioReaders.cpp:146-164 | the regions handed to the renderer are exactly those at the kept positions, in order |
| RegionFormats.SampleRateIsFirstNonzero | modules/juce_audio_plugin_client/ARA/juce_ARAAudioReaders.cpp:151-155 | the reader's rate is 0 iff every source rate is 0, and otherwise the first non-zero source rate |
| RegionFormats.FirstNonzeroUnique | modules/juce_audio_plugin_client/ARA/juce_ARAAudioReaders.cpp:151-155 | the first non-zero rate is at one position only |
| RegionFormats.KeptIffRateMatches | modules/juce_audio_plugin_client/ARA/juce_ARAAudioReaders.cpp:151-158 | a region is kept iff its rate is the reader's rate, or it and all regions before it have rate 0; so a region with another non-zero rate is skipped |
| RegionFormats.FormatIsMaxOverKept | modules/juce_audio_plugin_client/ARA/juce_ARAAudioReaders.cpp:160-161 | every kept region fits within the channel count and length, and each of the two is 0 or attained by a kept region; the length is never negative |
| AudioReaders.RegionFormatOf | modules/juce_audio_plugin_client/ARA/juce_ARAAudioReaders.cpp:148-161 | the rate and channel count of the region's source and the region's end in samples at that rate; RegionFormatsOf applies it to every region |
| AudioReaders.RegionFormatsOf | modules/juce_audio_plugin_client/ARA/juce_ARAAudioReaders.cpp:148-161 | one region format per region, read from the region and its source |
| AudioReaders.AudioSourceReader.constructor | modules/juce_audio_plugin_client/ARA/juce_ARAAudioReaders.cpp:6-21 | copies rate, channel count and length from the source, sizes the pointer table to the channel count, listens to the source, and has a host reader iff sample access is enabled |
| AudioReaders.AudioSourceReader.Destroy | modules/juce_audio_plugin_client/ARA/juce_ARAAudioReaders.cpp:23-31 | stops listening to the source, drops the host reader under the write lock, and leaves the lock as it was; needs a source |
| AudioReaders.AudioSourceReader.DestroyCorrected | modules/juce_audio_plugin_client/ARA/juce_ARAAudioReaders.cpp:23-31 | the same, also when the source is already gone |
| AudioReaders.AudioSourceReader.WillEnableAudioSourceSamplesAccess | modules/juce_audio_plugin_client/ARA/juce_ARAAudioReaders.cpp:33-44 | for another source nothing changes; for its own source the write lock is taken and kept, and the host reader is dropped when access is disabled |
| AudioReaders.AudioSourceReader.DidEnableAudioSourceSamplesAccess | modules/juce_audio_plugin_client/ARA/juce_ARAAudioReaders.cpp:46-58 | for another source nothing changes; for its own source the host reader is recreated when access is enabled, and the write lock is released |
| AudioReaders.AudioSourceReader.WillDestroyAudioSource | modules/juce_audio_plugin_client/ARA/juce_ARAAudioReaders.cpp:60-71 | for its own source the host reader is dropped and the source forgotten, under the write lock; otherwise nothing changes |
| AudioReaders.AudioSourceReader.DoUpdateAudioSourceContent | modules/juce_audio_plugin_client/ARA/juce_ARAAudioReaders.cpp:73-84 | the host reader is dropped iff the update is for its source and affects samples |
| AudioReaders.AudioSourceReader.Recreate | modules/juce_audio_plugin_client/ARA/juce_ARAAudioReaders.cpp:86-93 | a new host reader for the source being read |
| AudioReaders.AudioSourceReader.Invalidate | modules/juce_audio_plugin_client/ARA/juce_ARAAudioReaders.cpp:95-98 | no host reader afterwards, also when there was none |
| AudioReaders.AudioSourceReader.MapChannels | modules/juce_audio_plugin_client/ARA/juce_ARAAudioReaders.cpp:117-125 | source channel c points into destination channel c at the offset when the caller gave it, else into the dummy buffer, which then holds at least the requested samples |
| AudioReaders.AudioSourceReader.ReadSamples | modules/juce_audio_plugin_client/ARA/juce_ARAAudioReaders.cpp:100-130 | as written: without the lock or a host reader, the first n samples of each channel are zeroed and the result is false, and a read taken is kept; otherwise channels are mapped, the result is the host's, and the lock is released |
| AudioReaders.AudioSourceReader.ReadSamplesCorrected | modules/juce_audio_plugin_client/ARA/juce_ARAAudioReaders.cpp:100-130 | as intended: the lock always ends as it began, and a failed read zeroes exactly the requested span of each channel given |
| AudioReaders.PlaybackRegionReader.constructor | modules/juce_audio_plugin_client/ARA/juce_ARAAudioReaders.cpp:134-165 | 32-bit float; the format is the fold over the regions' formats; exactly the kept regions are appended to the renderer, in order |
| AudioReaders.PlaybackRegionReader.WithoutRegions | modules/juce_audio_plugin_client/ARA/juce_ARAAudioReaders.cpp:197 | with no regions the format is all zeros |
| AudioReaders.PlaybackRegionReader.VisitAll | modules/juce_audio_plugin_client/ARA/juce_ARAAudioReaders.cpp:146-164 | the loop yields the fold over the regions' formats and appends exactly the kept regions |
| AudioReaders.PlaybackRegionReader.Visit | modules/juce_audio_plugin_client/ARA/juce_ARAAudioReaders.cpp:147-163 | one region: skipped on a rate mismatch, otherwise kept, widening the format and joining the renderer |
| AudioReaders.PlaybackRegionReader.VisitRegion | modules/juce_audio_plugin_client/ARA/juce_ARAAudioReaders.cpp:214-226 | the same turn, on the reader's own format fields |
| AudioReaders.PlaybackRegionReader.ReadSamples | modules/juce_audio_plugin_client/ARA/juce_ARAAudioReaders.cpp:173-192 | as written: succeeds iff no writer holds the lock; on failure the first n samples of each channel are zeroed; the lock ends as it began |
| AudioReaders.PlaybackRegionReader.ReadSamplesCorrected | modules/juce_audio_plugin_client/ARA/juce_ARAAudioReaders.cpp:173-192 | as intended: on failure exactly the requested span of each channel given is zeroed |
| AudioReaders.RegionSequenceReader.constructor | modules/juce_audio_plugin_client/ARA/juce_ARAAudioReaders.cpp:196-229 | the format is the fold over the sequence's regions; exactly the kept regions join the renderer and are listened to; other regions' listeners are unchanged |
| AudioReaders.RegionSequenceReader.FollowAll | modules/juce_audio_plugin_client/ARA/juce_ARAAudioReaders.cpp:208-228 | the loop over the sequence's regions yields the fold, adds the kept regions to the renderer and listens exactly to them |
| AudioReaders.RegionSequenceReader.FollowNext | modules/juce_audio_plugin_client/ARA/juce_ARAAudioReaders.cpp:208-228 | one turn extends the format, the renderer's regions and the listened regions by this region iff it is kept |
| AudioReaders.RegionSequenceReader.WillUpdatePlaybackRegionProperties | modules/juce_audio_plugin_client/ARA/juce_ARAAudioReaders.cpp:238-255 | a rendered region leaving the sequence is dropped and no longer listened to; an unrendered region joining it is added and listened to; otherwise nothing changes; afterwards the region is rendered iff it belongs to the sequence |
| AudioReaders.RegionSequenceReader.WillDestroyPlaybackRegion | modules/juce_audio_plugin_client/ARA/juce_ARAAudioReaders.cpp:257-265 | the region is no longer rendered, and is no longer listened to if it was rendered; other regions are untouched |
| AudioReaders.ReadLockLeakAsWritten | modules/juce_audio_plugin_client/ARA/juce_ARAAudioReaders.cpp:108 | a read with the lock free and no host reader leaves one more read held |
| AudioReaders.ReadLockReleasedCorrected | modules/juce_audio_plugin_client/ARA/juce_ARAAudioReaders.cpp:108 | the same read through the corrected method leaves the lock as it was |
| AudioReaders.ClearIgnoresOffsetAsWritten | modules/juce_audio_plugin_client/ARA/juce_ARAAudioReaders.cpp:183-184 | a failed read of two samples at offset 2 into [1, 1, 1, 1] yields [0, 0, 1, 1] |
| AudioReaders.ClearsRequestedSpanCorrected | modules/juce_audio_plugin_client/ARA/juce_ARAAudioReaders.cpp:183-184 | the same read through the corrected method yields [1, 1, 0, 0] |
| AudioReaders.SourceClearIgnoresOffsetAsWritten | modules/juce_audio_plugin_client/ARA/juce_ARAAudioReaders.cpp:110-111 | a failed source read of two samples at offset 2 into [1, 1, 1, 1] yields [0, 0, 1, 1] |
| AudioReaders.SourceClearsRequestedSpanCorrected | modules/juce_audio_plugin_client/ARA/juce_ARAAudioReaders.cpp:110-111 | the same read through the corrected method yields [1, 1, 0, 0] |
| AudioReaders.DestroyAfterSourceDestroyedAsWritten | modules/juce_audio_plugin_client/ARA/juce_ARAAudioReaders.cpp:70 | after the source's destruction the reader's source is null, so the destructor's dereference has no target |

## Left out

- Real thread interleavings of the read/write lock, and blocking: the lock is a writer depth plus a reader count, and `tryEnterRead` fails iff a writer holds it.
- Sample values: the samples the host writes and the output of `renderSamples` are not modelled. `PlaybackRegionReader.ReadSamples` on success only releases the lock.
- Floating point: times and rates are reals. The rounding of `getEndInPlaybackSamples` is inside the `SamplePosition` parameter.
- ModelObjects.RegionSequence.GetTimeRange: the numeric-limit sentinels of the C++ loop are replaced by starting from the first region; the empty-sequence result (0, 0) is as in the source.
- ModelObjects.AudioSource.Deliver: states that every registered listener gets one call with the arguments. It does not state the order in which JUCE's ListenerList calls them, and the callbacks' own effects are not modelled.
- Listener callbacks run by the document controller's and sources' notifications are not executed; their effect on registrations is modelled only in the snapshot dispatch, as `Edit` lists.
- Debug assertions: a `jassert` becomes a precondition when it bounds what a caller passes in, as the block-size bound of ProcessBlock (`juce_ARAPlugInInstanceRoles.cpp:27`) does. A `jassert` about state that the surrounding protocol is meant to guarantee is not, and the protocol itself is modelled instead.
- AudioReaders.AudioSourceReader.Recreate: the `jassert` that sample access is enabled (`juce_ARAAudioReaders.cpp:91`) is not a precondition. At `juce_ARAAudioReaders.cpp:54-55` it holds only if the host switched the source's access flag before calling `didEnableAudioSourceSamplesAccess`, and the model does not assume that order of host calls.
- AudioReaders.AudioSourceReader.DidEnableAudioSourceSamplesAccess: requires the write lock to be held when the call is for the reader's own source, that is, that `willEnableAudioSourceSamplesAccess` ran first and took it (`juce_ARAAudioReaders.cpp:38-39` and `57`). Without that call `exitWrite` would release a lock nobody holds; the model does not say what happens then.
- ContentScopes.NothingIsAffected: a missing map entry reads as a scope value with nothing affected, the value `audioSourceUpdates[audioSource]` would default-construct. The default constructor of `ARA::ContentUpdateScopes` is not part of this model; ModelObjects.Pending relies on this reading.
- AudioReaders.PlaybackRegionReader.ReadSamples: the failure path (`juce_ARAAudioReaders.cpp:183-184`) writes through every destination channel pointer with no null check, although `juce_ARAAudioReaders.cpp:118` treats null channels as legal. The model requires the channels to be present when a writer holds the lock; the corrected member skips null channels.
- AudioReaders.AudioSourceReader.ReadSamples: the failure path writes through every destination channel pointer; a null pointer there is undefined behaviour, so the model requires the channels present.
- The destructors of the playback-region and region-sequence readers (`juce_ARAAudioReaders.cpp:167-171` and `231-236`) are not part of this model.
- The audio source reader does not react to property changes (the open question at `juce_ARAAudioReaders.h:25-27`), and the model does not add such a reaction.
- The host's model-update controller is a boolean parameter. Its notifications are returned as a list instead of being sent. The order of the entries within each map, which is std::map key order, is not stated.
- AudioReaders.RegionSequenceReader.constructor: the base reader constructed from an empty region list is modelled as `PlaybackRegionReader.WithoutRegions`.
- AudioReaders.PlaybackRegionReader.constructor: the loop computes the format as a value and assigns the three fields once at the end. The visible result is the same as updating the fields on every turn.
- Archive persistence (`doRestore`/`doStore`), legacy archive IDs, the sample-reading thread and every UI class are outside this model.
- `ContentUpdateScopes` is a set of affected aspects: `+=` is union and `affectSamples` is membership of the samples aspect.

## Findings

| source | as written | input that shows it | evidently intended | confidence | as-written member | corrected member |
|---|---|---|---|---|---|---|
| modules/juce_audio_plugin_client/ARA/juce_ARAAudioReaders.cpp:108 | `tryEnterRead()` succeeds and the reader has no host reader, so the function returns false without `exitRead()` | a read after sample access was disabled while no writer holds the lock | every read taken is released before returning | not executed; high | AudioReaders.ReadLockLeakAsWritten | AudioReaders.ReadLockReleasedCorrected |
| modules/juce_audio_plugin_client/ARA/juce_ARAAudioReaders.cpp:110-111 | the failure path clears samples [0, numSamples) of each channel, ignoring `startOffsetInDestBuffer`, and dereferences null channels | a failed read of 2 samples at offset 2 into [1, 1, 1, 1] gives [0, 0, 1, 1] | clear [offset, offset + numSamples) of each channel given, giving [1, 1, 0, 0] | not executed; high | AudioReaders.SourceClearIgnoresOffsetAsWritten | AudioReaders.SourceClearsRequestedSpanCorrected |
| modules/juce_audio_plugin_client/ARA/juce_ARAAudioReaders.cpp:183-184 | the playback-region reader's failure path clears from 0 too, and dereferences null channels | a failed read of 2 samples at offset 2 into [1, 1, 1, 1] gives [0, 0, 1, 1] | clear [offset, offset + numSamples) of each channel given, giving [1, 1, 0, 0] | not executed; high | AudioReaders.ClearIgnoresOffsetAsWritten | AudioReaders.ClearsRequestedSpanCorrected |
| modules/juce_audio_plugin_client/ARA/juce_ARAAudioReaders.cpp:27 | the destructor calls `removeListener` on `audioSourceBeingRead`, which `willDestroyAudioSource` (line 70) has set to null | a reader destroyed after its audio source | skip the call when the source is gone | not executed; high | AudioReaders.DestroyAfterSourceDestroyedAsWritten | AudioReaders.AudioSourceReader.DestroyCorrected |
