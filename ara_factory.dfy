/**
 * The ARA factory descriptor built by DocumentController::getARAFactory():
 * the plug-in's configuration bitmasks become the list of analyzeable content
 * types and the set of supported playback transformations, and the descriptor
 * is built once and handed out thereafter.
 */
module AraFactory {

  datatype ContentType =
    | Notes | TempoEntries | BarSignatures | StaticTuning
    | DynamicTuningOffsets | KeySignatures | SheetChords

  datatype TransformationFlag =
    | Timestretch | TimestretchReflectingTempo | ContentBasedFadeAtTail | ContentBasedFadeAtHead

  /** The content types in the order of the configuration bits (bit i selects entry i). */
  const ContentTypeOrder: seq<ContentType> :=
    [Notes, TempoEntries, BarSignatures, StaticTuning, DynamicTuningOffsets, KeySignatures, SheetChords]

  /** The playback transformations in the order of the configuration bits. */
  const TransformationOrder: seq<TransformationFlag> :=
    [Timestretch, TimestretchReflectingTempo, ContentBasedFadeAtTail, ContentBasedFadeAtHead]

  function ContentTypeIndex(t: ContentType): (i: nat)
    ensures i < |ContentTypeOrder| && ContentTypeOrder[i] == t
  {
    match t
    case Notes => 0
    case TempoEntries => 1
    case BarSignatures => 2
    case StaticTuning => 3
    case DynamicTuningOffsets => 4
    case KeySignatures => 5
    case SheetChords => 6
  }

  function TransformationIndex(f: TransformationFlag): (i: nat)
    ensures i < |TransformationOrder| && TransformationOrder[i] == f
  {
    match f
    case Timestretch => 0
    case TimestretchReflectingTempo => 1
    case ContentBasedFadeAtTail => 2
    case ContentBasedFadeAtHead => 3
  }

  function Pow2(i: nat): (p: nat)
    ensures p > 0
  {
    if i == 0 then 1 else 2 * Pow2(i - 1)
  }

  /** `mask & (1 << i)` is non-zero. */
  predicate BitSet(mask: nat, i: nat) {
    (mask / Pow2(i)) % 2 == 1
  }

  /** The content types selected by the bits of `mask` below `n`, in bit order. */
  function ContentTypesBelow(mask: nat, n: nat): seq<ContentType>
    requires n <= |ContentTypeOrder|
  {
    if n == 0 then []
    else ContentTypesBelow(mask, n - 1) + (if BitSet(mask, n - 1) then [ContentTypeOrder[n - 1]] else [])
  }

  function AnalyzeableContentTypes(mask: nat): seq<ContentType> {
    ContentTypesBelow(mask, |ContentTypeOrder|)
  }

  function SupportedTransformations(mask: nat): set<TransformationFlag> {
    set i | 0 <= i < |TransformationOrder| && BitSet(mask, i) :: TransformationOrder[i]
  }

  lemma {:induction false} ContentTypesBelowMembers(mask: nat, n: nat, t: ContentType)
    requires n <= |ContentTypeOrder|
    ensures t in ContentTypesBelow(mask, n) <==> ContentTypeIndex(t) < n && BitSet(mask, ContentTypeIndex(t))
  {
    if n > 0 {
      ContentTypesBelowMembers(mask, n - 1, t);
    }
  }

  lemma {:induction false} ContentTypesBelowOrdered(mask: nat, n: nat)
    requires n <= |ContentTypeOrder|
    ensures forall p, q :: 0 <= p < q < |ContentTypesBelow(mask, n)| ==>
              ContentTypeIndex(ContentTypesBelow(mask, n)[p]) < ContentTypeIndex(ContentTypesBelow(mask, n)[q])
    ensures forall p :: 0 <= p < |ContentTypesBelow(mask, n)| ==> ContentTypeIndex(ContentTypesBelow(mask, n)[p]) < n
  {
    if n > 0 {
      ContentTypesBelowOrdered(mask, n - 1);
    }
  }

  /**
   * The analyzeable content types are exactly the listed types whose bit is
   * set, each once, in bit order.
   */
  lemma AnalyzeableContentTypesSpec(mask: nat)
    ensures forall t :: t in AnalyzeableContentTypes(mask) <==> BitSet(mask, ContentTypeIndex(t))
    ensures forall p, q :: 0 <= p < q < |AnalyzeableContentTypes(mask)| ==>
              ContentTypeIndex(AnalyzeableContentTypes(mask)[p]) < ContentTypeIndex(AnalyzeableContentTypes(mask)[q])
  {
    forall t ensures t in AnalyzeableContentTypes(mask) <==> BitSet(mask, ContentTypeIndex(t)) {
      ContentTypesBelowMembers(mask, |ContentTypeOrder|, t);
    }
    ContentTypesBelowOrdered(mask, |ContentTypeOrder|);
  }

  /** A transformation is supported exactly when its bit is set. */
  lemma SupportedTransformationsSpec(mask: nat, f: TransformationFlag)
    ensures f in SupportedTransformations(mask) <==> BitSet(mask, TransformationIndex(f))
  {
    if f in SupportedTransformations(mask) {
      var i :| 0 <= i < |TransformationOrder| && BitSet(mask, i) && TransformationOrder[i] == f;
      assert i == TransformationIndex(f);
    }
  }

  /** The loop that pushes the selected content types into the static vector. */
  method CollectContentTypes(mask: nat) returns (contentTypes: seq<ContentType>)
    ensures contentTypes == AnalyzeableContentTypes(mask)
  {
    contentTypes := [];
    var i := 0;
    while i < |ContentTypeOrder|
      invariant 0 <= i <= |ContentTypeOrder|
      invariant contentTypes == ContentTypesBelow(mask, i)
    {
      if (mask / Pow2(i)) % 2 == 1 {
        contentTypes := contentTypes + [ContentTypeOrder[i]];
      }
      i := i + 1;
    }
  }

  /** The loop that ORs the selected flags into a mask that starts at 0. */
  method CollectTransformationFlags(mask: nat) returns (flags: set<TransformationFlag>)
    ensures flags == SupportedTransformations(mask)
  {
    flags := {};
    var i := 0;
    while i < |TransformationOrder|
      invariant 0 <= i <= |TransformationOrder|
      invariant flags == set j | 0 <= j < i && BitSet(mask, j) :: TransformationOrder[j]
    {
      if (mask / Pow2(i)) % 2 == 1 {
        flags := flags + {TransformationOrder[i]};
      }
      i := i + 1;
    }
  }

  /** The fields of the ARAFactory struct this model covers. */
  class Factory {
    const analyzeableContentTypes: seq<ContentType>
    const analyzeableContentTypesCount: nat
    const supportedPlaybackTransformationFlags: set<TransformationFlag>

    constructor (contentTypes: seq<ContentType>, flags: set<TransformationFlag>)
      ensures analyzeableContentTypes == contentTypes
      ensures analyzeableContentTypesCount == |contentTypes|
      ensures supportedPlaybackTransformationFlags == flags
    {
      analyzeableContentTypes := contentTypes;
      analyzeableContentTypesCount := |contentTypes|;
      supportedPlaybackTransformationFlags := flags;
    }
  }

  /** The function-local `static ARAFactory* factory` and its first-use guard. */
  class FactorySingleton {
    var factory: Factory?

    constructor ()
      ensures factory == null
    {
      factory := null;
    }

    method GetARAFactory(contentTypesMask: nat, transformationFlagsMask: nat) returns (f: Factory)
      modifies this
      ensures factory == f
      ensures old(factory) != null ==> f == old(factory)
      ensures old(factory) == null ==> fresh(f)
      ensures old(factory) == null ==> f.analyzeableContentTypes == AnalyzeableContentTypes(contentTypesMask)
      ensures old(factory) == null ==> f.analyzeableContentTypesCount == |f.analyzeableContentTypes|
      ensures old(factory) == null ==>
                f.supportedPlaybackTransformationFlags == SupportedTransformations(transformationFlagsMask)
    {
      if factory == null {
        var contentTypes := CollectContentTypes(contentTypesMask);
        var flags := CollectTransformationFlags(transformationFlagsMask);
        factory := new Factory(contentTypes, flags);
      }
      f := factory;
    }
  }
}
