/**
 * The format a playback-region reader derives from its regions: a loop that
 * takes the first source sample rate it meets, skips regions whose source
 * rate differs from it, and widens channel count and length to the maxima
 * over the regions it keeps.
 */
module RegionFormats {

  /** What the reader's constructor looks at in one region. */
  datatype RegionFormat = RegionFormat(sampleRate: real, channelCount: nat, endInPlaybackSamples: int)

  /** The AudioFormatReader fields the constructor computes. */
  datatype ReaderFormat = ReaderFormat(sampleRate: real, numChannels: nat, lengthInSamples: int)

  const NoFormat := ReaderFormat(0.0, 0, 0)

  function MaxNat(a: nat, b: nat): nat { if a >= b then a else b }
  function MaxInt(a: int, b: int): int { if a >= b then a else b }

  /** The loop keeps a region when its rate equals the reader's rate, which a rate of 0 first adopts. */
  predicate Keeps(f: ReaderFormat, r: RegionFormat) {
    (if f.sampleRate == 0.0 then r.sampleRate else f.sampleRate) == r.sampleRate
  }

  /** One iteration of the constructor loop. */
  function Step(f: ReaderFormat, r: RegionFormat): ReaderFormat {
    if !Keeps(f, r) then f
    else ReaderFormat(r.sampleRate, MaxNat(f.numChannels, r.channelCount), MaxInt(f.lengthInSamples, r.endInPlaybackSamples))
  }

  /** The format after the loop has visited all of `rs`, starting from zeros. */
  function FormatAfter(rs: seq<RegionFormat>): ReaderFormat {
    if rs == [] then NoFormat else Step(FormatAfter(rs[..|rs| - 1]), rs[|rs| - 1])
  }

  /** Whether the loop keeps the `i`-th region: decided by the format after the regions before it. */
  predicate Kept(rs: seq<RegionFormat>, i: int)
    requires 0 <= i < |rs|
  {
    Keeps(FormatAfter(rs[..i]), rs[i])
  }

  /** Dropping later regions does not change whether an earlier one is kept. */
  lemma KeptInPrefix(rs: seq<RegionFormat>, n: int, i: int)
    requires 0 <= i < n <= |rs|
    ensures Kept(rs[..n], i) == Kept(rs, i)
  {
    assert rs[..n][..i] == rs[..i];
  }

  /** The indexes of the regions the loop keeps (and hands to the renderer), in order. */
  function KeptIndices(rs: seq<RegionFormat>): (k: seq<nat>)
    ensures forall j :: 0 <= j < |k| ==> k[j] < |rs|
    ensures forall j, j' :: 0 <= j < j' < |k| ==> k[j] < k[j']
  {
    if rs == [] then []
    else KeptIndices(rs[..|rs| - 1]) + (if Kept(rs, |rs| - 1) then [|rs| - 1] else [])
  }

  lemma {:induction false} KeptIndicesSpec(rs: seq<RegionFormat>, i: int)
    requires 0 <= i < |rs|
    ensures i in KeptIndices(rs) <==> Kept(rs, i)
  {
    var init := rs[..|rs| - 1];
    if i < |init| {
      KeptIndicesSpec(init, i);
      KeptInPrefix(rs, |init|, i);
    } else {
      assert i !in KeptIndices(init);
    }
  }

  /** The elements of `s` at the positions `idx`, in that order. */
  function Select<T>(s: seq<T>, idx: seq<nat>): (r: seq<T>)
    requires forall j :: 0 <= j < |idx| ==> idx[j] < |s|
    ensures |r| == |idx| && forall j :: 0 <= j < |idx| ==> r[j] == s[idx[j]]
  {
    if idx == [] then [] else [s[idx[0]]] + Select(s, idx[1..])
  }

  lemma SelectAppend<T>(s: seq<T>, idx: seq<nat>, i: nat)
    requires i < |s| && forall j :: 0 <= j < |idx| ==> idx[j] < |s|
    ensures Select(s, idx + [i]) == Select(s, idx) + [s[i]]
  {
  }

  lemma SelectPrefix<T>(s: seq<T>, idx: seq<nat>, n: int)
    requires 0 <= n <= |s| && forall j :: 0 <= j < |idx| ==> idx[j] < n
    ensures Select(s[..n], idx) == Select(s, idx)
  {
  }

  /** The items (regions) at the positions the loop keeps, in visiting order. */
  function KeptItems<T>(items: seq<T>, rs: seq<RegionFormat>): (kept: seq<T>)
    requires |items| == |rs|
    ensures forall x :: x in kept ==> x in items
  {
    if rs == [] then []
    else KeptItems(items[..|rs| - 1], rs[..|rs| - 1]) + (if Kept(rs, |rs| - 1) then [items[|rs| - 1]] else [])
  }

  /** One more turn of the loop: the format takes one Step, and the region is appended when it is kept. */
  lemma VisitNext<T>(items: seq<T>, rs: seq<RegionFormat>, i: int, f: ReaderFormat, kept: seq<T>)
    requires |items| == |rs| && 0 <= i < |rs|
    requires f == FormatAfter(rs[..i]) && kept == KeptItems(items[..i], rs[..i])
    ensures Step(f, rs[i]) == FormatAfter(rs[..i + 1])
    ensures kept + (if Keeps(f, rs[i]) then [items[i]] else []) == KeptItems(items[..i + 1], rs[..i + 1])
  {
    assert items[..i + 1][..i] == items[..i];
    assert rs[..i + 1][..i] == rs[..i];
  }

  /** The kept items are exactly the items at the kept indexes. */
  lemma {:induction false} KeptItemsAreSelected<T>(items: seq<T>, rs: seq<RegionFormat>)
    requires |items| == |rs|
    ensures KeptItems(items, rs) == Select(items, KeptIndices(rs))
  {
    if rs != [] {
      var n := |rs| - 1;
      var idx := KeptIndices(rs[..n]);
      var k := KeptItems(items[..n], rs[..n]);
      assert KeptItems(items, rs) == k + (if Kept(rs, n) then [items[n]] else []);
      assert KeptIndices(rs) == idx + (if Kept(rs, n) then [n] else []);
      KeptItemsAreSelected(items[..n], rs[..n]);
      SelectPrefix(items, idx, n);
      assert k == Select(items, idx);
      if Kept(rs, n) {
        SelectAppend(items, idx, n);
      }
    }
  }

  /**
   * The reader's rate is the first non-zero source rate of the regions (0 if
   * there is none): the first region's rate when that is non-zero.
   */
  lemma {:induction false} SampleRateIsFirstNonzero(rs: seq<RegionFormat>)
    ensures FormatAfter(rs).sampleRate == 0.0 <==> forall i :: 0 <= i < |rs| ==> rs[i].sampleRate == 0.0
    ensures FormatAfter(rs).sampleRate != 0.0 ==>
              exists i :: 0 <= i < |rs| && rs[i].sampleRate == FormatAfter(rs).sampleRate
                          && forall j :: 0 <= j < i ==> rs[j].sampleRate == 0.0
  {
    if rs != [] {
      var init := rs[..|rs| - 1];
      SampleRateIsFirstNonzero(init);
      assert forall i :: 0 <= i < |init| ==> init[i] == rs[i];
      if FormatAfter(init).sampleRate != 0.0 {
        var i :| 0 <= i < |init| && init[i].sampleRate == FormatAfter(init).sampleRate
                 && forall j :: 0 <= j < i ==> init[j].sampleRate == 0.0;
        assert rs[i].sampleRate == FormatAfter(rs).sampleRate;
      }
    }
  }

  /** Two first-non-zero witnesses are the same index. */
  lemma FirstNonzeroUnique(rs: seq<RegionFormat>, i: int, i': int)
    requires 0 <= i < |rs| && rs[i].sampleRate != 0.0 && forall j :: 0 <= j < i ==> rs[j].sampleRate == 0.0
    requires 0 <= i' < |rs| && rs[i'].sampleRate != 0.0 && forall j :: 0 <= j < i' ==> rs[j].sampleRate == 0.0
    ensures i == i'
  {
  }

  /**
   * A region is kept exactly when its rate is the reader's final rate, or
   * when it and every region before it have rate 0; so a region whose
   * non-zero rate differs from the reader's is skipped.
   */
  lemma KeptIffRateMatches(rs: seq<RegionFormat>, i: int)
    requires 0 <= i < |rs|
    ensures i in KeptIndices(rs) <==>
              rs[i].sampleRate == FormatAfter(rs).sampleRate || forall j :: 0 <= j <= i ==> rs[j].sampleRate == 0.0
  {
    KeptIndicesSpec(rs, i);
    var pre := rs[..i];
    var R := FormatAfter(rs).sampleRate;
    SampleRateIsFirstNonzero(pre);
    SampleRateIsFirstNonzero(rs);
    assert forall j :: 0 <= j < i ==> pre[j] == rs[j];
    var P := FormatAfter(pre).sampleRate;
    if P != 0.0 {
      var a :| 0 <= a < |pre| && pre[a].sampleRate == P && forall j :: 0 <= j < a ==> pre[j].sampleRate == 0.0;
      var b :| 0 <= b < |rs| && rs[b].sampleRate == R && forall j :: 0 <= j < b ==> rs[j].sampleRate == 0.0;
      FirstNonzeroUnique(rs, a, b);
      assert P == R;
    }
  }

  /**
   * The channel count and the length are the maxima, starting from 0, over
   * the kept regions: a length is never negative, even when every kept
   * region ends before playback time 0.
   */
  lemma {:induction false} FormatIsMaxOverKept(rs: seq<RegionFormat>)
    ensures forall i :: 0 <= i < |rs| && Kept(rs, i) ==>
              rs[i].channelCount <= FormatAfter(rs).numChannels && rs[i].endInPlaybackSamples <= FormatAfter(rs).lengthInSamples
    ensures FormatAfter(rs).numChannels == 0 ||
              exists i :: 0 <= i < |rs| && Kept(rs, i) && rs[i].channelCount == FormatAfter(rs).numChannels
    ensures FormatAfter(rs).lengthInSamples == 0 ||
              exists i :: 0 <= i < |rs| && Kept(rs, i) && rs[i].endInPlaybackSamples == FormatAfter(rs).lengthInSamples
    ensures 0 <= FormatAfter(rs).lengthInSamples
  {
    if rs != [] {
      var n := |rs| - 1;
      var init := rs[..n];
      var f := FormatAfter(init);
      var g := FormatAfter(rs);
      FormatIsMaxOverKept(init);
      assert g == Step(f, rs[n]) && Kept(rs, n) == Keeps(f, rs[n]);
      StepWidens(f, rs[n]);
      forall i | 0 <= i < n
        ensures Kept(init, i) == Kept(rs, i) && init[i] == rs[i]
      {
        KeptInPrefix(rs, n, i);
      }
      forall i | 0 <= i < |rs| && Kept(rs, i)
        ensures rs[i].channelCount <= g.numChannels && rs[i].endInPlaybackSamples <= g.lengthInSamples
      {
        if i < n {
          assert Kept(init, i) && init[i] == rs[i];
        }
      }
      if g.numChannels != 0 && g.numChannels == f.numChannels {
        var i :| 0 <= i < n && Kept(init, i) && init[i].channelCount == f.numChannels;
        assert Kept(rs, i) && rs[i].channelCount == g.numChannels;
      }
      if g.lengthInSamples != 0 && g.lengthInSamples == f.lengthInSamples {
        var i :| 0 <= i < n && Kept(init, i) && init[i].endInPlaybackSamples == f.lengthInSamples;
        assert Kept(rs, i) && rs[i].endInPlaybackSamples == g.lengthInSamples;
      }
    }
  }

  /** One Step never narrows the format; a kept region fits in it; each new maximum comes from the kept region. */
  lemma StepWidens(f: ReaderFormat, r: RegionFormat)
    ensures var g := Step(f, r);
            && f.numChannels <= g.numChannels && f.lengthInSamples <= g.lengthInSamples
            && (Keeps(f, r) ==> r.channelCount <= g.numChannels && r.endInPlaybackSamples <= g.lengthInSamples)
            && (g.numChannels == f.numChannels || (Keeps(f, r) && g.numChannels == r.channelCount))
            && (g.lengthInSamples == f.lengthInSamples || (Keeps(f, r) && g.lengthInSamples == r.endInPlaybackSamples))
  {
  }
}
