/**
 * The raw transcript `process_audio` builds from the recogniser's segments:
 * the stripped text of every segment that has non-blank text, in order,
 * joined by single spaces and stripped once more.
 */
module Transcript {
  import opened Options
  import opened Text

  /** One recognised segment; `None` when the segment object carries no `text` attribute. */
  datatype Segment = Segment(text: Option<string>)

  /** The segment contributes text: it has a `text` attribute that is not blank. */
  predicate Speaks(seg: Segment) {
    seg.text.Some? && Strip(seg.text.value) != []
  }

  /** A text with no whitespace at either end and at least one character. */
  predicate Trimmed(t: string) {
    t != [] && !IsSpace(t[0]) && !IsSpace(t[|t| - 1])
  }

  /** The list `segment_texts`: the stripped text of each speaking segment, in order. */
  function SegmentTexts(segs: seq<Segment>): (ts: seq<string>)
    ensures forall i :: 0 <= i < |ts| ==> Trimmed(ts[i])
    ensures |ts| <= |segs|
  {
    if segs == [] then []
    else
      var rest := SegmentTexts(segs[1..]);
      if Speaks(segs[0]) then [Strip(segs[0].text.value)] + rest else rest
  }

  /** `" ".join(segment_texts).strip()` */
  function RawTranscript(segs: seq<Segment>): (r: string)
    ensures r == [] || Trimmed(r)
  {
    Strip(Join(SegmentTexts(segs)))
  }

  // ------------------------------------------------------------------
  // Lemmas
  // ------------------------------------------------------------------

  /** The `i`-th collected text comes from a speaking segment `j`, at or after position `i`. */
  lemma {:induction false} SegmentTextSource(segs: seq<Segment>, i: nat) returns (j: nat)
    requires i < |SegmentTexts(segs)|
    ensures i <= j < |segs| && Speaks(segs[j])
    ensures SegmentTexts(segs)[i] == Strip(segs[j].text.value)
  {
    var rest := SegmentTexts(segs[1..]);
    assert SegmentTexts(segs) == if Speaks(segs[0]) then [Strip(segs[0].text.value)] + rest else rest;
    if Speaks(segs[0]) && i == 0 {
      j := 0;
    } else {
      var i' := if Speaks(segs[0]) then i - 1 else i;
      var j' := SegmentTextSource(segs[1..], i');
      assert segs[1..][j'] == segs[j' + 1];
      j := j' + 1;
    }
  }

  /** `t` is the stripped text of a speaking segment of `segs`. */
  ghost predicate FromSegment(segs: seq<Segment>, t: string) {
    exists j :: 0 <= j < |segs| && Speaks(segs[j]) && t == Strip(segs[j].text.value)
  }

  /** Every collected text is the stripped text of a speaking segment. */
  lemma {:induction false} SegmentTextsSound(segs: seq<Segment>)
    ensures forall i :: 0 <= i < |SegmentTexts(segs)| ==> FromSegment(segs, SegmentTexts(segs)[i])
  {
    forall i | 0 <= i < |SegmentTexts(segs)|
      ensures FromSegment(segs, SegmentTexts(segs)[i])
    {
      var j := SegmentTextSource(segs, i);
    }
  }

  /** Segments are collected one by one: collecting from a concatenation collects from each part. */
  lemma {:induction false} SegmentTextsAppend(a: seq<Segment>, b: seq<Segment>)
    ensures SegmentTexts(a + b) == SegmentTexts(a) + SegmentTexts(b)
  {
    if a == [] {
      assert a + b == b && SegmentTexts(a) == [];
      assert SegmentTexts(a) + SegmentTexts(b) == SegmentTexts(b);
    } else {
      var ab := a + b;
      assert ab[0] == a[0] && ab[1..] == a[1..] + b;
      SegmentTextsAppend(a[1..], b);
      var head := if Speaks(a[0]) then [Strip(a[0].text.value)] else [];
      assert SegmentTexts(ab) == head + SegmentTexts(a[1..] + b);
      assert SegmentTexts(a) == head + SegmentTexts(a[1..]);
    }
  }

  /** One segment contributes its stripped text exactly when it speaks. */
  lemma SegmentTextsOne(seg: Segment)
    ensures SegmentTexts([seg]) == if Speaks(seg) then [Strip(seg.text.value)] else []
  {
    assert [seg][1..] == [];
  }

  /** Every speaking segment's stripped text is collected. */
  lemma {:induction false} SegmentTextsComplete(segs: seq<Segment>)
    ensures forall j :: 0 <= j < |segs| && Speaks(segs[j]) ==> Strip(segs[j].text.value) in SegmentTexts(segs)
  {
    if segs != [] {
      var rest := SegmentTexts(segs[1..]);
      assert SegmentTexts(segs) == if Speaks(segs[0]) then [Strip(segs[0].text.value)] + rest else rest;
      SegmentTextsComplete(segs[1..]);
      assert forall j :: 0 < j < |segs| ==> segs[j] == segs[1..][j - 1];
    }
  }

  /** No text is collected exactly when no segment speaks. */
  lemma {:induction false} SegmentTextsEmpty(segs: seq<Segment>)
    ensures SegmentTexts(segs) == [] <==> forall j :: 0 <= j < |segs| ==> !Speaks(segs[j])
  {
    if segs != [] {
      SegmentTextsEmpty(segs[1..]);
      assert forall j :: 0 < j < |segs| ==> segs[j] == segs[1..][j - 1];
    }
  }

  /** Joining trimmed texts gives a trimmed text, or nothing when there are none. */
  lemma {:induction false} JoinTrimmed(ts: seq<string>)
    requires forall i :: 0 <= i < |ts| ==> Trimmed(ts[i])
    ensures ts == [] ==> Join(ts) == []
    ensures ts != [] ==> Trimmed(Join(ts))
  {
    if |ts| > 1 {
      JoinTrimmed(ts[1..]);
      var w, j := ts[0], Join(ts[1..]);
      assert Trimmed(w) && Trimmed(j);
      var s := w + " " + j;
      assert Join(ts) == s;
      assert s[0] == w[0] && s[|s| - 1] == j[|j| - 1];
    }
  }

  lemma StripTrimmed(t: string)
    requires t == [] || Trimmed(t)
    ensures Strip(t) == t
  {
  }

  /** The final `strip()` changes nothing: the transcript is the collected texts joined by single spaces. */
  lemma RawIsJoin(segs: seq<Segment>)
    ensures RawTranscript(segs) == Join(SegmentTexts(segs))
  {
    JoinTrimmed(SegmentTexts(segs));
    StripTrimmed(Join(SegmentTexts(segs)));
  }

  /**
   * The transcript is empty exactly when no segment has non-blank text;
   * otherwise it has no whitespace at either end.
   */
  lemma RawEmpty(segs: seq<Segment>)
    ensures RawTranscript(segs) == [] <==> forall j :: 0 <= j < |segs| ==> !Speaks(segs[j])
    ensures RawTranscript(segs) != [] ==> Trimmed(RawTranscript(segs))
  {
    RawIsJoin(segs);
    SegmentTextsEmpty(segs);
    JoinTrimmed(SegmentTexts(segs));
  }
}
