/**
 * Ordinal addressing of a slide's text boxes. A text box is a shape that has a
 * text frame holding non-empty text (`IsTextBox`); text boxes are numbered in
 * the order of the slide's shapes, and shapes that are not text boxes get no
 * number. This module gives the listing, the position of the k-th text box,
 * and the rewrite of the k-th text box, and proves how they fit together.
 */
module Ordinals {
  import opened Wrappers
  import opened Pptx

  /** The number of text boxes among `shapes`. */
  function Count(shapes: seq<Shape>): (n: nat)
    ensures n <= |shapes|
  {
    if shapes == [] then 0
    else Count(shapes[..|shapes| - 1]) + (if IsTextBox(shapes[|shapes| - 1]) then 1 else 0)
  }

  /** The texts of the text boxes among `shapes`, in shape order. */
  function TextBoxes(shapes: seq<Shape>): (boxes: seq<string>)
    ensures |boxes| == Count(shapes)
    ensures forall k :: 0 <= k < |boxes| ==> boxes[k] != ""
  {
    if shapes == [] then []
    else
      var last := shapes[|shapes| - 1];
      TextBoxes(shapes[..|shapes| - 1]) + (if IsTextBox(last) then [FrameText(last.frame)] else [])
  }

  /** The position among `shapes` of the text box whose 0-based ordinal is `k`. */
  function BoxIndex(shapes: seq<Shape>, k: nat): (i: nat)
    requires k < Count(shapes)
    ensures i < |shapes| && IsTextBox(shapes[i])
    ensures Count(shapes[..i]) == k
  {
    var n := |shapes| - 1;
    if k == Count(shapes[..n]) then
      n
    else
      var i := BoxIndex(shapes[..n], k);
      assert shapes[..n][..i] == shapes[..i];
      i
  }

  /** Text boxes in a prefix are never more than in a longer prefix, and strictly fewer if the gap holds one. */
  lemma {:induction false} CountPrefix(shapes: seq<Shape>, i: nat, j: nat)
    requires i <= j <= |shapes|
    ensures Count(shapes[..i]) <= Count(shapes[..j])
    ensures i < j && IsTextBox(shapes[i]) ==> Count(shapes[..i]) < Count(shapes[..j])
    decreases j
  {
    if i < j {
      assert shapes[..j][..j - 1] == shapes[..j - 1];
      CountPrefix(shapes, i, j - 1);
    }
  }

  /** Every text box has an ordinal: its text is listed there and `BoxIndex` finds it there. */
  lemma TextBoxOrdinal(shapes: seq<Shape>, i: nat)
    requires i < |shapes| && IsTextBox(shapes[i])
    ensures Count(shapes[..i]) < Count(shapes)
    ensures BoxIndex(shapes, Count(shapes[..i])) == i
    ensures TextBoxes(shapes)[Count(shapes[..i])] == FrameText(shapes[i].frame)
  {
    assert shapes[..|shapes|] == shapes;
    CountPrefix(shapes, i, |shapes|);
    var b := BoxIndex(shapes, Count(shapes[..i]));
    if b < i {
      CountPrefix(shapes, b, i);
    } else if i < b {
      CountPrefix(shapes, i, b);
    }
    BoxIndexText(shapes, Count(shapes[..i]));
  }

  /** Element k of the listing is the text of the shape at `BoxIndex(shapes, k)`. */
  lemma {:induction false} BoxIndexText(shapes: seq<Shape>, k: nat)
    requires k < Count(shapes)
    ensures TextBoxes(shapes)[k] == FrameText(shapes[BoxIndex(shapes, k)].frame)
    decreases |shapes|
  {
    var n := |shapes| - 1;
    if k != Count(shapes[..n]) {
      BoxIndexText(shapes[..n], k);
    }
  }

  /** Ordinals follow shape order: a smaller ordinal belongs to an earlier shape. */
  lemma BoxIndexOrdered(shapes: seq<Shape>, j: nat, k: nat)
    requires j < k < Count(shapes)
    ensures BoxIndex(shapes, j) < BoxIndex(shapes, k)
  {
    var bj, bk := BoxIndex(shapes, j), BoxIndex(shapes, k);
    if bk <= bj {
      CountPrefix(shapes, bk, bj);
    }
  }

  /** Replacing a text box by another text box replaces its text in the listing and nothing else. */
  lemma {:induction false} ReplaceTextBox(shapes: seq<Shape>, i: nat, shape: Shape)
    requires i < |shapes| && IsTextBox(shapes[i]) && IsTextBox(shape)
    ensures Count(shapes[..i]) < |TextBoxes(shapes)|
    ensures TextBoxes(shapes[i := shape]) == TextBoxes(shapes)[Count(shapes[..i]) := FrameText(shape.frame)]
    decreases |shapes|
  {
    TextBoxOrdinal(shapes, i);
    var n := |shapes| - 1;
    var replaced := shapes[i := shape];
    if i == n {
      assert replaced[..n] == shapes[..n];
    } else {
      assert replaced[..n] == shapes[..n][i := shape];
      assert shapes[..n][..i] == shapes[..i];
      ReplaceTextBox(shapes[..n], i, shape);
    }
  }

  /** Replacing a text box by a shape that is not one drops its text from the listing. */
  lemma {:induction false} ReplaceWithBlank(shapes: seq<Shape>, i: nat, shape: Shape)
    requires i < |shapes| && IsTextBox(shapes[i]) && !IsTextBox(shape)
    ensures Count(shapes[..i]) < |TextBoxes(shapes)|
    ensures var c := Count(shapes[..i]);
      TextBoxes(shapes[i := shape]) == TextBoxes(shapes)[..c] + TextBoxes(shapes)[c + 1..]
    decreases |shapes|
  {
    TextBoxOrdinal(shapes, i);
    var n := |shapes| - 1;
    var replaced := shapes[i := shape];
    if i == n {
      assert replaced[..n] == shapes[..n];
      assert TextBoxes(shapes)[..Count(shapes[..i])] == TextBoxes(shapes[..n]);
    } else {
      assert replaced[..n] == shapes[..n][i := shape];
      assert shapes[..n][..i] == shapes[..i];
      ReplaceWithBlank(shapes[..n], i, shape);
      DropEarlierBox(shapes, replaced, Count(shapes[..i]));
    }
  }

  /**
   * Two shape sequences with the same last shape, whose listings before it
   * differ by one dropped entry `c`, differ by that entry overall.
   */
  lemma DropEarlierBox(shapes: seq<Shape>, replaced: seq<Shape>, c: nat)
    requires |shapes| == |replaced| > 0 && shapes[|shapes| - 1] == replaced[|shapes| - 1]
    requires c < |TextBoxes(shapes[..|shapes| - 1])|
    requires TextBoxes(replaced[..|shapes| - 1]) ==
      TextBoxes(shapes[..|shapes| - 1])[..c] + TextBoxes(shapes[..|shapes| - 1])[c + 1..]
    ensures TextBoxes(replaced) == TextBoxes(shapes)[..c] + TextBoxes(shapes)[c + 1..]
  {
    var n := |shapes| - 1;
    var before := TextBoxes(shapes[..n]);
    var last := if IsTextBox(shapes[n]) then [FrameText(shapes[n].frame)] else [];
    assert TextBoxes(shapes) == before + last;
    assert TextBoxes(replaced) == before[..c] + before[c + 1..] + last;
    DropBeforeTail(before, last, c);
  }

  /** Dropping element `c` of `a + b` where `c` indexes `a`. */
  lemma DropBeforeTail<T>(a: seq<T>, b: seq<T>, c: nat)
    requires c < |a|
    ensures (a + b)[..c] + (a + b)[c + 1..] == a[..c] + a[c + 1..] + b
  {
    assert (a + b)[..c] == a[..c];
    assert (a + b)[c + 1..] == a[c + 1..] + b;
  }

  /**
   * Whether lines 36-44 can read all six attributes of the kept run. Reading
   * `font.color.rgb` raises AttributeError unless the run sets an explicit
   * RGB colour, and a run that `add_run()` has just created sets none. So the
   * rewrite gets past line 44 only when the first paragraph has a run and
   * that run has an RGB colour.
   */
  predicate CanRewrite(frame: TextFrame)
    requires |frame.paragraphs| > 0
    ensures |frame.paragraphs[0].runs| > 0 && frame.paragraphs[0].runs[0] == NewRun() ==> !CanRewrite(frame)
  {
    var runs := frame.paragraphs[0].runs;
    |runs| > 0 && runs[0].font.color.Some?
  }

  /** The frame a completed rewrite leaves: one paragraph holding one run with the new text and the first run's formatting. */
  function Retext(frame: TextFrame, newText: string): (r: TextFrame)
    requires |frame.paragraphs| > 0 && CanRewrite(frame)
    ensures |r.paragraphs| == 1 && |r.paragraphs[0].runs| == 1
    ensures r.paragraphs[0].runs[0].font == frame.paragraphs[0].runs[0].font
    ensures FrameText(r) == newText
  {
    SingleRunText(newText, frame.paragraphs[0].runs[0].font);
    TextFrame([Paragraph([Run(newText, frame.paragraphs[0].runs[0].font)])])
  }

  /** The frame when line 44 raises: if the first paragraph had no runs, line 36 has already added an empty one. */
  function AbortedFrame(frame: TextFrame): (r: TextFrame)
    requires |frame.paragraphs| > 0
    ensures |r.paragraphs| == |frame.paragraphs|
    ensures r.paragraphs[1..] == frame.paragraphs[1..]
    ensures |r.paragraphs[0].runs| > 0
    ensures r.paragraphs[0].runs[0] == if frame.paragraphs[0].runs == [] then NewRun() else frame.paragraphs[0].runs[0]
  {
    var first := frame.paragraphs[0];
    if |first.runs| > 0 then frame
    else frame.(paragraphs := frame.paragraphs[0 := AddRun(first)])
  }

  /** The empty run added before the failure does not change the frame's text. */
  lemma AbortedFrameText(frame: TextFrame)
    requires |frame.paragraphs| > 0
    ensures FrameText(AbortedFrame(frame)) == FrameText(frame)
  {
    var first := frame.paragraphs[0];
    if |first.runs| == 0 {
      assert RunsText(AddRun(first).runs) == "" + RunsText([]);
      var ps := frame.paragraphs;
      assert AbortedFrame(frame).paragraphs == [AddRun(first)] + ps[1..];
      assert ps == [first] + ps[1..];
    }
  }

  /** The frame of the text box with 1-based ordinal `textBoxId`. */
  function TargetFrame(shapes: seq<Shape>, textBoxId: int): (frame: TextFrame)
    requires 1 <= textBoxId <= Count(shapes)
    ensures |frame.paragraphs| > 0
  {
    var i := BoxIndex(shapes, textBoxId - 1);
    TextBoxHasParagraph(shapes[i]);
    shapes[i].frame
  }

  /**
   * Whether the update of text box `textBoxId` raises AttributeError at line 44.
   * An ordinal that addresses no text box never raises; an addressed one raises
   * exactly when the first run, as line 36 leaves the frame, has no RGB colour.
   */
  predicate Raises(shapes: seq<Shape>, textBoxId: int)
    ensures textBoxId < 1 || Count(shapes) < textBoxId ==> !Raises(shapes, textBoxId)
    ensures 1 <= textBoxId <= Count(shapes) ==>
              (Raises(shapes, textBoxId) <==>
                 AbortedFrame(TargetFrame(shapes, textBoxId)).paragraphs[0].runs[0].font.color.None?)
  {
    1 <= textBoxId <= Count(shapes) && !CanRewrite(TargetFrame(shapes, textBoxId))
  }

  /**
   * The shapes after the update of the text box with 1-based ordinal
   * `textBoxId`, at its `return` or when its AttributeError propagates.
   */
  function UpdatedShapes(shapes: seq<Shape>, textBoxId: int, newText: string): (r: seq<Shape>)
    ensures |r| == |shapes|
    ensures forall i :: 0 <= i < |shapes| ==> r[i].hasTextFrame == shapes[i].hasTextFrame
    ensures textBoxId < 1 || Count(shapes) < textBoxId ==> r == shapes
    ensures 1 <= textBoxId <= Count(shapes) ==>
      forall i :: 0 <= i < |shapes| && i != BoxIndex(shapes, textBoxId - 1) ==> r[i] == shapes[i]
  {
    if 1 <= textBoxId <= Count(shapes) then
      var i := BoxIndex(shapes, textBoxId - 1);
      var frame := TargetFrame(shapes, textBoxId);
      shapes[i := shapes[i].(frame := if CanRewrite(frame) then Retext(frame, newText) else AbortedFrame(frame))]
    else
      shapes
  }

  /** The update as the counting loop performs it, at the shape where the counter reaches `textBoxId`. */
  lemma UpdateAt(shapes: seq<Shape>, i: nat, textBoxId: int, newText: string)
    requires i < |shapes| && IsTextBox(shapes[i]) && Count(shapes[..i]) == textBoxId - 1
    ensures 1 <= textBoxId <= Count(shapes) && BoxIndex(shapes, textBoxId - 1) == i
    ensures |shapes[i].frame.paragraphs| > 0
    ensures Raises(shapes, textBoxId) <==> !CanRewrite(shapes[i].frame)
    ensures UpdatedShapes(shapes, textBoxId, newText) ==
      shapes[i := shapes[i].(frame := if CanRewrite(shapes[i].frame) then Retext(shapes[i].frame, newText)
                                       else AbortedFrame(shapes[i].frame))]
  {
    TextBoxOrdinal(shapes, i);
    TextBoxHasParagraph(shapes[i]);
  }

  /**
   * The shape the update addresses is the one whose text is element
   * `textBoxId` (1-based) of the listing. If the update completes, the frame
   * becomes a single run holding `newText` formatted like the old first run;
   * if it raises, the frame keeps its text.
   */
  lemma UpdateRewritesListedBox(shapes: seq<Shape>, textBoxId: int, newText: string)
    requires 1 <= textBoxId <= Count(shapes)
    ensures var i := BoxIndex(shapes, textBoxId - 1);
      var before := shapes[i].frame;
      var after := UpdatedShapes(shapes, textBoxId, newText)[i].frame;
      && TextBoxes(shapes)[textBoxId - 1] == FrameText(before)
      && |before.paragraphs| > 0
      && (Raises(shapes, textBoxId) <==> !CanRewrite(before))
      && (!Raises(shapes, textBoxId) ==>
            && after == TextFrame([Paragraph([Run(newText, before.paragraphs[0].runs[0].font)])])
            && FrameText(after) == newText)
      && (Raises(shapes, textBoxId) ==> after == AbortedFrame(before) && FrameText(after) == FrameText(before))
  {
    var i := BoxIndex(shapes, textBoxId - 1);
    var before := TargetFrame(shapes, textBoxId);
    BoxIndexText(shapes, textBoxId - 1);
    if CanRewrite(before) {
      SingleRunText(newText, before.paragraphs[0].runs[0].font);
    } else {
      AbortedFrameText(before);
    }
  }

  /** An update that raises leaves the listing as it was. */
  lemma RaisingUpdateKeepsListing(shapes: seq<Shape>, textBoxId: int, newText: string)
    requires Raises(shapes, textBoxId)
    ensures TextBoxes(UpdatedShapes(shapes, textBoxId, newText)) == TextBoxes(shapes)
  {
    var i := BoxIndex(shapes, textBoxId - 1);
    UpdateRewritesListedBox(shapes, textBoxId, newText);
    var r := UpdatedShapes(shapes, textBoxId, newText);
    assert r == shapes[i := r[i]];
    ReplaceTextBox(shapes, i, r[i]);
    assert TextBoxes(shapes)[textBoxId - 1 := FrameText(r[i].frame)] == TextBoxes(shapes);
  }

  /**
   * With non-empty new text a completed update keeps the rewritten shape a
   * text box, so the listing changes only at the addressed ordinal; out of
   * range, or when the update raises, it does not change at all.
   */
  lemma UpdateKeepsOrdinals(shapes: seq<Shape>, textBoxId: int, newText: string)
    requires newText != ""
    ensures Count(UpdatedShapes(shapes, textBoxId, newText)) == Count(shapes)
    ensures TextBoxes(UpdatedShapes(shapes, textBoxId, newText)) ==
      if 1 <= textBoxId <= Count(shapes) && !Raises(shapes, textBoxId) then TextBoxes(shapes)[textBoxId - 1 := newText]
      else TextBoxes(shapes)
  {
    if Raises(shapes, textBoxId) {
      RaisingUpdateKeepsListing(shapes, textBoxId, newText);
    } else if 1 <= textBoxId <= Count(shapes) {
      var i := BoxIndex(shapes, textBoxId - 1);
      UpdateRewritesListedBox(shapes, textBoxId, newText);
      var r := UpdatedShapes(shapes, textBoxId, newText);
      assert r == shapes[i := r[i]];
      ReplaceTextBox(shapes, i, r[i]);
    }
  }

  /**
   * With empty new text a completed update makes the rewritten shape stop
   * being a text box, and later ordinals move down by one.
   */
  lemma EmptyTextShiftsOrdinals(shapes: seq<Shape>, textBoxId: int)
    requires 1 <= textBoxId <= Count(shapes)
    ensures !Raises(shapes, textBoxId) ==> Count(UpdatedShapes(shapes, textBoxId, "")) == Count(shapes) - 1
    ensures !Raises(shapes, textBoxId) ==>
      TextBoxes(UpdatedShapes(shapes, textBoxId, "")) == TextBoxes(shapes)[..textBoxId - 1] + TextBoxes(shapes)[textBoxId..]
    ensures Raises(shapes, textBoxId) ==> TextBoxes(UpdatedShapes(shapes, textBoxId, "")) == TextBoxes(shapes)
  {
    if Raises(shapes, textBoxId) {
      RaisingUpdateKeepsListing(shapes, textBoxId, "");
    } else {
      var i := BoxIndex(shapes, textBoxId - 1);
      UpdateRewritesListedBox(shapes, textBoxId, "");
      var r := UpdatedShapes(shapes, textBoxId, "");
      assert r == shapes[i := r[i]];
      ReplaceWithBlank(shapes, i, r[i]);
    }
  }

  /** One call of the update: a 1-based text-box ordinal and the text to put there. */
  datatype Edit = Edit(textBoxId: int, newText: string)

  /**
   * The shapes after the calls `edits`, made one after the other; a call that
   * raises ends the run. Only text boxes are ever touched.
   */
  function UpdatedShapesAll(shapes: seq<Shape>, edits: seq<Edit>): (r: seq<Shape>)
    ensures |r| == |shapes|
    ensures forall i :: 0 <= i < |shapes| ==> r[i].hasTextFrame == shapes[i].hasTextFrame
    ensures forall i :: 0 <= i < |shapes| && !IsTextBox(shapes[i]) ==> r[i] == shapes[i]
    decreases |edits|
  {
    if edits == [] then shapes
    else
      var next := UpdatedShapes(shapes, edits[0].textBoxId, edits[0].newText);
      if Raises(shapes, edits[0].textBoxId) then next else UpdatedShapesAll(next, edits[1..])
  }

  /** How many of the calls `edits` complete before one raises. */
  function Completed(shapes: seq<Shape>, edits: seq<Edit>): (n: nat)
    ensures n <= |edits|
    decreases |edits|
  {
    if edits == [] || Raises(shapes, edits[0].textBoxId) then 0
    else 1 + Completed(UpdatedShapes(shapes, edits[0].textBoxId, edits[0].newText), edits[1..])
  }

  /** The intended effect of one edit on a listing: an in-range ordinal gets its new text. */
  function Substitute(boxes: seq<string>, e: Edit): seq<string>
  {
    if 1 <= e.textBoxId <= |boxes| then boxes[e.textBoxId - 1 := e.newText] else boxes
  }

  /** The intended effect of `edits` on a listing, one edit after the other. */
  function Substituted(boxes: seq<string>, edits: seq<Edit>): (r: seq<string>)
    decreases |edits|
  {
    if edits == [] then boxes else Substituted(Substitute(boxes, edits[0]), edits[1..])
  }

  /** A call with non-empty text that does not raise has the intended effect of its edit on the listing. */
  lemma UpdateSubstitutes(shapes: seq<Shape>, e: Edit)
    requires e.newText != "" && !Raises(shapes, e.textBoxId)
    ensures TextBoxes(UpdatedShapes(shapes, e.textBoxId, e.newText)) == Substitute(TextBoxes(shapes), e)
  {
    UpdateKeepsOrdinals(shapes, e.textBoxId, e.newText);
  }

  /** Applying the first `n` edits is applying the first one, then the next `n - 1`. */
  lemma SubstitutedPrefix(boxes: seq<string>, edits: seq<Edit>, n: nat)
    requires 0 < n <= |edits|
    ensures Substituted(boxes, edits[..n]) == Substituted(Substitute(boxes, edits[0]), edits[1..][..n - 1])
  {
    var prefix := edits[..n];
    assert prefix[0] == edits[0];
    assert prefix[1..] == edits[1..][..n - 1];
  }

  /**
   * Successive calls with non-empty texts each hit the text box that held
   * their ordinal before any of them ran; a call that raises ends the run
   * with the listing left as the completed calls made it.
   */
  lemma {:induction false} SuccessiveUpdates(shapes: seq<Shape>, edits: seq<Edit>)
    requires forall e :: e in edits ==> e.newText != ""
    ensures TextBoxes(UpdatedShapesAll(shapes, edits)) ==
      Substituted(TextBoxes(shapes), edits[..Completed(shapes, edits)])
    decreases |edits|
  {
    if edits != [] {
      var e := edits[0];
      var next := UpdatedShapes(shapes, e.textBoxId, e.newText);
      if Raises(shapes, e.textBoxId) {
        RaisingUpdateKeepsListing(shapes, e.textBoxId, e.newText);
        assert edits[..Completed(shapes, edits)] == [];
      } else {
        assert e in edits;
        UpdateSubstitutes(shapes, e);
        assert forall d :: d in edits[1..] ==> d in edits;
        SuccessiveUpdates(next, edits[1..]);
        SubstitutedPrefix(TextBoxes(shapes), edits, Completed(shapes, edits));
      }
    }
  }

  /**
   * The five calls that fill slide 2: whatever the fetched values are, as
   * long as none is empty and all five complete, each lands in the box that
   * held its ordinal in the template.
   */
  lemma SlideTwoSubstitutions(shapes: seq<Shape>, geneName: string, officialGeneName: string,
                              ensemblId: string, uniprotId: string, sequenceSimilarity: string)
    requires Count(shapes) >= 10
    requires geneName != "" && officialGeneName != "" && ensemblId != ""
    requires uniprotId != "" && sequenceSimilarity != ""
    ensures var edits := [Edit(5, geneName), Edit(10, officialGeneName), Edit(8, ensemblId),
                          Edit(7, uniprotId), Edit(9, sequenceSimilarity)];
      Completed(shapes, edits) == 5 ==>
        TextBoxes(UpdatedShapesAll(shapes, edits)) ==
          TextBoxes(shapes)[4 := geneName][9 := officialGeneName][7 := ensemblId][6 := uniprotId][8 := sequenceSimilarity]
  {
    var edits := [Edit(5, geneName), Edit(10, officialGeneName), Edit(8, ensemblId),
                  Edit(7, uniprotId), Edit(9, sequenceSimilarity)];
    SuccessiveUpdates(shapes, edits);
    assert edits[..5] == edits;
    SubstitutedSlideTwo(TextBoxes(shapes), geneName, officialGeneName, ensemblId, uniprotId, sequenceSimilarity);
  }

  /** The five slide-2 edits, applied to a listing of at least ten boxes. */
  lemma SubstitutedSlideTwo(b0: seq<string>, geneName: string, officialGeneName: string,
                            ensemblId: string, uniprotId: string, sequenceSimilarity: string)
    requires |b0| >= 10
    ensures Substituted(b0, [Edit(5, geneName), Edit(10, officialGeneName), Edit(8, ensemblId),
                             Edit(7, uniprotId), Edit(9, sequenceSimilarity)]) ==
      b0[4 := geneName][9 := officialGeneName][7 := ensemblId][6 := uniprotId][8 := sequenceSimilarity]
  {
    var edits := [Edit(5, geneName), Edit(10, officialGeneName), Edit(8, ensemblId),
                  Edit(7, uniprotId), Edit(9, sequenceSimilarity)];
    var b1 := b0[4 := geneName];
    var b2 := b1[9 := officialGeneName];
    var b3 := b2[7 := ensemblId];
    var b4 := b3[6 := uniprotId];
    var b5 := b4[8 := sequenceSimilarity];
    assert Substituted(b0, edits) == Substituted(b1, edits[1..]);
    assert Substituted(b1, edits[1..]) == Substituted(b2, edits[2..]);
    assert Substituted(b2, edits[2..]) == Substituted(b3, edits[3..]);
    assert Substituted(b3, edits[3..]) == Substituted(b4, edits[4..]);
    assert Substituted(b4, edits[4..]) == Substituted(b5, edits[5..]);
  }
}
