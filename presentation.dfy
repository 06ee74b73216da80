/**
 * The presentation object of tutorial.py and its two text-box helpers. The
 * deck's slides are a field that `UpdateTextOfTextbox` reassigns; the shapes
 * inside are values.
 */
module Presentations {
  import opened Pptx
  import opened Ordinals

  /**
   * Lines 34-55 of `update_text_of_textbox`: remember the first run's
   * formatting (adding a run if the first paragraph has none), clear the
   * frame, add one run with the new text and reapply the six attributes.
   * `raised` reports the AttributeError of line 44, when the kept run has no
   * explicit RGB colour; `r` is then the frame as far as line 36 left it.
   */
  method RewriteFrame(frame: TextFrame, newText: string) returns (r: TextFrame, raised: bool)
    requires |frame.paragraphs| > 0
    ensures raised <==> !CanRewrite(frame)
    ensures raised ==> r == AbortedFrame(frame) && FrameText(r) == FrameText(frame)
    ensures !raised ==> r == Retext(frame, newText)
    ensures !raised ==> |r.paragraphs| == 1 && |r.paragraphs[0].runs| == 1
    ensures !raised ==> r.paragraphs[0].runs[0] == Run(newText, frame.paragraphs[0].runs[0].font)
    ensures !raised ==> FrameText(r) == newText
  {
    var textFrame := frame;
    var firstParagraph := textFrame.paragraphs[0];
    var firstRun: Run;
    if |firstParagraph.runs| > 0 {
      firstRun := firstParagraph.runs[0];
    } else {
      firstParagraph := AddRun(firstParagraph);
      textFrame := textFrame.(paragraphs := textFrame.paragraphs[0 := firstParagraph]);
      firstRun := firstParagraph.runs[|firstParagraph.runs| - 1];
    }
    var font := firstRun.font;
    var fontName, fontSize, fontBold := font.name, font.size, font.bold;
    var fontItalic, fontUnderline := font.italic, font.underline;
    if font.color.None? {
      // `font.color.rgb` has no RGB colour to return
      AbortedFrameText(frame);
      r, raised := textFrame, true;
      return;
    }
    var fontColor := font.color;

    textFrame := Clear(textFrame);
    var paragraph := AddRun(textFrame.paragraphs[0]);
    assert paragraph.runs == [NewRun()];
    var last := |paragraph.runs| - 1;
    var newRun := paragraph.runs[last].(text := newText);

    newRun := newRun.(font := newRun.font.(name := fontName));
    newRun := newRun.(font := newRun.font.(size := fontSize));
    newRun := newRun.(font := newRun.font.(bold := fontBold));
    newRun := newRun.(font := newRun.font.(italic := fontItalic));
    newRun := newRun.(font := newRun.font.(underline := fontUnderline));
    newRun := newRun.(font := newRun.font.(color := fontColor));
    paragraph := paragraph.(runs := paragraph.runs[last := newRun]);
    r, raised := textFrame.(paragraphs := textFrame.paragraphs[0 := paragraph]), false;
    assert paragraph.runs == [newRun];
    SingleRunText(newText, newRun.font);
  }

  class Presentation {
    var slides: seq<Slide>

    /** A deck as loaded from the template file. */
    constructor (slides: seq<Slide>)
      ensures this.slides == slides
    {
      this.slides := slides;
    }

    /** `list_text_boxes`: the texts of slide `slideNum`'s text boxes, in shape order. */
    method ListTextBoxes(slideNum: int) returns (textBoxes: seq<string>)
      requires 1 <= slideNum <= |slides|
      ensures textBoxes == TextBoxes(slides[slideNum - 1].shapes)
      ensures |textBoxes| == Count(slides[slideNum - 1].shapes)
      ensures forall k :: 0 <= k < |textBoxes| ==>
        textBoxes[k] == FrameText(slides[slideNum - 1].shapes[BoxIndex(slides[slideNum - 1].shapes, k)].frame)
    {
      var shapes := slides[slideNum - 1].shapes;
      textBoxes := [];
      var i := 0;
      while i < |shapes|
        invariant 0 <= i <= |shapes|
        invariant textBoxes == TextBoxes(shapes[..i])
      {
        var shape := shapes[i];
        assert shapes[..i + 1][..i] == shapes[..i];
        if shape.hasTextFrame && FrameText(shape.frame) != "" {
          textBoxes := textBoxes + [FrameText(shape.frame)];
        }
        i := i + 1;
      }
      assert shapes[..i] == shapes;
      forall k | 0 <= k < |textBoxes|
        ensures textBoxes[k] == FrameText(shapes[BoxIndex(shapes, k)].frame)
      {
        BoxIndexText(shapes, k);
      }
    }

    /**
     * `update_text_of_textbox`: count the text boxes of slide `slide` and
     * rewrite the one whose 1-based ordinal is `textBoxId`; with no such box
     * the loop ends and nothing changes. `raised` reports the AttributeError
     * the rewrite raises when the box's first run has no RGB colour.
     */
    method UpdateTextOfTextbox(slide: int, textBoxId: int, newText: string) returns (raised: bool)
      requires 1 <= slide <= |slides|
      modifies this
      ensures raised == Raises(old(slides)[slide - 1].shapes, textBoxId)
      ensures slides == old(slides)[slide - 1 := Slide(UpdatedShapes(old(slides)[slide - 1].shapes, textBoxId, newText))]
    {
      var shapes := slides[slide - 1].shapes;
      var count := 0;
      var i := 0;
      raised := false;
      while i < |shapes|
        invariant 0 <= i <= |shapes|
        invariant count == Count(shapes[..i])
        invariant textBoxId < 1 || count < textBoxId
        invariant slides == old(slides)
      {
        var shape := shapes[i];
        assert shapes[..i + 1][..i] == shapes[..i];
        if shape.hasTextFrame && FrameText(shape.frame) != "" {
          count := count + 1;
          if count == textBoxId {
            UpdateAt(shapes, i, textBoxId, newText);
            var frame;
            frame, raised := RewriteFrame(shape.frame, newText);
            slides := slides[slide - 1 := Slide(shapes[i := shape.(frame := frame)])];
            return;
          }
        }
        i := i + 1;
      }
      assert shapes[..i] == shapes;
    }
  }
}
