/**
 * A value model of the parts of a python-pptx presentation that the text-box
 * helpers of tutorial.py read and write: slides hold shapes, a shape may have a
 * text frame, a frame holds paragraphs, a paragraph holds runs, and a run holds
 * its text and its character formatting.
 */
module Pptx {
  import opened Wrappers

  /** A colour as python-pptx's RGBColor holds it: three bytes. */
  datatype Rgb = Rgb(red: bv8, green: bv8, blue: bv8)

  /**
   * The six run-level attributes the update copies. Each is `None` when the
   * run does not set it and inherits it from the shape or the theme; `color`
   * is `None` also when the run's colour is not an explicit RGB value (a
   * theme colour, say), which python-pptx cannot read as RGB either.
   */
  datatype Font = Font(
    name: Option<string>,
    size: Option<nat>,
    bold: Option<bool>,
    italic: Option<bool>,
    underline: Option<bool>,
    color: Option<Rgb>)

  /** The formatting of a freshly added run: nothing set. */
  const DefaultFont := Font(None, None, None, None, None, None)

  datatype Run = Run(text: string, font: Font)

  datatype Paragraph = Paragraph(runs: seq<Run>)

  datatype TextFrame = TextFrame(paragraphs: seq<Paragraph>)

  /** `frame` is meaningful only when `hasTextFrame` holds. */
  datatype Shape = Shape(hasTextFrame: bool, frame: TextFrame)

  datatype Slide = Slide(shapes: seq<Shape>)

  /** The text of a sequence of runs: their texts one after the other. */
  function RunsText(runs: seq<Run>): string
  {
    if runs == [] then "" else runs[0].text + RunsText(runs[1..])
  }

  /** The text of a sequence of paragraphs, separated by line feeds. */
  function ParagraphsText(paragraphs: seq<Paragraph>): string
  {
    if |paragraphs| == 0 then ""
    else if |paragraphs| == 1 then RunsText(paragraphs[0].runs)
    else RunsText(paragraphs[0].runs) + "\n" + ParagraphsText(paragraphs[1..])
  }

  /**
   * What `shape.text` / `text_frame.text` read for a frame: a frame of one
   * paragraph reads as that paragraph's runs.
   */
  function FrameText(frame: TextFrame): (t: string)
    ensures |frame.paragraphs| == 1 ==> t == RunsText(frame.paragraphs[0].runs)
  {
    ParagraphsText(frame.paragraphs)
  }

  /**
   * A frame reads as empty exactly when it has no paragraph, or one paragraph
   * whose runs are all empty: a second paragraph always brings a line feed.
   */
  lemma FrameTextEmpty(frame: TextFrame)
    ensures FrameText(frame) == "" <==>
      || |frame.paragraphs| == 0
      || (|frame.paragraphs| == 1 && RunsText(frame.paragraphs[0].runs) == "")
  {
    var ps := frame.paragraphs;
    if |ps| > 1 {
      assert FrameText(frame)[|RunsText(ps[0].runs)|] == '\n';
    }
  }

  /**
   * The filter shared by `list_text_boxes` and `update_text_of_textbox`:
   * a shape with a text frame whose text is not empty. A frame that
   * `clear()` has just emptied never passes it.
   */
  predicate IsTextBox(shape: Shape)
    ensures shape.frame == Clear(shape.frame) ==> !IsTextBox(shape)
  {
    shape.hasTextFrame && FrameText(shape.frame) != ""
  }

  /** A text box always has a first paragraph to read formatting from. */
  lemma TextBoxHasParagraph(shape: Shape)
    requires IsTextBox(shape)
    ensures |shape.frame.paragraphs| > 0
  {
  }

  /** A frame of one paragraph holding one run reads back as that run's text. */
  lemma SingleRunText(text: string, font: Font)
    ensures FrameText(TextFrame([Paragraph([Run(text, font)])])) == text
  {
    assert RunsText([Run(text, font)]) == text + RunsText([]);
  }

  /** The run `add_run` creates: empty, with no formatting of its own, so no RGB colour. */
  function NewRun(): (r: Run)
    ensures r.text == "" && r.font.color == None
  {
    Run("", DefaultFont)
  }

  /** An empty run at the end adds nothing to the text of the runs. */
  lemma {:induction false} RunsTextNewRun(runs: seq<Run>)
    ensures RunsText(runs + [NewRun()]) == RunsText(runs)
  {
    if runs != [] {
      assert (runs + [NewRun()])[1..] == runs[1..] + [NewRun()];
      RunsTextNewRun(runs[1..]);
    }
  }

  /**
   * `paragraph.add_run()`: a new empty run after the existing ones, which
   * leaves the paragraph's text as it was.
   */
  function AddRun(paragraph: Paragraph): (r: Paragraph)
    ensures |r.runs| == |paragraph.runs| + 1 && r.runs[..|paragraph.runs|] == paragraph.runs
    ensures r.runs[|paragraph.runs|] == NewRun()
    ensures RunsText(r.runs) == RunsText(paragraph.runs)
  {
    RunsTextNewRun(paragraph.runs);
    Paragraph(paragraph.runs + [NewRun()])
  }

  /** `text_frame.clear()`: what is left is a single empty paragraph, whose text is empty. */
  function Clear(frame: TextFrame): (r: TextFrame)
    ensures |r.paragraphs| == 1 && r.paragraphs[0].runs == []
    ensures FrameText(r) == ""
  {
    TextFrame([Paragraph([])])
  }
}
