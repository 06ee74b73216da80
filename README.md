# Text-box substitution and cross-reference selection, verified

`tutorial.py` fills a slide-deck template with data about one protein. Most of
the script calls HTTP, plotting and dataframe libraries. Two pieces of its own
logic are modelled and proved here:

1. **Ordinal text-box addressing.** `list_text_boxes` and `update_text_of_textbox`
   number a slide's *text boxes* from 1. A text box is a shape that has a text
   frame holding non-empty text. The update rewrites the k-th text box in place.
   It keeps the first run's font, clears the frame, and writes the new text as a
   single run with that font. Reading the kept colour raises AttributeError when
   that run has no explicit RGB colour, and the model carries that failure.
2. **Cross-reference selection.** The script picks values out of UniProt's
   cross-reference and comment lists with list comprehensions. Three of them
   (PANTHER family name, OpenTargets/Ensembl id, SIMILARITY comment) then take
   element `[0]`, which raises IndexError when nothing matches. The GeneID
   lookup keeps the whole list.

Layout:

- `wrappers.dfy` (module `Wrappers`): `Option`.
- `pptx.dfy` (module `Pptx`): the deck as values. A slide is a sequence of
  shapes. A shape has a `hasTextFrame` flag and a frame, the frame holds
  paragraphs, and the paragraphs hold runs. A run has its text and a `Font` with
  name, size, bold, italic, underline and RGB colour, each optional. It also
  models the three python-pptx operations the update uses: the frame's text,
  `clear()` and `add_run()`.
- `ordinals.dfy` (module `Ordinals`): the specification of ordinal addressing.
  `Count`, `TextBoxes` (the listing), `BoxIndex` (where the k-th box is) and
  `UpdatedShapes` (the effect of one update). It holds the lemmas about these:
  the listing is exact and in order, only the target changes, and ordinals are
  stable across successive updates.
- `presentation.dfy` (module `Presentations`): class `Presentation`. Its
  `slides` field is reassigned by `UpdateTextOfTextbox`. Both helpers are
  methods with the source's loop and counter, proved against the functions of
  `Ordinals`. `RewriteFrame` performs the frame rewrite step by step.
- `cross_references.dfy` (module `CrossReferences`): the comprehension
  `Select`, the match indices `FirstMatch` and `NthMatch`, and the four lookups
  with the names the script uses.

The text of a frame is defined the way python-pptx reads it: each paragraph's
runs are concatenated, and paragraphs are joined by line feeds. The proofs
unfold that definition; the facts about it they rely on are stated as
contracts. A frame reads as empty exactly when it has no paragraph, or one
paragraph whose runs are all empty. A frame of one paragraph holding one run
reads back as that run's text. `clear()` leaves a single empty paragraph, which
reads as empty. `add_run()` appends an empty run with no formatting, which
leaves the paragraph's text as it was.
Reading `font.color.rgb` succeeds only for a run with an explicit RGB colour.
The model's `Font.color` is `None` for every other run, whether it has no
colour or a theme colour. A run just created by `add_run()` has none. So an
update whose addressed box has no runs in its first paragraph, or whose first
run has no RGB colour, stops at line 44 with AttributeError. It stops before
the frame is cleared. The only change the model records is the empty run that
line 36 may have added.


## Model

| member | source | states |
|---|---|---|
| `Pptx.FrameText` | tutorial.py:18-19 | `shape.text` of a frame with one paragraph is the text of that paragraph's runs |
| `Pptx.FrameTextEmpty` | tutorial.py:31 | a frame reads as empty, and so fails the filter, exactly when it has no paragraph or one paragraph whose runs are all empty; a second paragraph always brings a line feed |
| `Pptx.TextBoxHasParagraph` | tutorial.py:31-35 | a shape that passes the text-box filter has a first paragraph, so `paragraphs[0]` cannot fail |
| `Pptx.SingleRunText` | tutorial.py:46-48 | a cleared frame with one run holding `t` reads back as `t` |
| `Pptx.NewRun` | tutorial.py:36 | the run `add_run()` creates is empty and has no RGB colour |
| `Pptx.AddRun` | tutorial.py:36 | `add_run()` keeps the existing runs, puts a new empty run after them, and leaves the paragraph's text as it was |
| `Pptx.Clear` | tutorial.py:46 | `clear()` leaves exactly one paragraph, with no runs, and the frame reads as empty |
| `Ordinals.Count` | tutorial.py:29-32 | the counter never exceeds the number of shapes |
| `Ordinals.TextBoxes` | tutorial.py:14-20 | the listing has one entry per text box, and every listed text is non-empty |
| `Ordinals.BoxIndex` | tutorial.py:30-33 | the shape reached when the counter equals k+1 is a text box with exactly k text boxes before it |
| `Ordinals.CountPrefix` | tutorial.py:31-32 | the counter never decreases along the shapes, and it strictly grows past a text box |
| `Ordinals.TextBoxOrdinal` | tutorial.py:17-19 | every text box gets an ordinal; its text is the listing entry at that ordinal, and addressing that ordinal finds this shape |
| `Ordinals.BoxIndexText` | tutorial.py:17-19 | listing entry k is the text of the shape that ordinal k+1 addresses, because both helpers use the same filter and order |
| `Ordinals.BoxIndexOrdered` | tutorial.py:17-18 | smaller ordinals belong to earlier shapes, so the listing is in slide order |
| `Ordinals.ReplaceTextBox` | tutorial.py:31 | replacing a text box by another text box changes only that box's entry in the listing |
| `Ordinals.ReplaceWithBlank` | tutorial.py:31 | replacing a text box by a shape with empty text removes its entry, and later entries move down |
| `Pptx.IsTextBox` | tutorial.py:18 | a shape passes the filter `shape.has_text_frame and shape.text` of lines 18 and 31 when it has a text frame with non-empty text; a frame that `clear()` has just emptied never passes it |
| `Ordinals.CanRewrite` | tutorial.py:36-44 | line 44 can read the kept run's `font.color.rgb` only when the first paragraph has a run with an explicit RGB colour; a run that `add_run()` has just created never has one |
| `Ordinals.Retext` | tutorial.py:46-55 | the frame lines 46-55 leave has one paragraph holding one run, in the font of the old first run, and reads back as the new text |
| `Ordinals.AbortedFrame` | tutorial.py:36-44 | the frame when line 44 raises keeps its paragraphs after the first. Its first paragraph has a first run: the old first run, or the run line 36 added when there was none |
| `Ordinals.AbortedFrameText` | tutorial.py:36 | the empty run line 36 adds before a failure does not change the frame's text |
| `Ordinals.TargetFrame` | tutorial.py:33-35 | the addressed text box's frame has a first paragraph |
| `Ordinals.Raises` | tutorial.py:30-44 | the update raises AttributeError only for an ordinal that addresses a text box; it then raises exactly when the first run of the first paragraph, as line 36 leaves it, has no RGB colour |
| `Ordinals.UpdatedShapes` | tutorial.py:30-56 | the update keeps the number of shapes and every has-text-frame flag; an ordinal below 1 or above the count changes nothing; otherwise every shape except the addressed one is unchanged |
| `Ordinals.UpdateAt` | tutorial.py:30-55 | where the counter first equals `textBoxId`, at a text box, the ordinal is in range and addresses that shape. The update raises exactly when that frame cannot be rewritten, and otherwise replaces only that shape's frame |
| `Ordinals.UpdateRewritesListedBox` | tutorial.py:30-55 | the addressed shape is the one whose text is listing entry k. The update raises exactly when that frame's first run is missing or has no RGB colour, and the frame then keeps its text. Otherwise the frame becomes one paragraph with one run holding the new text in the old first run's font, and it reads back as the new text |
| `Ordinals.RaisingUpdateKeepsListing` | tutorial.py:36-44 | an update that raises leaves the listing of text boxes unchanged |
| `Ordinals.UpdateKeepsOrdinals` | tutorial.py:31-48 | with non-empty new text the count is unchanged; a completed in-range update changes the listing only at entry k, to the new text, and every other update leaves it unchanged |
| `Ordinals.EmptyTextShiftsOrdinals` | tutorial.py:31-48 | with empty new text a completed update drops the count by one and moves later ordinals down by one; one that raises leaves the listing unchanged |
| `Ordinals.UpdatedShapesAll` | tutorial.py:92-96 | the successive calls, stopping after the first one that raises, keep the number of shapes and every has-text-frame flag, and never change a shape that is not a text box |
| `Ordinals.Completed` | tutorial.py:92-96 | the number of successive calls that complete before one raises is at most the number of calls |
| `Ordinals.SuccessiveUpdates` | tutorial.py:92-96 | successive updates with non-empty texts each hit the box that held their ordinal before any of them ran; the calls that complete before one raises are the ones that take effect |
| `Ordinals.SlideTwoSubstitutions` | tutorial.py:92-96 | for a template slide with at least ten text boxes and five non-empty values, when all five slide-2 calls complete they put each value into the template's boxes 5, 10, 8, 7 and 9 |
| `Presentations.RewriteFrame` | tutorial.py:34-55 | raises exactly when the kept run is missing or has no RGB colour, and then leaves the frame as line 36 left it. Otherwise it leaves exactly one paragraph with one run holding the new text, whose six font attributes equal the old first run's |
| `Presentations.Presentation.constructor` | tutorial.py:12 | a presentation holds the slides it was loaded with |
| `Presentations.Presentation.ListTextBoxes` | tutorial.py:14-20 | returns the texts of the slide's text boxes, one per text box and in slide order: entry k is the text of the shape ordinal k+1 addresses |
| `Presentations.Presentation.UpdateTextOfTextbox` | tutorial.py:27-56 | reports the AttributeError exactly when `Raises` holds. The new deck is the old one with slide `slide` replaced by `UpdatedShapes` of its shapes, and every other slide is unchanged |
| `CrossReferences.Select` | tutorial.py:85 | the comprehension fails exactly when some kept record's projection fails; otherwise it has one value per matching record |
| `CrossReferences.CountMatches` | tutorial.py:108 | the number of matching records is at most the number of records |
| `CrossReferences.NthMatch` | tutorial.py:108 | match number k is a matching record with exactly k matches before it |
| `CrossReferences.FirstMatch` | tutorial.py:85-89 | the first record whose key is the name, with no match before it, or the length when none matches |
| `CrossReferences.SelectHead` | tutorial.py:85-89 | a successful comprehension is empty exactly when nothing matches; otherwise its element `[0]` is the first match's value |
| `CrossReferences.SelectNth` | tutorial.py:108 | a successful comprehension holds one value per match, in record order: element k is the projection of match number k |
| `CrossReferences.SelectMembers` | tutorial.py:108 | every value of a comprehension comes from a matching record, and every matching record contributes its value |
| `CrossReferences.Head` | tutorial.py:85-89 | Python's `[0]`: IndexError exactly when the list is empty, otherwise its first element |
| `CrossReferences.MatchingIds` | tutorial.py:108 | the ids of the entries of a database, one per matching entry and in list order; empty exactly when none matches |
| `CrossReferences.FirstId` | tutorial.py:87 | the id of the first entry of a database; IndexError exactly when no entry matches |
| `CrossReferences.FirstPropertyValue` | tutorial.py:85 | the first property value of the first entry of a database. IndexError exactly when nothing matches or when any matching entry has no properties, because the comprehension evaluates every match |
| `CrossReferences.FirstCommentText` | tutorial.py:89 | the first text of the first comment of a type. IndexError exactly when there is no such comment or when any such comment has no texts |
| `CrossReferences.OfficialGeneName` | tutorial.py:85 | the first property value of the first "PANTHER" entry. IndexError exactly when there is none, or when any "PANTHER" entry has no properties |
| `CrossReferences.EnsemblId` | tutorial.py:87 | the id of the first "OpenTargets" entry; IndexError exactly when there is none |
| `CrossReferences.SequenceSimilarity` | tutorial.py:89 | the first text of the first "SIMILARITY" comment. IndexError exactly when there is none, or when any such comment has no texts |
| `CrossReferences.NcbiIds` | tutorial.py:108 | the ids of the "GeneID" entries, one per entry and in list order, possibly none; element 0 is the id of the first "GeneID" entry |

## Left out

- Network access is not modelled: `retrieve_data`, the UniProt GET, `get_gene_summary` (Entrez) and the Open Targets GraphQL request. The fetched records are parameters of the lookups.
- The plain dictionary reads of the fetched data are not modelled: the gene name (line 83) and the sequence, length and weight (lines 114-116). They contain no selection logic.
- Lookups do not model a missing dictionary key (a KeyError). Records always carry their fields.
- The dataframe reshaping, the top-10 sorting, chart rendering, `add_image_to_slide`, loading and saving the file, and `main` are not modelled. They are library calls, floating-point data or file I/O.
- The commented-out helpers at the end of the file are not modelled, because they are dead code.
- `Presentations.Presentation.ListTextBoxes` and `Presentations.Presentation.UpdateTextOfTextbox` require `1 <= slide <= |slides|`. Python's negative indexing for a slide number of 0 or less is not modelled, and neither is the IndexError for a slide number past the end. Every call in the script uses a literal slide number from 1 to 5.
- Shapes are values inside the presentation's slide list. Object identity, and aliasing between python-pptx proxies, are not modelled.
- A raising update also has effects the model does not record. python-pptx's `font.color` first gives the run a solid fill when it has none, and only then fails on `.rgb`. `Font` has no fill, so `Ordinals.AbortedFrame` leaves the kept run's formatting as it was.
- An AttributeError from `update_text_of_textbox` ends the script, because nothing catches it. The model reports it as an out-parameter, together with the deck state at that point. `UpdatedShapesAll` stops at the first call that raises.
- Frame text ignores line breaks inside a paragraph and text fields. Paragraph-level properties, which python-pptx's `clear()` keeps on the first paragraph, are not modelled.
- `Presentations.RewriteFrame`: the colour is modelled only as "an explicit RGB value or not". Which non-RGB colour a run had (none, or a theme colour) is not modelled, because the read fails for all of them. Underline styles other than on/off are not modelled.
