# 2bhai liina baani bhodi: a verified model of the page renderer

The program builds one dictionary page per character (燐字) of the
dictionary. An `Article` has two parts. The first is the character's own
section (`LinziPortion`): unnumbered blocks, titled blocks, an image, then
more titled blocks. The second is one `LangEntry` per language, each a list
of titled blocks. Before rendering, a *lenticular pass* rewrites every string
of the article: each character written between `【` and `】` becomes a link to
that character's page. The page is then printed twice:

- as a body, an `IndentedStr` tree of `section`s inside an `article`. Its
  `h2`/`h3` headings carry anchors `TOC--n`, numbered by a counter that is
  threaded through the whole render;
- as a table of contents (`generate_toc`), a nested `ol` built from an
  *outline* (section titles with their subsection titles). The outline
  recomputes the anchor numbers with a counter of its own.

The model has eight modules:

| module | models |
|---|---|
| `Text` | decimal printing of counters, and joining and splitting lines |
| `Lenticular` | `src/lenticular.rs`: the two-state string scanner, its three errors, and the pair and `Vec` impls |
| `Indented` | the `IndentedStr` tree of `src/markup.rs` (and `Foo` of `src/bar.rs`, which has the same shape), `strs` and `Display` |
| `Anchors` | reading printed lines back: the anchor an `h2`/`h3` line carries, and the link a table-of-contents line holds |
| `Language` | `Lang` and `ja` |
| `Toc` | `generate_toc` (identical in both source files), and the links it prints |
| `Markup` | `src/markup.rs`: blocks into lines, `render_lang_entry`, `LinziPortion::render`, `write_page` without the file write, and the `Lenticular` impls of the document types |
| `BarSnapshot` | `src/bar.rs`: the older pipeline with `Ul`/`Ol` blocks, `bar`, `LinziPortion::render` and `hoge`; it reuses the current pipeline's `<hr>` line, front matter and image block, which print the same lines |

Every loop of the source that updates a counter or an accumulator is a
method. The method's `ensures` ties its result to a specification function,
for example `RenderLangEntry` against `LangEntrySection`, or `GenerateToc`
against `TocTree`. A `&mut usize` counter is an in-parameter together with
the method's out-parameter for its new value.

The central property is the agreement between body anchors and table-of-contents
links. Both sides are read off the printed lines themselves: `Anchors.AnchorIn`
reads the `(title, number)` an `h2`/`h3` line carries through its
`<a name="TOC--label">`, and `Anchors.LinkIn` reads the `(title, number)` a
table-of-contents line links to through its `href="#TOC--label"`.
`PrintedAnchors` and `PrintedLinks` collect them over every line `strs`
prints, in order.

- `Toc.TocAnchorsConsecutive`: the printed table of contents links its
  titles to 0, 1, 2, … in document order.
- `Markup.PageAnchors`: the printed body carries its titles at anchors 0, 1,
  2, … in document order. The character's section numbers every title; a
  language section numbers only its non-empty titles.
- `Markup.AnchorsAgree`: without empty titles, the anchors of the body and
  the links of the table of contents are the same numbers, in the same order,
  for the same titles. The body shows a language's header as a link to its
  page; the table of contents shows its name.
- `Markup.WritePage` states this of the two strings `write_page` builds
  (`Markup.PrintedPage`), when no text, title, image path, language name or
  page address of the article holds a newline (`Markup.OneLineText`). The body
  string, split at newlines, gives back the printed lines. The table of
  contents does not: every subsection line of `generate_toc` holds a newline
  of its own, before `</strong>` (src/markup.rs:173, src/bar.rs:128-129), so
  it displays as two lines. Its reader `Toc.DisplayedLinks` splits the string
  at newlines and glues each such continuation back onto the line before it
  (`Anchors.Rejoined`); `Toc.TocDisplayed` shows that this gives back the
  printed lines exactly.
- `BarSnapshot.AnchorsAgree`: in the older pipeline, the printed anchors and
  links agree for every character section and every list of languages,
  provided that `lang.h2` prints an anchored heading (see "## Left out").
  `BarSnapshot.Hoge` and `BarSnapshot.PrintedHoge` state it of the two
  strings, when in addition no text holds a newline and no line `h2` prints
  does (`BarSnapshot.OneLineLinzi`, `BarSnapshot.OneLineLangs`).
- The current code treats empty titles differently in its two numberings.
  - `render_lang_entry` gives an empty title no number, but the outline of
    a language section keeps it.
  - `LinziPortion::render` numbers every `v1` and `v2` title, empty or not
    (src/markup.rs:219-236), but the outline of the character's section drops
    the empty ones (src/markup.rs:66-73).
  - `Markup.EmptyLinziTitleDiverges` and `Markup.EmptyEntryTitleDiverges`
    exhibit both cases on concrete printed pages. Both model the code as
    written.

## Model

| member | source | states |
|---|---|---|
| `Text.DecimalRoundTrip` | src/markup.rs:101-108 | the decimal text of an anchor number parses back to that number, so distinct anchors print differently (`DecimalInjective`) |
| `Text.SplitJoin` | src/markup.rs:137-141 | joining lines with a newline and splitting at newlines gives the lines back when no line holds a newline |
| `Text.SplitJoinPieces` | src/markup.rs:137-141 | splitting lines joined by a separator splits each line on its own, in order |
| `Anchors.LabelRoundTrip` | src/markup.rs:101-108 | the label printed after `TOC--` (empty for 0, decimal otherwise) reads back as its number |
| `Anchors.LabelUnique` | src/markup.rs:101-108 | a label that reads as a number is that number's label, so each anchor has one name |
| `Anchors.WithTocRead` | src/markup.rs:101-108 | the line `with_toc` prints for `h2` or `h3` at number `n >= 1` carries exactly its title at `n` |
| `Anchors.LinkInOf` | src/markup.rs:159-176 | a section or subsection line of the table of contents links its title to the number its label names |
| `Anchors.FoundTag` | src/markup.rs:121-134 | what a printed tag carries is what its opening line, its children and its closing line carry, in that order |
| `Anchors.DisplayedFound` | src/markup.rs:137-141 | the displayed text, split at newlines, carries the same anchors and links as the tree's lines, when no line holds a newline |
| `Anchors.TagSingle` | src/markup.rs:121-134 | a tag whose name, attributes and children print no line with a newline prints none itself |
| `Anchors.RejoinedPieces` | src/markup.rs:137-141 | splitting lines that are whole (one line, or one line and a `</strong>` continuation) and gluing continuations back gives the lines |
| `Anchors.DisplayedRejoined` | src/markup.rs:137-141 | the displayed text of a tree of whole lines, split at newlines and rejoined, is the tree's printed lines |
| `Lenticular.Linkify` | src/lenticular.rs:56-102 | a failing string reports exactly one error, and that error carries the whole input string |
| `Lenticular.LenticularToLink` | src/lenticular.rs:58-101 | the character loop with its `inside_lenticular` flag computes exactly the scanner `Linkify` |
| `Lenticular.LinkifyWellFormed` | src/lenticular.rs:59-100 | a well-formed string, verbatim text and bracket-free bracketed runs, succeeds; each bracketed character becomes its link, the rest is copied, `【】` vanishes |
| `Lenticular.LinkifySucceeds` | src/lenticular.rs:59-100 | conversely, every success comes from a well-formed reading of the input and is that reading's rewrite |
| `Lenticular.LinkifyBracketFree` | src/lenticular.rs:89 | a string without brackets is returned unchanged |
| `Lenticular.LinkifyStrayClose` | src/lenticular.rs:84-88 | a `】` reached outside brackets fails with `MismatchedRightLenticular` of the whole input, whatever follows |
| `Lenticular.LinkifyNestedOpen` | src/lenticular.rs:64-68 | a `【` reached inside brackets fails with `LenticularInsideLenticular` of the whole input, whatever follows |
| `Lenticular.LinkifyUnclosed` | src/lenticular.rs:94-98 | input ending inside brackets fails with `MismatchedLeftLenticular` of the whole input |
| `Lenticular.LinkifyPair` | src/lenticular.rs:16-32 | a pair succeeds iff both sides do, and then holds both rewrites; its errors are the left side's followed by the right side's |
| `Lenticular.LenticularToLinkSeq` | src/lenticular.rs:38-53 | the loop that collects successes and appends errors computes `LinkifySeq` |
| `Lenticular.LinkifySeqOk` | src/lenticular.rs:48-52 | a sequence succeeds iff every element does, and then element `i` of the result is the rewrite of element `i` |
| `Lenticular.AllErrorsEmpty` | src/lenticular.rs:44-48 | no error is collected iff every element succeeds, given that failures report at least one error |
| `Lenticular.AllErrorsAppend` | src/lenticular.rs:41-46 | errors and successes of a concatenation are those of the parts, in order |
| `Lenticular.LinkifySeqOfStrings` | src/lenticular.rs:41-46 | on a `Vec<String>`, the errors name exactly the failing strings, one error each, in order |
| `Lenticular.PairExpected` | src/lenticular.rs:21-31 | a pair whose sides each behave as "rewrite all their strings" behaves so for the concatenated strings |
| `Lenticular.SeqExpected` | src/lenticular.rs:38-53 | a `Vec` whose elements each behave as "rewrite all their strings" behaves so for all elements' strings in order |
| `Lenticular.LinkifyStrings` | src/lenticular.rs:34-54 | a `Vec<String>` succeeds iff all its strings do, with every string rewritten, else with every string's errors |
| `Lenticular.ExpectedMeaning` | src/lenticular.rs:34-54 | success iff every string succeeds; on success the value is the rewrite; on failure the errors name exactly the failing strings |
| `Indented.StrsOf` | src/markup.rs:121-134 | the recursive `strs` with its per-child append loop computes `Strs` |
| `Indented.Strs` | src/markup.rs:121-134 | a line prints as itself; a tag prints at least two lines, its opening `<name rest` first and `</name>` last |
| `Indented.StrsIndented` | src/markup.rs:127 | every line strictly inside a tag begins with two spaces |
| `Indented.StrsAtTop` | src/markup.rs:121-134 | the bottom-up re-indentation equals top-down printing, with each node behind two spaces per nesting level |
| `Indented.StrsIsEmit` | src/markup.rs:124-132 | at any padding, prefixing the printed lines equals printing at that depth |
| `Indented.StrsLength` | src/markup.rs:121-134 | a tree prints one line per literal line and two per tag |
| `Indented.ToStringLines` | src/markup.rs:137-141 | splitting the displayed text at newlines gives back exactly the printed lines when no line holds a newline |
| `Toc.GenerateToc` | src/markup.rs:143-190 | the closure loop with its running `global_ind` prints exactly the tree `TocTree` of the outline |
| `Toc.SectionLines` | src/markup.rs:154-185 | one section's item links to the counter's current value; the counter then moves past the section and each subsection |
| `Toc.SectionItemPrinted` | src/markup.rs:155-184 | section `k`'s item prints its link line, then exactly one nested `ol`, even without subsections, with one line per subsection four spaces deep, then `</ol>` and `</li>` |
| `Toc.SectionLinks` | src/markup.rs:153-185 | a section's item links its title to the counter's value and its subsections to the numbers after it, in order |
| `Toc.ItemsLinks` | src/markup.rs:148-186 | the first `n` sections' items link every section and subsection title to consecutive numbers from 0 |
| `Toc.TocAnchorsConsecutive` | src/markup.rs:143-190 | the printed table of contents links every section and subsection title, in document order, to 0, 1, 2, …, never resetting between sections; it holds one link per title |
| `Toc.RunHeadingsConsecutive` | src/markup.rs:219-223 | numbering a run item by item, each at the counter plus its position plus one, gives its titles consecutive numbers |
| `Toc.OffsetPositive` | src/markup.rs:159-163 | only the first section's link gets anchor 0, printed empty; section `k` links at `k` or beyond |
| `Toc.TocExample` | src/markup.rs:143-190 | two sections of two subsections each: anchors "", 1–5, subsection labels 2.1 and 2.2 at anchors 4 and 5 |
| `Toc.SubLineDisplayed` | src/markup.rs:173 | a subsection line displays as two lines, the link up to the subsection number and then `</strong>`, title, `</a></li>`; the second continues the first |
| `Toc.TocDisplayed` | src/markup.rs:143-190 | for titles without newlines, the displayed table of contents split at newlines and rejoined is its printed lines, so it links every title to 0, 1, 2, … in order |
| `Markup.BarPrinted` | src/markup.rs:12-31 | a paragraph prints one `div` line; several paragraphs print one `div` line each, in order; a list prints `ol`/`ul` by `ordered`, one `li` line per item |
| `Markup.ListPrinted` | src/markup.rs:20-28 | the list node prints its tag, one indented `li` line per item in order, then its closing tag |
| `Markup.RenderLangEntry` | src/markup.rs:37-60 | a language section is rendered with the counter at `toc_num`, which then grows by one for the header and one per non-empty title |
| `Markup.RenderTitled` | src/markup.rs:48-57 | the titled blocks: empty titles get a bare `<h3></h3>` and no number; the others get the next numbers in order |
| `Markup.EmptyTitleInvisible` | src/markup.rs:50-55 | removing an empty title changes neither the count of numbers handed out nor the number of any other title |
| `Markup.NumberNonEmptyIncreasing` | src/markup.rs:50-55 | numbered titles get strictly increasing numbers, none above the counter's final value |
| `Markup.NoEmptyNumbering` | src/markup.rs:48-57 | without empty titles every title is numbered one after another, and the outline filter keeps every title |
| `Markup.RenderInit` | src/markup.rs:216-218 | the unnumbered blocks' lines are appended in order |
| `Markup.RenderNumbered` | src/markup.rs:219-223 | each block of a titled run gets the next number, empty title or not; the counter grows by the run's length |
| `Markup.RenderLinziPortion` | src/markup.rs:205-239 | the character's section: fixed header, blocks, `v1`, the image, `v2`, `<br>`; the counter grows by `|v1| + |v2|` |
| `Markup.RenderEntries` | src/markup.rs:86-88 | each language section is rendered with the counter left by the sections before it |
| `Markup.BuildOutline` | src/markup.rs:66-79 | the outline is the character's section with `v1` and `v2` titles minus empty ones, then each language with all its titles |
| `Markup.WritePage` | src/markup.rs:62-92 | the table of contents is `generate_toc` of the outline; the body is the article of the character's section and the language sections, counter from 0; without empty titles and without newlines in the article's text, the body string split at newlines carries the titles' anchors at 0, 1, 2, …, and the table-of-contents string, read with its two-line subsection entries rejoined, links the same titles at the same numbers |
| `Markup.NumberedAnchors` | src/markup.rs:219-223 | a titled run numbered after `last` prints every title, empty or not, as an anchored `h3` at the consecutive numbers after `last`; its blocks carry no anchor |
| `Markup.ItemsAnchors` | src/markup.rs:48-57 | a language section's titled blocks print their non-empty titles at consecutive anchors after `last`; an empty title's bare `<h3></h3>` carries none |
| `Markup.SectionHeadings` | src/markup.rs:50-55 | the numbers `render_lang_entry` hands out give the non-empty titles consecutive numbers after `last` |
| `Markup.LinziAnchors` | src/markup.rs:205-239 | the character's section prints "燐字" at anchor 0, then every `v1` and `v2` title at consecutive anchors after `last`; front matter, image and blocks carry none |
| `Markup.LinziSectionAnchors` | src/markup.rs:205-239 | rendered from 0 inside its `section`, the character's section carries "燐字" at 0 and the `v1`, `v2` titles from 1 on |
| `Markup.EntryAnchors` | src/markup.rs:37-60 | a language section prints its linked header at `last + 1` and its non-empty titles at the anchors after it; it uses one number per such heading |
| `Markup.EntriesAnchors` | src/markup.rs:84-88 | the language sections, one after another, print their headings at consecutive anchors from where the counter started |
| `Markup.PageAnchors` | src/markup.rs:81-89 | the printed article carries "燐字" at 0, every `v1`, `v2` title, then each language's header and non-empty titles, at 0, 1, 2, … in order |
| `Markup.PageOutlineTitles` | src/markup.rs:66-79 | the flattened outline is "燐字", the non-empty titles of `v1` and `v2`, then each language and its titles |
| `Markup.PageLinks` | src/markup.rs:66-92 | the printed table of contents links "燐字", the non-empty `v1`, `v2` titles, then each language and all its titles, to 0, 1, 2, … |
| `Markup.AnchorsAgree` | src/markup.rs:62-92 | without empty titles, the printed body's anchors and the printed table of contents' links are the titles in the same order at the same numbers 0, 1, 2, …, a language's header linked in the body and by name in the contents |
| `Markup.PageOutlineOneLine` | src/markup.rs:66-79 | titles and language names without newlines give an outline without newlines |
| `Markup.PageBodySingle` | src/markup.rs:62-92 | an article without newlines in its text prints a body none of whose lines holds a newline |
| `Markup.PrintedPage` | src/markup.rs:62-92 | without empty titles and without newlines in the article's text, the displayed body carries the titles at anchors 0, 1, 2, … and the displayed table of contents, its subsection entries rejoined, links them at the same numbers |
| `Markup.EmptyLinziTitleDiverges` | src/markup.rs:66-69 | on a page whose one `v1` title is empty, the printed table of contents links the language at anchor 1, where the body prints the empty `h3`; the language's header is at 2 |
| `Markup.EmptyEntryTitleDiverges` | src/markup.rs:50-51 | on a page whose language section has an empty title before "B", the printed table of contents links "B" at 3, while the body prints it at 2 |
| `Markup.BarToLinkSpec` | src/markup.rs:270-281 | a block succeeds iff all its strings do, then with each string rewritten and the kind kept; else with all their errors in order |
| `Markup.ItemsToLinkSpec` | src/lenticular.rs:34-54 | a list of titled blocks behaves as rewriting each title and block in order |
| `Markup.BarsToLinkSpec` | src/lenticular.rs:34-54 | a list of blocks behaves as rewriting each block in order |
| `Markup.LangEntryToLinkSpec` | src/markup.rs:256-262 | a language section's strings are its titles and blocks; its language name is never rewritten (src/markup.rs:264-268) |
| `Markup.InitV1ToLinkSpec` | src/markup.rs:291-292 | the pair `(init, v1)` rewrites the strings of `init` and then of `v1` |
| `Markup.ImageV2ToLinkSpec` | src/markup.rs:291-292 | the pair `(grau_prua_yr, v2)` rewrites the image path and then `v2`'s strings |
| `Markup.LinziPortionToLinkSpec` | src/markup.rs:283-300 | the character's section rewrites, in order, the strings of `init`, `v1`, the image path and `v2` |
| `Markup.ArticleToLinkSpec` | src/markup.rs:248-254 | an article rewrites its character section's strings and then every language section's |
| `Markup.ArticleToLinkOutcome` | src/markup.rs:248-254 | the pass over an article succeeds iff every one of its strings does, then yielding the article with every string rewritten; otherwise the errors name exactly the failing strings in order |
| `BarSnapshot.BarPrinted` | src/bar.rs:10-18 | a paragraph prints one `div` line; `Ul`/`Ol` print their tag, one indented `li` line per item in order, the closing tag |
| `BarSnapshot.H3IsWithToc` | src/bar.rs:43-45 | the older `h3` prints exactly the current anchored `h3` heading |
| `BarSnapshot.RenderTitled` | src/bar.rs:23-27 | each titled block gets the next number whatever its title; the counter grows by the number of blocks |
| `BarSnapshot.RenderLang` | src/bar.rs:20-30 | a language section: the header at the next number, `<hr>`, the titled blocks, `<br>`; the counter grows by one plus the block count |
| `BarSnapshot.RenderLinziPortion` | src/bar.rs:156-188 | the character's section: fixed header, blocks, `v1`, the image, `v2`, `<br>`; the counter grows by `|v1| + |v2|` |
| `BarSnapshot.RenderLangs` | src/bar.rs:212-214 | each language section is rendered with the counter left by the sections before it |
| `BarSnapshot.BuildOutline` | src/bar.rs:198-205 | the outline is the character's section with every `v1` and `v2` title, then each language with its titles |
| `BarSnapshot.Hoge` | src/bar.rs:197-221 | `hoge` returns `generate_toc` of the outline and the article of all sections, counter from 0; when `h2` prints anchored headers and no text or header line holds a newline, the body string split at newlines carries exactly the links the table-of-contents string holds, its two-line subsection entries rejoined |
| `BarSnapshot.TitledAnchors` | src/bar.rs:23-27 | a titled run numbered after `last` prints every title as an anchored `h3` at the consecutive numbers after `last` |
| `BarSnapshot.LinziAnchors` | src/bar.rs:156-188 | the character's section prints "燐字" at anchor 0, then every `v1` and `v2` title at consecutive anchors after `last` |
| `BarSnapshot.LangAnchors` | src/bar.rs:20-30 | when `h2` prints an anchored header, a language section prints it at `last + 1` and every block title at the anchors after it |
| `BarSnapshot.LangsAnchors` | src/bar.rs:212-214 | the language sections, one after another, print their headings at consecutive anchors from the counter's starting value |
| `BarSnapshot.HogeAnchors` | src/bar.rs:207-219 | the printed article carries "燐字" at 0, all `v1`, `v2` titles, then each language's header and titles, at 0, 1, 2, … |
| `BarSnapshot.HogeLinks` | src/bar.rs:198-205 | the printed table of contents links the same titles, each language by name, to 0, 1, 2, … |
| `BarSnapshot.HogeOutlineTitles` | src/bar.rs:198-205 | the flattened outline is "燐字", all titles of `v1` and `v2`, then each language and its titles |
| `BarSnapshot.AnchorsAgree` | src/bar.rs:197-221 | when `h2` prints each language's name as an anchored header, the printed body's anchors are exactly the printed table of contents' links, titles and numbers alike |
| `BarSnapshot.HogeOutlineOneLine` | src/bar.rs:198-205 | titles and language names without newlines give an outline without newlines |
| `BarSnapshot.HogeBodySingle` | src/bar.rs:207-219 | sections without newlines in their text, with header lines without newlines, print a body none of whose lines holds a newline |
| `BarSnapshot.PrintedHoge` | src/bar.rs:197-221 | when `h2` prints anchored headers and no text or header line holds a newline, the displayed body's anchors are exactly the displayed table of contents' links, its subsection entries rejoined |

## Left out

- Reading the JSON files, the `askama` template, globbing and writing the HTML file (`write_page_raw`, `src/main.rs`) are I/O. `Markup.WritePage` and `BarSnapshot.Hoge` return the two strings that would be written.
- `Lang::url` looks the name up in a table read from `config/links.tsv` and panics on an unknown language. The model takes `url` as a function parameter, so the panic is not modelled.
- `lang.h2` in `src/bar.rs` belongs to an older `Lang` that is not part of this model. It is a function parameter of the `BarSnapshot` renderers.
- BarSnapshot.AnchorsAgree: assumes that `lang.h2(n)`, for `n >= 1`, prints a node whose lines carry exactly one anchor, at `n`, titled with the language's name (`AnchoredHeaders`), because `h2` (src/bar.rs:22) is not part of this model; the same assumption stands in `LangAnchors`, `LangsAnchors`, `HogeAnchors`, `PrintedHoge` and `Hoge`. `OneLineLangs` likewise assumes that no line `h2` prints holds a newline.
- Markup.WritePage, Markup.PrintedPage, BarSnapshot.Hoge, BarSnapshot.PrintedHoge: the agreement of the two displayed strings is stated only for articles whose texts, titles, image path, language names and page addresses hold no newline (`Markup.OneLineText`, `BarSnapshot.OneLineLinzi`, `BarSnapshot.OneLineLangs`). A newline inside such a text splits a printed line into displayed lines that the line-by-line readers cannot tell apart from the program's own lines. The table of contents' own newline in every subsection line (src/markup.rs:173) is covered: `Toc.DisplayedLinks` rejoins it.
- The `render_` wrappers only call `to_string` (`Indented.ToString`). They, `src/bar.rs`'s own `write_page`, and the callers in `src/main.rs` that `unwrap` results are not modelled separately.
- Counters are unbounded `nat`s. `usize` overflow cannot happen for any page of realistic size and is not modelled.
- `&'static str` and `String` are both `string`. Characters are Unicode scalar values (`char`), as in Rust's `chars()`.
- serde's untagged decoding of `Bar` is not modelled: the model starts from the decoded values.
