/** One dictionary entry (`Article`) rendered into a table of contents and a
    body (src/markup.rs). The body is numbered by a counter threaded through
    the render; the table of contents recomputes the numbers from an outline.
    The lenticular pass over a whole `Article` is at the end of the module. */
module Markup {
  import opened Text
  import opened Indented
  import opened Lenticular
  import opened Language
  import opened Toc
  import opened Anchors

  // ---------------------------------------------------------------------------
  // The document

  /** A content block: one paragraph, several paragraphs, or a list. */
  datatype Bar =
    | DivText(text: string)
    | DivTexts(texts: seq<string>)
    | List(ordered: bool, content: seq<string>)

  datatype LangEntry = LangEntry(lang: Lang, contents: seq<(string, Bar)>)

  /** The character's own section: unnumbered blocks, titled blocks before the
      image, the image path, titled blocks after it. */
  datatype LinziPortion = LinziPortion(
    init: seq<Bar>,
    v1: seq<(string, Bar)>,
    grauPruaYr: string,
    v2: seq<(string, Bar)>)

  datatype Article = Article(l: LinziPortion, dat: seq<LangEntry>)

  // ---------------------------------------------------------------------------
  // Blocks into lines

  function DivLine(s: string): IndentedStr {
    Line("<div>" + s + "</div>")
  }

  function LiLine(s: string): IndentedStr {
    Line("<li>" + s + "</li>")
  }

  function DivLines(ss: seq<string>): (r: seq<IndentedStr>)
    ensures |r| == |ss| && forall i :: 0 <= i < |ss| ==> r[i] == DivLine(ss[i])
  {
    seq(|ss|, i requires 0 <= i < |ss| => DivLine(ss[i]))
  }

  function LiLines(content: seq<string>): (r: seq<IndentedStr>)
    ensures |r| == |content| && forall i :: 0 <= i < |content| ==> r[i] == LiLine(content[i])
  {
    seq(|content|, i requires 0 <= i < |content| => LiLine(content[i]))
  }

  /** `Into<Vec<IndentedStr>> for Bar`. */
  function BarLines(b: Bar): seq<IndentedStr> {
    match b
    case DivText(s) => [DivLine(s)]
    case DivTexts(ss) => DivLines(ss)
    case List(ordered, content) => [C(if ordered then "ol" else "ul", LiLines(content))]
  }

  /** What a block prints: one `div` line per paragraph, in order; a list is
      its opening tag, one indented `li` line per item in order, and its
      closing tag. */
  lemma {:induction false} BarPrinted(b: Bar)
    ensures b.DivText? ==> ChildStrs(BarLines(b)) == ["<div>" + b.text + "</div>"]
    ensures b.DivTexts? ==>
              |ChildStrs(BarLines(b))| == |b.texts| &&
              forall i :: 0 <= i < |b.texts| ==> ChildStrs(BarLines(b))[i] == "<div>" + b.texts[i] + "</div>"
    ensures b.List? ==>
              var lines, tag := ChildStrs(BarLines(b)), if b.ordered then "ol" else "ul";
              && |lines| == |b.content| + 2
              && lines[0] == "<" + tag + ">" && lines[|lines| - 1] == "</" + tag + ">"
              && forall i :: 0 <= i < |b.content| ==> lines[i + 1] == "  <li>" + b.content[i] + "</li>"
  {
    match b {
      case DivText(s) =>
        ChildStrsOfLines(BarLines(b));
      case DivTexts(ss) =>
        ChildStrsOfLines(DivLines(ss));
      case List(ordered, content) =>
        ListPrinted(if ordered then "ol" else "ul", content);
    }
  }

  lemma {:induction false} ListPrinted(tag: string, content: seq<string>)
    ensures var lines := ChildStrs([C(tag, LiLines(content))]);
              && |lines| == |content| + 2
              && lines[0] == "<" + tag + ">" && lines[|lines| - 1] == "</" + tag + ">"
              && forall i :: 0 <= i < |content| ==> lines[i + 1] == "  <li>" + content[i] + "</li>"
  {
    var t := C(tag, LiLines(content));
    SingleChild(t);
    LiLinesText(content);
    ListLines(tag, content, ChildStrs(LiLines(content)), Strs(t));
  }

  lemma {:induction false} LiLinesText(content: seq<string>)
    ensures |ChildStrs(LiLines(content))| == |content|
    ensures forall i :: 0 <= i < |content| ==> ChildStrs(LiLines(content))[i] == "<li>" + content[i] + "</li>"
  {
    ChildStrsOfLines(LiLines(content));
  }

  // ---------------------------------------------------------------------------
  // Titled blocks and their numbers

  /** The anchor number a titled block's heading receives, if any. */
  datatype Number = Numbered(n: nat) | Unnumbered

  /** A titled block's heading: anchored when numbered, a bare `<h3></h3>`
      otherwise. */
  function TitleLine(title: string, num: Number): IndentedStr {
    match num
    case Numbered(n) => WithToc("h3", n, title)
    case Unnumbered => Ls("<h3></h3>")
  }

  /** Each titled block as its heading followed by its lines. */
  function ItemsLines(items: seq<(string, Bar)>, nums: seq<Number>): seq<IndentedStr>
    requires |nums| == |items|
    decreases |items|
  {
    if items == [] then []
    else
      var k := |items| - 1;
      ItemsLines(items[..k], nums[..k]) + [TitleLine(items[k].0, nums[k])] + BarLines(items[k].1)
  }

  lemma {:induction false} ItemsLinesStep(items: seq<(string, Bar)>, nums: seq<Number>, i: nat)
    requires |nums| == |items| && i < |items|
    ensures ItemsLines(items[..i + 1], nums[..i + 1])
         == ItemsLines(items[..i], nums[..i]) + [TitleLine(items[i].0, nums[i])] + BarLines(items[i].1)
  {
    assert items[..i + 1][..i] == items[..i];
    assert nums[..i + 1][..i] == nums[..i];
  }

  /** One more block appended behind what is already rendered. */
  lemma {:induction false} ItemsAppend(ans: seq<IndentedStr>, items: seq<(string, Bar)>, nums: seq<Number>, i: nat, heading: IndentedStr)
    requires |nums| == |items| && i < |items| && heading == TitleLine(items[i].0, nums[i])
    ensures ans + ItemsLines(items[..i + 1], nums[..i + 1])
         == ((ans + ItemsLines(items[..i], nums[..i])) + [heading]) + BarLines(items[i].1)
  {
    var done := ItemsLines(items[..i], nums[..i]);
    ItemsLinesStep(items, nums, i);
    Associative(ans, done, [heading]);
    Associative(ans, done + [heading], BarLines(items[i].1));
  }

  function NonEmptyCount(titles: seq<string>): nat
    decreases |titles|
  {
    if titles == [] then 0
    else NonEmptyCount(titles[..|titles| - 1]) + (if titles[|titles| - 1] == "" then 0 else 1)
  }

  /** The non-empty titles, in order (the outline's filter in `write_page`). */
  function NonEmptyTitles(titles: seq<string>): seq<string>
    decreases |titles|
  {
    if titles == [] then []
    else NonEmptyTitles(titles[..|titles| - 1]) + (if titles[|titles| - 1] == "" then [] else [titles[|titles| - 1]])
  }

  /** Every title numbered: the `i`-th gets `last + 1 + i`. */
  function NumberAll(count: nat, last: nat): (r: seq<Number>)
    ensures |r| == count && forall i :: 0 <= i < count ==> r[i] == Numbered(last + 1 + i)
  {
    seq(count, i requires 0 <= i < count => Numbered(last + 1 + i))
  }

  /** `render_lang_entry` skips empty titles: title `i` gets no number when it
      is empty, and otherwise the next number after `last` not yet handed out. */
  function NumberOf(titles: seq<string>, last: nat, i: nat): Number
    requires i < |titles|
  {
    if titles[i] == "" then Unnumbered else Numbered(last + 1 + NonEmptyCount(titles[..i]))
  }

  function NumberNonEmpty(titles: seq<string>, last: nat): (r: seq<Number>)
    ensures |r| == |titles|
  {
    seq(|titles|, i requires 0 <= i < |titles| => NumberOf(titles, last, i))
  }

  lemma {:induction false} NonEmptyCountStep(titles: seq<string>, i: nat)
    requires i < |titles|
    ensures NonEmptyCount(titles[..i + 1]) == NonEmptyCount(titles[..i]) + (if titles[i] == "" then 0 else 1)
  {
    assert titles[..i + 1][..i] == titles[..i];
  }

  /** Counting non-empty titles over a longer prefix never gives less. */
  lemma {:induction false} NonEmptyCountPrefix(titles: seq<string>, m: nat, n: nat)
    requires m <= n <= |titles|
    ensures NonEmptyCount(titles[..m]) <= NonEmptyCount(titles[..n])
    decreases n
  {
    if m < n {
      NonEmptyCountStep(titles, n - 1);
      NonEmptyCountPrefix(titles, m, n - 1);
    }
  }

  lemma {:induction false} NonEmptyCountAppend(a: seq<string>, b: seq<string>)
    ensures NonEmptyCount(a + b) == NonEmptyCount(a) + NonEmptyCount(b)
    decreases |b|
  {
    if b == [] {
      assert a + b == a;
    } else {
      var k := |b| - 1;
      assert (a + b)[..|a + b| - 1] == a + b[..k];
      NonEmptyCountAppend(a, b[..k]);
    }
  }

  lemma {:induction false} CountSkipsEmpty(a: seq<string>, b: seq<string>)
    ensures NonEmptyCount(a + [""] + b) == NonEmptyCount(a + b)
  {
    NonEmptyCountAppend(a, b);
    NonEmptyCountAppend(a + [""], b);
    NonEmptyCountAppend(a, [""]);
    assert [""][..0] == [];
  }

  /** An empty title is invisible to the numbering of `render_lang_entry`:
      dropping it leaves every other title's number, and the final counter,
      as they were. */
  lemma {:induction false} EmptyTitleInvisible(titles: seq<string>, last: nat, j: nat)
    requires j < |titles| && titles[j] == ""
    ensures NonEmptyCount(titles[..j] + titles[j + 1..]) == NonEmptyCount(titles)
    ensures NumberNonEmpty(titles[..j] + titles[j + 1..], last)
         == NumberNonEmpty(titles, last)[..j] + NumberNonEmpty(titles, last)[j + 1..]
  {
    DropEmptyCount(titles, j);
    DropEmptyNumbers(titles, last, j);
  }

  lemma {:induction false} DropEmptyCount(titles: seq<string>, j: nat)
    requires j < |titles| && titles[j] == ""
    ensures NonEmptyCount(titles[..j] + titles[j + 1..]) == NonEmptyCount(titles)
  {
    assert titles == titles[..j] + [""] + titles[j + 1..];
    CountSkipsEmpty(titles[..j], titles[j + 1..]);
  }

  lemma {:induction false} DropEmptyNumbers(titles: seq<string>, last: nat, j: nat)
    requires j < |titles| && titles[j] == ""
    ensures NumberNonEmpty(titles[..j] + titles[j + 1..], last)
         == NumberNonEmpty(titles, last)[..j] + NumberNonEmpty(titles, last)[j + 1..]
  {
    var rest := titles[..j] + titles[j + 1..];
    var all := NumberNonEmpty(titles, last);
    forall i | 0 <= i < |rest|
      ensures NumberNonEmpty(rest, last)[i] == (all[..j] + all[j + 1..])[i]
    {
      NumberAfterDrop(titles, last, j, i);
    }
  }

  lemma {:induction false} NumberAfterDrop(titles: seq<string>, last: nat, j: nat, i: nat)
    requires j < |titles| && titles[j] == "" && i < |titles| - 1
    ensures NumberOf(titles[..j] + titles[j + 1..], last, i) == NumberOf(titles, last, if i < j then i else i + 1)
  {
    var rest := titles[..j] + titles[j + 1..];
    if i < j {
      assert rest[i] == titles[i] && rest[..i] == titles[..i];
    } else {
      assert rest[i] == titles[i + 1];
      assert rest[..i] == titles[..j] + titles[j + 1..i + 1];
      assert titles[..i + 1] == titles[..j] + [""] + titles[j + 1..i + 1];
      CountSkipsEmpty(titles[..j], titles[j + 1..i + 1]);
    }
  }

  /** The numbers `render_lang_entry` hands out strictly increase from title to
      non-empty title, and all of them stay at or below the counter's final
      value `last + NonEmptyCount(titles)`. */
  lemma {:induction false} NumberNonEmptyIncreasing(titles: seq<string>, last: nat, i: nat, j: nat)
    requires i < j < |titles| && titles[i] != "" && titles[j] != ""
    ensures NumberOf(titles, last, i).n < NumberOf(titles, last, j).n
    ensures NumberOf(titles, last, j).n <= last + NonEmptyCount(titles)
  {
    NonEmptyCountStep(titles, i);
    NonEmptyCountPrefix(titles, i + 1, j);
    NonEmptyCountStep(titles, j);
    NonEmptyCountBound(titles, j + 1);
  }

  lemma {:induction false} NonEmptyCountBound(titles: seq<string>, m: nat)
    requires m <= |titles|
    ensures NonEmptyCount(titles[..m]) <= NonEmptyCount(titles)
  {
    NonEmptyCountPrefix(titles, m, |titles|);
    assert titles[..|titles|] == titles;
  }

  // ---------------------------------------------------------------------------
  // Language sections

  /** The language name linked to its page. */
  function LangLink(lang: Lang, url: Lang -> string): string {
    "<a href=\"" + url(lang) + "\">" + Ja(lang) + "</a>"
  }

  function Hr(): IndentedStr {
    C1("div", Ls("<hr>"))
  }

  /** The trailing line break every section ends with. */
  function Br(): seq<IndentedStr> {
    BarLines(DivText("<br>"))
  }

  /** A language section, rendered with the counter at `last`: the header takes
      `last + 1`, the titled blocks follow, and a line break ends it. */
  function LangEntrySection(entry: LangEntry, url: Lang -> string, last: nat): IndentedStr {
    C("section",
      [WithToc("h2", last + 1, LangLink(entry.lang, url)), Hr()]
      + ItemsLines(entry.contents, NumberNonEmpty(Titles(entry.contents), last + 1))
      + Br())
  }

  /** `render_lang_entry`: the counter goes up once for the header and once per
      non-empty title. */
  method RenderLangEntry(entry: LangEntry, url: Lang -> string, tocNum: nat)
    returns (section: IndentedStr, tocNum': nat)
    ensures section == LangEntrySection(entry, url, tocNum)
    ensures tocNum' == tocNum + 1 + NonEmptyCount(Titles(entry.contents))
  {
    tocNum' := tocNum + 1;
    var ans := [WithToc("h2", tocNum', LangLink(entry.lang, url)), Hr()];
    ans, tocNum' := RenderTitled(entry.contents, tocNum', ans);
    ans := ans + BarLines(DivText("<br>"));
    section := C("section", ans);
  }

  /** One more titled block: an empty title leaves the counter and gets a bare
      heading, any other takes the next number. */
  lemma {:induction false} TitledAppend(ans: seq<IndentedStr>, items: seq<(string, Bar)>, last: nat, i: nat,
                     before: nat, after: nat, heading: IndentedStr, acc: seq<IndentedStr>)
    requires i < |items|
    requires before == last + NonEmptyCount(Titles(items)[..i])
    requires acc == ans + ItemsLines(items[..i], NumberNonEmpty(Titles(items), last)[..i])
    requires items[i].0 == "" ==> heading == Ls("<h3></h3>") && after == before
    requires items[i].0 != "" ==> heading == WithToc("h3", before + 1, items[i].0) && after == before + 1
    ensures after == last + NonEmptyCount(Titles(items)[..i + 1])
    ensures (acc + [heading]) + BarLines(items[i].1)
         == ans + ItemsLines(items[..i + 1], NumberNonEmpty(Titles(items), last)[..i + 1])
  {
    var titles, nums := Titles(items), NumberNonEmpty(Titles(items), last);
    NonEmptyCountStep(titles, i);
    assert nums[i] == NumberOf(titles, last, i);
    ItemsAppend(ans, items, nums, i, heading);
  }

  /** The loop of `render_lang_entry` over the titled blocks, with the counter
      at `last` before it. */
  method RenderTitled(items: seq<(string, Bar)>, last: nat, ans: seq<IndentedStr>)
    returns (ans': seq<IndentedStr>, last': nat)
    ensures ans' == ans + ItemsLines(items, NumberNonEmpty(Titles(items), last))
    ensures last' == last + NonEmptyCount(Titles(items))
  {
    ghost var titles := Titles(items);
    ghost var nums := NumberNonEmpty(titles, last);
    ans', last' := ans, last;
    for i := 0 to |items|
      invariant last' == last + NonEmptyCount(titles[..i])
      invariant ans' == ans + ItemsLines(items[..i], nums[..i])
    {
      var (title, b) := items[i];
      ghost var before := last';
      var heading;
      if title == "" {
        heading := Ls("<h3></h3>");
      } else {
        last' := last' + 1;
        heading := WithToc("h3", last', title);
      }
      TitledAppend(ans, items, last, i, before, last', heading, ans');
      ans' := ans' + [heading] + BarLines(b);
    }
    assert items[..|items|] == items && nums[..|items|] == nums;
    assert titles[..|items|] == titles;
  }

  // ---------------------------------------------------------------------------
  // The character's own section

  const FrontMatter: string := "<h2><a name=\"TOC--\"></a>燐字</h2>"

  function ImageBlock(src: string): seq<IndentedStr> {
    [Ls("<div></div>"),
     Line("<div><img src=\"" + src + "\" width=\"200\" height=\"91\" border=\"0\"></div>"),
     Ls("<div></div>")]
  }

  /** The fixed header, the rule under it and the unnumbered blocks. */
  function LinziFront(init: seq<Bar>): seq<IndentedStr> {
    [Ls(FrontMatter), Hr()] + InitLines(init)
  }

  /** The unnumbered blocks, one after the other. */
  function InitLines(init: seq<Bar>): seq<IndentedStr>
    decreases |init|
  {
    if init == [] then [] else InitLines(init[..|init| - 1]) + BarLines(init[|init| - 1])
  }

  /** The character's section, rendered with the counter at `last`: the fixed
      header, the rule, the unnumbered blocks, `v1`, the image between two
      spacers, `v2`, a line break. Every title of `v1` and `v2` is numbered. */
  function LinziLines(l: LinziPortion, last: nat): seq<IndentedStr> {
    LinziFront(l.init)
    + NumberedLines(l.v1, last)
    + ImageBlock(l.grauPruaYr)
    + NumberedLines(l.v2, last + |l.v1|)
    + Br()
  }

  /** Titled blocks numbered one after another: block `k` (0-based) gets
      heading number `last + 1 + k`, followed by its lines. */
  function NumberedLines(items: seq<(string, Bar)>, last: nat): seq<IndentedStr>
    decreases |items|
  {
    if items == [] then []
    else
      var k := |items| - 1;
      NumberedLines(items[..k], last) + [WithToc("h3", last + 1 + k, items[k].0)] + BarLines(items[k].1)
  }

  lemma {:induction false} NumberedLinesStep(items: seq<(string, Bar)>, last: nat, i: nat)
    requires i < |items|
    ensures NumberedLines(items[..i + 1], last)
         == (NumberedLines(items[..i], last) + [WithToc("h3", last + 1 + i, items[i].0)]) + BarLines(items[i].1)
  {
    assert items[..i + 1][..i] == items[..i];
  }

  /** One more block, its heading numbered `cur`. */
  lemma {:induction false} NumberedAppend(ans: seq<IndentedStr>, items: seq<(string, Bar)>, last: nat, i: nat,
                       acc: seq<IndentedStr>, cur: nat)
    requires i < |items|
    requires acc == ans + NumberedLines(items[..i], last)
    requires cur == last + 1 + i
    ensures (acc + [WithToc("h3", cur, items[i].0)]) + BarLines(items[i].1)
         == ans + NumberedLines(items[..i + 1], last)
  {
    var done, heading := NumberedLines(items[..i], last), WithToc("h3", cur, items[i].0);
    NumberedLinesStep(items, last, i);
    Associative(ans, done, [heading]);
    Associative(ans, done + [heading], BarLines(items[i].1));
  }

  /** One titled run of `LinziPortion::render`: every block's heading takes the
      next number. */
  method RenderNumbered(items: seq<(string, Bar)>, ind: nat, ans: seq<IndentedStr>)
    returns (ans': seq<IndentedStr>, ind': nat)
    ensures ans' == ans + NumberedLines(items, ind)
    ensures ind' == ind + |items|
  {
    ans', ind' := ans, ind;
    for i := 0 to |items|
      invariant ind' == ind + i
      invariant ans' == ans + NumberedLines(items[..i], ind)
    {
      var (a, b) := items[i];
      ind' := ind' + 1;
      NumberedAppend(ans, items, ind, i, ans', ind');
      ans' := ans' + [WithToc("h3", ind', a)];
      ans' := ans' + BarLines(b);
    }
    assert items[..|items|] == items;
  }

  lemma {:induction false} InitAppend(ans: seq<IndentedStr>, init: seq<Bar>, i: nat, acc: seq<IndentedStr>)
    requires i < |init|
    requires acc == ans + InitLines(init[..i])
    ensures acc + BarLines(init[i]) == ans + InitLines(init[..i + 1])
  {
    assert init[..i + 1][..i] == init[..i];
    Associative(ans, InitLines(init[..i]), BarLines(init[i]));
  }

  /** The loop of `LinziPortion::render` over the unnumbered blocks. */
  method RenderInit(init: seq<Bar>, ans: seq<IndentedStr>) returns (ans': seq<IndentedStr>)
    ensures ans' == ans + InitLines(init)
  {
    ans' := ans;
    for i := 0 to |init|
      invariant ans' == ans + InitLines(init[..i])
    {
      InitAppend(ans, init, i, ans');
      ans' := ans' + BarLines(init[i]);
    }
    assert init[..|init|] == init;
  }

  /** `LinziPortion::render`: the counter goes up once per title of `v1` and
      `v2`, empty or not. */
  method RenderLinziPortion(l: LinziPortion, ind: nat) returns (lines: seq<IndentedStr>, ind': nat)
    ensures lines == LinziLines(l, ind)
    ensures ind' == ind + |l.v1| + |l.v2|
  {
    var ans := RenderInit(l.init, [Ls(FrontMatter), Hr()]);
    ans, ind' := RenderNumbered(l.v1, ind, ans);
    ans := ans + ImageBlock(l.grauPruaYr);
    ghost var beforeV2, mid := ans, ind';
    ans, ind' := RenderNumbered(l.v2, ind', ans);
    lines := ans + Br();
    LinziLinesAssembled(l, ind, mid, beforeV2, ans, lines);
  }

  lemma {:induction false} LinziLinesAssembled(l: LinziPortion, last: nat, mid: nat,
                            beforeV2: seq<IndentedStr>, afterV2: seq<IndentedStr>, lines: seq<IndentedStr>)
    requires beforeV2 == [Ls(FrontMatter), Hr()] + InitLines(l.init) + NumberedLines(l.v1, last) + ImageBlock(l.grauPruaYr)
    requires mid == last + |l.v1|
    requires afterV2 == beforeV2 + NumberedLines(l.v2, mid)
    requires lines == afterV2 + Br()
    ensures lines == LinziLines(l, last)
  {
  }

  // ---------------------------------------------------------------------------
  // The page

  /** The language sections, the first rendered with the counter at `first`
      and each later one where the previous one left it. */
  function EntrySections(dat: seq<LangEntry>, url: Lang -> string, first: nat): (r: seq<IndentedStr>)
    ensures |r| == |dat|
  {
    if dat == [] then []
    else [LangEntrySection(dat[0], url, first)]
         + EntrySections(dat[1..], url, first + 1 + NonEmptyCount(Titles(dat[0].contents)))
  }

  /** The body: the character's section rendered from 0, then one section per
      language, the counter threaded through in that order. */
  function PageBody(a: Article, url: Lang -> string): IndentedStr {
    C("article", [C("section", LinziLines(a.l, 0))] + EntrySections(a.dat, url, |a.l.v1| + |a.l.v2|))
  }

  /** The outline of `write_page`: the character's section with the non-empty
      titles of `v1` then `v2`, then one section per language with all of its
      titles, empty ones included. */
  function PageOutline(a: Article): (outline: Outline)
    ensures |outline| == 1 + |a.dat|
  {
    [("燐字", NonEmptyTitles(Titles(a.l.v1)) + NonEmptyTitles(Titles(a.l.v2)))]
    + seq(|a.dat|, k requires 0 <= k < |a.dat| => (Ja(a.dat[k].lang), Titles(a.dat[k].contents)))
  }

  /** The outline `write_page` builds: the character's section, then one
      section per language, pushed in order. */
  method BuildOutline(a: Article) returns (outline: Outline)
    ensures outline == PageOutline(a)
  {
    var v1Entries := NonEmptyTitles(Titles(a.l.v1));
    var v2Entries := NonEmptyTitles(Titles(a.l.v2));
    outline := [("燐字", v1Entries + v2Entries)];
    for k := 0 to |a.dat|
      invariant outline == PageOutline(a)[..k + 1]
    {
      outline := outline + [(Ja(a.dat[k].lang), Titles(a.dat[k].contents))];
    }
  }

  /** One more language section appended behind what is already rendered,
      the counter moving from `before` to `after`. */
  lemma {:induction false} EntriesAppend(sections: seq<IndentedStr>, dat: seq<LangEntry>, k: nat, url: Lang -> string,
                      before: nat, section: IndentedStr, after: nat)
    requires k < |dat|
    requires section == LangEntrySection(dat[k], url, before)
    requires after == before + 1 + NonEmptyCount(Titles(dat[k].contents))
    ensures sections + EntrySections(dat[k..], url, before)
         == (sections + [section]) + EntrySections(dat[k + 1..], url, after)
  {
    calc {
      sections + EntrySections(dat[k..], url, before);
      { EntrySectionsStep(dat, k, url, before); }
      sections + ([section] + EntrySections(dat[k + 1..], url, after));
      { Associative(sections, [section], EntrySections(dat[k + 1..], url, after)); }
      (sections + [section]) + EntrySections(dat[k + 1..], url, after);
    }
  }

  lemma {:induction false} EntrySectionsStep(dat: seq<LangEntry>, k: nat, url: Lang -> string, start: nat)
    requires k < |dat|
    ensures EntrySections(dat[k..], url, start)
         == [LangEntrySection(dat[k], url, start)]
            + EntrySections(dat[k + 1..], url, start + 1 + NonEmptyCount(Titles(dat[k].contents)))
  {
    assert dat[k..][0] == dat[k] && dat[k..][1..] == dat[k + 1..];
  }

  /** The loop of `write_page` over the language entries, with the counter at
      `first` before it. */
  method RenderEntries(dat: seq<LangEntry>, url: Lang -> string, first: nat) returns (sections: seq<IndentedStr>)
    ensures sections == EntrySections(dat, url, first)
  {
    var tocNum := first;
    sections := [];
    assert dat[0..] == dat;
    for k := 0 to |dat|
      invariant sections + EntrySections(dat[k..], url, tocNum) == EntrySections(dat, url, first)
    {
      ghost var before := tocNum;
      var section;
      section, tocNum := RenderLangEntry(dat[k], url, tocNum);
      EntriesAppend(sections, dat, k, url, before, section, tocNum);
      sections := sections + [section];
    }
    assert dat[|dat|..] == [];
    assert sections + [] == sections;
  }

  /** `write_page` without the final file write: the table of contents and the
      body of one page. */
  method WritePage(a: Article, url: Lang -> string) returns (toc: string, body: string)
    ensures toc == ToString(TocTree(PageOutline(a)))
    ensures body == ToString(PageBody(a, url))
    ensures NoEmptyTitles(a) && OneLineText(a, url) ==>
              && Found(SplitOn(body, '\n'), AnchorIn) == Consecutive(ArticleTitles(a, Linked(url)), 0)
              && DisplayedLinks(toc) == Consecutive(ArticleTitles(a, Ja), 0)
  {
    var l, dat := a.l, a.dat;
    var outline := BuildOutline(a);
    var tocNum := 0;
    var linziPortion;
    linziPortion, tocNum := RenderLinziPortion(l, tocNum);
    var sections := RenderEntries(dat, url, tocNum);
    sections := [C("section", linziPortion)] + sections;
    var cont := C("article", sections);
    PageAssembled(a, url, linziPortion, tocNum, sections, cont);
    toc := GenerateToc(outline);
    body := ToString(cont);
    if NoEmptyTitles(a) && OneLineText(a, url) {
      PrintedPage(a, url);
    }
  }

  lemma {:induction false} PageAssembled(a: Article, url: Lang -> string, linzi: seq<IndentedStr>, tocNum: nat,
                      sections: seq<IndentedStr>, cont: IndentedStr)
    requires linzi == LinziLines(a.l, 0)
    requires tocNum == 0 + |a.l.v1| + |a.l.v2|
    requires sections == [C("section", linzi)] + EntrySections(a.dat, url, tocNum)
    requires cont == C("article", sections)
    ensures cont == PageBody(a, url)
  {
  }

  // ---------------------------------------------------------------------------
  // The anchors the printed body carries

  /** A paragraph line carries no anchor. */
  lemma {:induction false} DivNoAnchor(s: string)
    ensures AnchorIn(Unindented(DivLine(s).text)) == None
  {
    var line := "<div>" + s + "</div>";
    assert line[0] == '<' && line[1] == 'd';
    LineNoAnchor(line);
  }

  /** A list item line carries no anchor. */
  lemma {:induction false} LiNoAnchor(s: string)
    ensures AnchorIn(Unindented(LiLine(s).text)) == None
  {
    var line := "<li>" + s + "</li>";
    assert line[0] == '<' && line[1] == 'l';
    LineNoAnchor(line);
  }

  /** A block carries no anchor: neither its paragraphs nor its list does. */
  lemma {:induction false} BarAnchorFree(b: Bar)
    ensures NodesFound(BarLines(b), AnchorIn) == []
  {
    match b {
      case DivText(s) =>
        DivNoAnchor(s);
        NodesFoundLine(DivLine(s).text, AnchorIn);
      case DivTexts(ss) =>
        var lines := DivLines(ss);
        forall i | 0 <= i < |lines|
          ensures lines[i].Line? && AnchorIn(Unindented(lines[i].text)).None?
        {
          DivNoAnchor(ss[i]);
        }
        NodesFoundNone(lines, AnchorIn);
      case List(ordered, content) =>
        var tag, items := if ordered then "ol" else "ul", LiLines(content);
        forall i | 0 <= i < |items|
          ensures items[i].Line? && AnchorIn(Unindented(items[i].text)).None?
        {
          LiNoAnchor(content[i]);
        }
        NodesFoundNone(items, AnchorIn);
        NoAnchor("<" + tag + ">");
        NoAnchor("</" + tag + ">");
        FoundWrapped(tag, ">", items, AnchorIn);
        NodesFoundOne(C(tag, items), AnchorIn);
    }
  }

  /** The rule under a header carries no anchor. */
  lemma {:induction false} HrAnchorFree()
    ensures NodesFound([Hr()], AnchorIn) == []
  {
    NodesFoundLine("<hr>", AnchorIn);
    NoAnchor("<" + "div" + ">");
    NoAnchor("</" + "div" + ">");
    FoundWrapped("div", ">", [Ls("<hr>")], AnchorIn);
    NodesFoundOne(Hr(), AnchorIn);
  }

  /** The empty heading of an untitled block carries no anchor. */
  lemma {:induction false} BareHeadingAnchorFree()
    ensures NodesFound([Ls("<h3></h3>")], AnchorIn) == []
  {
    var s := "<h3></h3>";
    assert s[4..] == "</h3>";
    assert AfterPrefix(NameOpen, s[4..]) == None;
    NodesFoundLine(s, AnchorIn);
  }

  /** The image and its two spacers carry no anchor. */
  lemma {:induction false} ImageAnchorFree(src: string)
    ensures NodesFound(ImageBlock(src), AnchorIn) == []
  {
    var lines := ImageBlock(src);
    var img := "<div><img src=\"" + src + "\" width=\"200\" height=\"91\" border=\"0\"></div>";
    assert img[0] == '<' && img[1] == 'd';
    LineNoAnchor(img);
    LineNoAnchor("<div></div>");
    NodesFoundNone(lines, AnchorIn);
  }

  /** The unnumbered blocks carry no anchor. */
  lemma {:induction false} InitAnchorFree(init: seq<Bar>)
    ensures NodesFound(InitLines(init), AnchorIn) == []
    decreases |init|
  {
    if init != [] {
      var k := |init| - 1;
      InitAnchorFree(init[..k]);
      BarAnchorFree(init[k]);
      NodesFoundAppend(InitLines(init[..k]), BarLines(init[k]), AnchorIn);
    }
  }

  /** The character's fixed header carries the anchor with the empty label,
      anchor 0, under "燐字". */
  lemma {:induction false} FrontMatterAnchor()
    ensures NodesFound([Ls(FrontMatter)], AnchorIn) == [Heading("燐字", 0)]
  {
    var body := NameOpen + ("" + (NameClose + ("燐字" + ("</" + "h2" + ">"))));
    FrontMatterText();
    HeadingOpened("h2", body);
    TitleAfterAnchorOf("", "燐字", "</" + "h2" + ">", 0);
    UnindentedTag(FrontMatter);
    NodesFoundLine(FrontMatter, AnchorIn);
  }

  lemma {:induction false} FrontMatterText()
    ensures FrontMatter == ("<" + "h2" + ">") + (NameOpen + ("" + (NameClose + ("燐字" + ("</" + "h2" + ">")))))
  {
  }

  /** A titled block behind lines already read: the anchor its heading
      carries, if any, and nothing from its body. */
  lemma {:induction false} BlockAnchors(front: seq<IndentedStr>, hs: seq<Heading>, heading: IndentedStr, more: seq<Heading>, b: Bar)
    requires NodesFound(front, AnchorIn) == hs
    requires NodesFound([heading], AnchorIn) == more
    ensures NodesFound(front + [heading] + BarLines(b), AnchorIn) == hs + more
  {
    BarAnchorFree(b);
    NodesFoundBlock(front, heading, BarLines(b), AnchorIn, hs, more);
  }

  /** A numbered block behind lines already read adds its title at its
      number. */
  lemma {:induction false} NumberedBlockAnchors(all: seq<IndentedStr>, lines: seq<IndentedStr>, hsAll: seq<Heading>, hs: seq<Heading>,
                                                n: nat, title: string, b: Bar)
    requires all == lines + [WithToc("h3", n, title)] + BarLines(b) && hsAll == hs + [Heading(title, n)]
    requires NodesFound(lines, AnchorIn) == hs && n >= 1
    ensures NodesFound(all, AnchorIn) == hsAll
  {
    WithTocFound("h3", n, title);
    BlockAnchors(lines, hs, WithToc("h3", n, title), [Heading(title, n)], b);
  }

  /** A numbered run carries, block by block, the headings `RunHeadings`
      lists. */
  lemma {:induction false} NumberedLinesFound(items: seq<(string, Bar)>, last: nat)
    ensures NodesFound(NumberedLines(items, last), AnchorIn) == RunHeadings(items, last)
    decreases |items|
  {
    if items != [] {
      NumberedLinesFound(items[..|items| - 1], last);
      NumberedLinesFoundStep(items, last);
    } else {
      NodesFoundEmpty(AnchorIn);
    }
  }

  /** The last block of a numbered run adds the last heading. */
  lemma {:induction false} NumberedLinesFoundStep(items: seq<(string, Bar)>, last: nat)
    requires items != []
    requires NodesFound(NumberedLines(items[..|items| - 1], last), AnchorIn) == RunHeadings(items[..|items| - 1], last)
    ensures NodesFound(NumberedLines(items, last), AnchorIn) == RunHeadings(items, last)
  {
    var k := |items| - 1;
    NumberedBlockAnchors(NumberedLines(items, last), NumberedLines(items[..k], last), RunHeadings(items, last), RunHeadings(items[..k], last),
                         last + 1 + k, items[k].0, items[k].1);
  }

  /** Blocks numbered one after another carry their titles at consecutive
      anchors after `last`. */
  lemma {:induction false} NumberedAnchors(items: seq<(string, Bar)>, last: nat)
    ensures NodesFound(NumberedLines(items, last), AnchorIn) == Consecutive(Titles(items), last + 1)
  {
    NumberedLinesFound(items, last);
    RunHeadingsConsecutive(items, last);
  }

  lemma {:induction false} NonEmptyTitlesCount(titles: seq<string>)
    ensures |NonEmptyTitles(titles)| == NonEmptyCount(titles)
    decreases |titles|
  {
    if titles != [] {
      NonEmptyTitlesCount(titles[..|titles| - 1]);
    }
  }

  lemma {:induction false} NonEmptyTitlesOne(title: string)
    ensures NonEmptyTitles([title]) == if title == "" then [] else [title]
  {
    assert [title][..0] == [];
  }

  /** The number a titled block of a language section receives when `n` is
      the next one: none for an empty title. */
  function TitleNumber(title: string, n: nat): Number {
    if title == "" then Unnumbered else Numbered(n)
  }

  /** The anchor a titled block's heading carries, read off its number: its
      title at that number, or nothing for a bare heading. */
  function HeadingOf(title: string, num: Number): seq<Heading> {
    match num
    case Numbered(n) => [Heading(title, n)]
    case Unnumbered => []
  }

  /** The anchors a run of titled blocks carries, read off their numbers. */
  function NumberedHeadings(items: seq<(string, Bar)>, nums: seq<Number>): seq<Heading>
    requires |nums| == |items|
    decreases |items|
  {
    if items == [] then []
    else
      var k := |items| - 1;
      NumberedHeadings(items[..k], nums[..k]) + HeadingOf(items[k].0, nums[k])
  }

  /** No heading is numbered 0, the number of the character's own header. */
  predicate PositiveNumbers(nums: seq<Number>) {
    forall i :: 0 <= i < |nums| && nums[i].Numbered? ==> nums[i].n >= 1
  }

  lemma {:induction false} TitleLineFound(title: string, num: Number)
    requires num.Numbered? ==> num.n >= 1
    ensures NodesFound([TitleLine(title, num)], AnchorIn) == HeadingOf(title, num)
  {
    match num {
      case Numbered(n) => WithTocFound("h3", n, title);
      case Unnumbered => BareHeadingAnchorFree();
    }
  }

  /** Titled blocks carry exactly the anchors their numbers give them. */
  lemma {:induction false} ItemsLinesFound(items: seq<(string, Bar)>, nums: seq<Number>)
    requires |nums| == |items| && PositiveNumbers(nums)
    ensures NodesFound(ItemsLines(items, nums), AnchorIn) == NumberedHeadings(items, nums)
    decreases |items|
  {
    if items != [] {
      var k := |items| - 1;
      var front, num := nums[..k], nums[k];
      assert PositiveNumbers(front);
      ItemsLinesFound(items[..k], front);
      TitleLineFound(items[k].0, num);
      BlockAnchors(ItemsLines(items[..k], front), NumberedHeadings(items[..k], front), TitleLine(items[k].0, num),
                   HeadingOf(items[k].0, num), items[k].1);
    }
  }

  /** A titled block after others in a language section: the blocks before
      it are numbered as if they stood alone, and it takes the next number
      unless its title is empty. */
  lemma {:induction false} NumberNonEmptyLast(front: seq<(string, Bar)>, x: (string, Bar), last: nat)
    ensures NumberNonEmpty(Titles(front + [x]), last)[..|front|] == NumberNonEmpty(Titles(front), last)
    ensures NumberNonEmpty(Titles(front + [x]), last)[|front|] == TitleNumber(x.0, last + 1 + |NonEmptyTitles(Titles(front))|)
    ensures NonEmptyTitles(Titles(front + [x])) == NonEmptyTitles(Titles(front)) + NonEmptyTitles([x.0])
  {
    var items := front + [x];
    var k := |front|;
    var titles := Titles(items);
    var nums := NumberNonEmpty(titles, last);
    assert titles[..k] == Titles(front);
    forall i | 0 <= i < k
      ensures nums[i] == NumberNonEmpty(Titles(front), last)[i]
    {
      assert titles[..i] == Titles(front)[..i];
    }
    NonEmptyTitlesCount(Titles(front));
    NonEmptyTitlesOne(x.0);
  }

  lemma {:induction false} NumberedHeadingsSnoc(front: seq<(string, Bar)>, x: (string, Bar), nums: seq<Number>)
    requires |nums| == |front| + 1
    ensures NumberedHeadings(front + [x], nums) == NumberedHeadings(front, nums[..|front|]) + HeadingOf(x.0, nums[|front|])
  {
    assert (front + [x])[..|front|] == front;
  }

  lemma {:induction false} HeadingOfNumber(title: string, n: nat)
    ensures HeadingOf(title, TitleNumber(title, n)) == Consecutive(NonEmptyTitles([title]), n)
  {
    NonEmptyTitlesOne(title);
    if title != "" {
      ConsecutiveSingle(title, n);
    }
  }

  /** `render_lang_entry`'s numbers give the non-empty titles consecutive
      anchors after `last`, and none to an empty title. */
  lemma {:induction false} SectionHeadings(items: seq<(string, Bar)>, last: nat)
    ensures NumberedHeadings(items, NumberNonEmpty(Titles(items), last)) == Consecutive(NonEmptyTitles(Titles(items)), last + 1)
    decreases |items|
  {
    if items != [] {
      var k := |items| - 1;
      SectionHeadings(items[..k], last);
      SectionHeadingsSnoc(items[..k], items[k], last);
      assert items[..k] + [items[k]] == items;
    }
  }

  lemma {:induction false} SectionHeadingsSnoc(front: seq<(string, Bar)>, x: (string, Bar), last: nat)
    requires NumberedHeadings(front, NumberNonEmpty(Titles(front), last)) == Consecutive(NonEmptyTitles(Titles(front)), last + 1)
    ensures NumberedHeadings(front + [x], NumberNonEmpty(Titles(front + [x]), last))
         == Consecutive(NonEmptyTitles(Titles(front + [x])), last + 1)
  {
    NumberNonEmptyLast(front, x, last);
    HeadingsSnocAt(front, x, NumberNonEmpty(Titles(front + [x]), last), NumberNonEmpty(Titles(front), last),
                   NonEmptyTitles(Titles(front)), NonEmptyTitles(Titles(front + [x])), last);
  }

  /** One more titled block behind a run whose headings are consecutive. */
  lemma {:induction false} HeadingsSnocAt(front: seq<(string, Bar)>, x: (string, Bar), nums: seq<Number>, before: seq<Number>,
                                          shown: seq<string>, all: seq<string>, last: nat)
    requires |nums| == |front| + 1 && nums[..|front|] == before
    requires nums[|front|] == TitleNumber(x.0, last + 1 + |shown|)
    requires all == shown + NonEmptyTitles([x.0])
    requires NumberedHeadings(front, before) == Consecutive(shown, last + 1)
    ensures NumberedHeadings(front + [x], nums) == Consecutive(all, last + 1)
  {
    NumberedHeadingsSnoc(front, x, nums);
    HeadingOfNumber(x.0, last + 1 + |shown|);
    ConsecutiveJoin(shown, NonEmptyTitles([x.0]), last + 1, last + 1 + |shown|);
  }

  lemma {:induction false} NumberNonEmptyPositive(titles: seq<string>, last: nat)
    ensures PositiveNumbers(NumberNonEmpty(titles, last))
  {
  }

  /** The titled blocks of a language section, numbered with the counter at
      `last`, carry their non-empty titles at consecutive anchors after
      `last`; an empty title's bare heading carries none. */
  lemma {:induction false} ItemsAnchors(items: seq<(string, Bar)>, last: nat)
    ensures NodesFound(ItemsLines(items, NumberNonEmpty(Titles(items), last)), AnchorIn)
         == Consecutive(NonEmptyTitles(Titles(items)), last + 1)
  {
    NumberNonEmptyPositive(Titles(items), last);
    ItemsLinesFound(items, NumberNonEmpty(Titles(items), last));
    SectionHeadings(items, last);
  }

  /** The character's fixed header, its rule and its unnumbered blocks carry
      anchor 0 only. */
  lemma {:induction false} LinziHead(init: seq<Bar>)
    ensures NodesFound(LinziFront(init), AnchorIn) == [Heading("燐字", 0)]
  {
    FrontMatterAnchor();
    HrAnchorFree();
    NodesFoundPairQuiet(Ls(FrontMatter), Hr(), AnchorIn, [Heading("燐字", 0)]);
    InitAnchorFree(init);
    NodesFoundQuiet([Ls(FrontMatter), Hr()], InitLines(init), AnchorIn, [Heading("燐字", 0)]);
  }

  lemma {:induction false} BrAnchorFree()
    ensures NodesFound(Br(), AnchorIn) == []
  {
    BarAnchorFree(DivText("<br>"));
  }

  /** The character's section around its two numbered runs: the image and
      the closing line break carry no anchor. */
  lemma {:induction false} LinziFound(init: seq<Bar>, n1: seq<IndentedStr>, src: string, n2: seq<IndentedStr>,
                                      hs1: seq<Heading>, hs2: seq<Heading>)
    requires NodesFound(n1, AnchorIn) == hs1
    requires NodesFound(n2, AnchorIn) == hs2
    ensures NodesFound(LinziFront(init) + n1 + ImageBlock(src) + n2 + Br(), AnchorIn) == [Heading("燐字", 0)] + hs1 + hs2
  {
    var front, h, img := LinziFront(init), [Heading("燐字", 0)], ImageBlock(src);
    LinziHead(init);
    ImageAnchorFree(src);
    BrAnchorFree();
    NodesFoundJoin(front, n1, AnchorIn, h, hs1);
    NodesFoundQuiet(front + n1, img, AnchorIn, h + hs1);
    NodesFoundJoin(front + n1 + img, n2, AnchorIn, h + hs1, hs2);
    NodesFoundQuiet(front + n1 + img + n2, Br(), AnchorIn, h + hs1 + hs2);
  }

  /** `NumberedAnchors` with the first anchor named by the caller. */
  lemma {:induction false} NumberedAnchorsFrom(items: seq<(string, Bar)>, last: nat, start: nat)
    requires start == last + 1
    ensures NodesFound(NumberedLines(items, last), AnchorIn) == Consecutive(Titles(items), start)
  {
    NumberedAnchors(items, last);
  }

  /** The two runs of the character's section, numbered one after the other
      from `last`, carry their titles at consecutive anchors; `mid` is where
      the first run leaves the counter. */
  lemma {:induction false} LinziRunsAnchors(v1: seq<(string, Bar)>, v2: seq<(string, Bar)>, last: nat, mid: nat, start: nat)
    requires mid == last + |v1| && start == mid + 1
    ensures NodesFound(NumberedLines(v1, last), AnchorIn) == Consecutive(Titles(v1), last + 1)
    ensures NodesFound(NumberedLines(v2, mid), AnchorIn) == Consecutive(Titles(v2), start)
  {
    NumberedAnchors(v1, last);
    NumberedAnchorsFrom(v2, mid, start);
  }

  /** The titles of the two runs, numbered one after the other. */
  lemma {:induction false} LinziTitlesJoin(v1: seq<(string, Bar)>, v2: seq<(string, Bar)>, last: nat, start: nat)
    requires start == last + |v1| + 1
    ensures [Heading("燐字", 0)] + Consecutive(Titles(v1), last + 1) + Consecutive(Titles(v2), start)
         == [Heading("燐字", 0)] + Consecutive(Titles(v1) + Titles(v2), last + 1)
  {
    ConsecutiveAfter([Heading("燐字", 0)], Titles(v1), Titles(v2), last + 1, start);
  }

  /** The character's section, rendered with the counter at `last`, carries
      the front matter's anchor 0, then every title of `v1` and `v2`, empty or
      not, at consecutive anchors after `last`. */
  lemma {:induction false} LinziAnchors(l: LinziPortion, last: nat)
    ensures NodesFound(LinziLines(l, last), AnchorIn)
         == [Heading("燐字", 0)] + Consecutive(Titles(l.v1) + Titles(l.v2), last + 1)
  {
    LinziAnchorsAt(l, last, last + |l.v1| + 1);
    LinziTitlesJoin(l.v1, l.v2, last, last + |l.v1| + 1);
  }

  /** The character's section, its second run numbered from `start`. */
  lemma {:induction false} LinziAnchorsAt(l: LinziPortion, last: nat, start: nat)
    requires start == last + |l.v1| + 1
    ensures NodesFound(LinziLines(l, last), AnchorIn)
         == [Heading("燐字", 0)] + Consecutive(Titles(l.v1), last + 1) + Consecutive(Titles(l.v2), start)
  {
    LinziRunsAnchors(l.v1, l.v2, last, last + |l.v1|, start);
    LinziFound(l.init, NumberedLines(l.v1, last), l.grauPruaYr, NumberedLines(l.v2, last + |l.v1|),
               Consecutive(Titles(l.v1), last + 1), Consecutive(Titles(l.v2), start));
  }

  /** The language name, linked to its page, as the body shows it. */
  function Linked(url: Lang -> string): Lang -> string {
    lang => LangLink(lang, url)
  }

  /** Titles as a section shows them: filtered of empty ones, or all. */
  function Shown(titles: seq<string>, filtered: bool): seq<string> {
    if filtered then NonEmptyTitles(titles) else titles
  }

  /** A language section's titles: its header, shown by `header`, then its
      block titles. */
  function SectionTitles(entry: LangEntry, header: Lang -> string, filtered: bool): seq<string> {
    [header(entry.lang)] + Shown(Titles(entry.contents), filtered)
  }

  /** The titles of the language sections, one section after another. */
  function EntryTitles(dat: seq<LangEntry>, header: Lang -> string, filtered: bool): seq<string>
    decreases |dat|
  {
    if dat == [] then []
    else EntryTitles(dat[..|dat| - 1], header, filtered) + SectionTitles(dat[|dat| - 1], header, filtered)
  }

  /** The character's section's titles: "燐字", then those of `v1` and `v2`. */
  function LinziTitles(l: LinziPortion, filtered: bool): seq<string> {
    ["燐字"] + Shown(Titles(l.v1), filtered) + Shown(Titles(l.v2), filtered)
  }

  /** The titles in the order the body numbers them: every title of `v1` and
      `v2`, each language header linked, the language sections' non-empty
      titles. */
  function BodyTitles(a: Article, url: Lang -> string): seq<string> {
    LinziTitles(a.l, false) + EntryTitles(a.dat, Linked(url), true)
  }

  /** The titles in the order the table of contents lists them: the non-empty
      titles of `v1` and `v2`, each language by name, every title of the
      language sections. */
  function TocTitles(a: Article): seq<string> {
    LinziTitles(a.l, true) + EntryTitles(a.dat, Ja, false)
  }

  /** A `<section>` wrapper adds no anchor of its own. */
  lemma {:induction false} SectionFound(children: seq<IndentedStr>)
    ensures PrintedAnchors(C("section", children)) == NodesFound(children, AnchorIn)
  {
    NoAnchor("<" + "section" + ">");
    NoAnchor("</" + "section" + ">");
    FoundWrapped("section", ">", children, AnchorIn);
  }

  /** A language section's lines: the header's anchors, then the titled
      blocks'; the rule under the header and the closing line break carry
      none. */
  lemma {:induction false} EntryFound(header: IndentedStr, items: seq<IndentedStr>, hs: seq<Heading>, more: seq<Heading>)
    requires NodesFound([header], AnchorIn) == hs
    requires NodesFound(items, AnchorIn) == more
    ensures NodesFound([header, Hr()] + items + Br(), AnchorIn) == hs + more
  {
    HrAnchorFree();
    BrAnchorFree();
    NodesFoundPairQuiet(header, Hr(), AnchorIn, hs);
    NodesFoundJoin([header, Hr()], items, AnchorIn, hs, more);
    NodesFoundQuiet([header, Hr()] + items, Br(), AnchorIn, hs + more);
  }

  /** The header's anchor followed by the titled blocks' ones are the
      section's titles at consecutive anchors. */
  lemma {:induction false} EntryTitlesFound(entry: LangEntry, url: Lang -> string, last: nat)
    ensures [Heading(LangLink(entry.lang, url), last + 1)] + Consecutive(NonEmptyTitles(Titles(entry.contents)), last + 1 + 1)
         == Consecutive(SectionTitles(entry, Linked(url), true), last + 1)
    ensures |SectionTitles(entry, Linked(url), true)| == 1 + NonEmptyCount(Titles(entry.contents))
  {
    var link := LangLink(entry.lang, url);
    assert Linked(url)(entry.lang) == link;
    NonEmptyTitlesCount(Titles(entry.contents));
    ConsecutiveSingle(link, last + 1);
    ConsecutiveJoin([link], NonEmptyTitles(Titles(entry.contents)), last + 1, last + 1 + 1);
  }

  /** A language section rendered with the counter at `last` carries its
      linked header at `last + 1` and its non-empty titles at the anchors
      after it. */
  lemma {:induction false} EntryAnchors(entry: LangEntry, url: Lang -> string, last: nat)
    ensures PrintedAnchors(LangEntrySection(entry, url, last)) == Consecutive(SectionTitles(entry, Linked(url), true), last + 1)
    ensures |SectionTitles(entry, Linked(url), true)| == 1 + NonEmptyCount(Titles(entry.contents))
  {
    var link := LangLink(entry.lang, url);
    var header := WithToc("h2", last + 1, link);
    var items := ItemsLines(entry.contents, NumberNonEmpty(Titles(entry.contents), last + 1));
    WithTocFound("h2", last + 1, link);
    ItemsAnchors(entry.contents, last + 1);
    EntrySectionFound(header, items, [Heading(link, last + 1)], Consecutive(NonEmptyTitles(Titles(entry.contents)), last + 1 + 1));
    EntryTitlesFound(entry, url, last);
  }

  /** A language section's anchors: its header's, then its titled blocks'. */
  lemma {:induction false} EntrySectionFound(header: IndentedStr, items: seq<IndentedStr>, hs: seq<Heading>, more: seq<Heading>)
    requires NodesFound([header], AnchorIn) == hs
    requires NodesFound(items, AnchorIn) == more
    ensures PrintedAnchors(C("section", [header, Hr()] + items + Br())) == hs + more
  {
    EntryFound(header, items, hs, more);
    SectionFound([header, Hr()] + items + Br());
  }

  lemma {:induction false} SectionTitlesLength(entry: LangEntry, url: Lang -> string)
    ensures |SectionTitles(entry, Linked(url), true)| == 1 + NonEmptyCount(Titles(entry.contents))
  {
    NonEmptyTitlesCount(Titles(entry.contents));
  }

  lemma {:induction false} EntryTitlesAppend(xs: seq<LangEntry>, ys: seq<LangEntry>, header: Lang -> string, filtered: bool)
    ensures EntryTitles(xs + ys, header, filtered) == EntryTitles(xs, header, filtered) + EntryTitles(ys, header, filtered)
    decreases |ys|
  {
    if ys != [] {
      var k := |ys| - 1;
      assert (xs + ys)[..|xs + ys| - 1] == xs + ys[..k];
      assert (xs + ys)[|xs + ys| - 1] == ys[k];
      EntryTitlesAppend(xs, ys[..k], header, filtered);
      Associative(EntryTitles(xs, header, filtered), EntryTitles(ys[..k], header, filtered), SectionTitles(ys[k], header, filtered));
    } else {
      assert xs + ys == xs;
    }
  }

  lemma {:induction false} EntryTitlesCons(dat: seq<LangEntry>, header: Lang -> string, filtered: bool)
    requires dat != []
    ensures EntryTitles(dat, header, filtered) == SectionTitles(dat[0], header, filtered) + EntryTitles(dat[1..], header, filtered)
  {
    assert dat == [dat[0]] + dat[1..];
    EntryTitlesAppend([dat[0]], dat[1..], header, filtered);
    assert EntryTitles([dat[0]], header, filtered) == EntryTitles([], header, filtered) + SectionTitles(dat[0], header, filtered);
  }

  /** The language sections, the first rendered with the counter at `first`,
      carry their titles at consecutive anchors after `first`. */
  lemma {:induction false} EntriesAnchors(dat: seq<LangEntry>, url: Lang -> string, first: nat)
    ensures NodesFound(EntrySections(dat, url, first), AnchorIn) == Consecutive(EntryTitles(dat, Linked(url), true), first + 1)
    decreases |dat|
  {
    if dat != [] {
      var next := first + 1 + NonEmptyCount(Titles(dat[0].contents));
      EntriesAnchors(dat[1..], url, next);
      EntriesAnchorsStep(dat, url, first, next);
    } else {
      NodesFoundEmpty(AnchorIn);
    }
  }

  /** The first language section in front of the ones after it. */
  lemma {:induction false} EntriesAnchorsStep(dat: seq<LangEntry>, url: Lang -> string, first: nat, next: nat)
    requires dat != [] && next == first + 1 + NonEmptyCount(Titles(dat[0].contents))
    requires NodesFound(EntrySections(dat[1..], url, next), AnchorIn) == Consecutive(EntryTitles(dat[1..], Linked(url), true), next + 1)
    ensures NodesFound(EntrySections(dat, url, first), AnchorIn) == Consecutive(EntryTitles(dat, Linked(url), true), first + 1)
  {
    EntrySectionFirst(dat, url, first, next);
    EntryTitlesJoin(dat, url, first, next);
  }

  lemma {:induction false} EntrySectionFirst(dat: seq<LangEntry>, url: Lang -> string, first: nat, next: nat)
    requires dat != [] && next == first + 1 + NonEmptyCount(Titles(dat[0].contents))
    ensures NodesFound(EntrySections(dat, url, first), AnchorIn)
         == Consecutive(SectionTitles(dat[0], Linked(url), true), first + 1) + NodesFound(EntrySections(dat[1..], url, next), AnchorIn)
  {
    var rest := EntrySections(dat[1..], url, next);
    EntrySectionsCons(dat, url, first, next);
    EntryAnchors(dat[0], url, first);
    NodesFoundFirst(LangEntrySection(dat[0], url, first), rest, Consecutive(SectionTitles(dat[0], Linked(url), true), first + 1),
                    NodesFound(rest, AnchorIn));
  }

  lemma {:induction false} EntrySectionsCons(dat: seq<LangEntry>, url: Lang -> string, first: nat, next: nat)
    requires dat != [] && next == first + 1 + NonEmptyCount(Titles(dat[0].contents))
    ensures EntrySections(dat, url, first) == [LangEntrySection(dat[0], url, first)] + EntrySections(dat[1..], url, next)
  {
    EntrySectionsHead(dat, url, first);
    EntrySectionsTail(dat, url, first, next);
    ConsOf(EntrySections(dat, url, first), LangEntrySection(dat[0], url, first), EntrySections(dat[1..], url, next));
  }

  lemma {:induction false} EntrySectionsHead(dat: seq<LangEntry>, url: Lang -> string, first: nat)
    requires dat != []
    ensures EntrySections(dat, url, first)[0] == LangEntrySection(dat[0], url, first)
  {
  }

  lemma {:induction false} EntrySectionsTail(dat: seq<LangEntry>, url: Lang -> string, first: nat, next: nat)
    requires dat != [] && next == first + 1 + NonEmptyCount(Titles(dat[0].contents))
    ensures EntrySections(dat, url, first)[1..] == EntrySections(dat[1..], url, next)
  {
  }

  lemma {:induction false} EntryTitlesJoin(dat: seq<LangEntry>, url: Lang -> string, first: nat, next: nat)
    requires dat != [] && next == first + 1 + NonEmptyCount(Titles(dat[0].contents))
    ensures Consecutive(SectionTitles(dat[0], Linked(url), true), first + 1) + Consecutive(EntryTitles(dat[1..], Linked(url), true), next + 1)
         == Consecutive(EntryTitles(dat, Linked(url), true), first + 1)
  {
    var here := SectionTitles(dat[0], Linked(url), true);
    SectionTitlesLength(dat[0], url);
    EntryTitlesCons(dat, Linked(url), true);
    ConsecutiveJoin(here, EntryTitles(dat[1..], Linked(url), true), first + 1, next + 1);
  }

  /** An `<article>` wrapper adds no anchor of its own. */
  lemma {:induction false} ArticleFound(children: seq<IndentedStr>)
    ensures PrintedAnchors(C("article", children)) == NodesFound(children, AnchorIn)
  {
    NoAnchor("<" + "article" + ">");
    NoAnchor("</" + "article" + ">");
    FoundWrapped("article", ">", children, AnchorIn);
  }

  /** A tree in front of its siblings: its anchors come first. */
  lemma {:induction false} NodesFoundFirst(t: IndentedStr, rest: seq<IndentedStr>, hs: seq<Heading>, more: seq<Heading>)
    requires PrintedAnchors(t) == hs
    requires NodesFound(rest, AnchorIn) == more
    ensures NodesFound([t] + rest, AnchorIn) == hs + more
  {
    NodesFoundOne(t, AnchorIn);
    NodesFoundJoin([t], rest, AnchorIn, hs, more);
  }

  /** The character's section's anchors, then the language sections', are
      the body's titles at anchors from 0. */
  lemma {:induction false} BodyTitlesFound(a: Article, url: Lang -> string)
    ensures [Heading("燐字", 0)] + Consecutive(Titles(a.l.v1) + Titles(a.l.v2), 1)
            + Consecutive(EntryTitles(a.dat, Linked(url), true), |a.l.v1| + |a.l.v2| + 1)
         == Consecutive(BodyTitles(a, url), 0)
  {
    var v12 := Titles(a.l.v1) + Titles(a.l.v2);
    ConsecutiveSingle("燐字", 0);
    ConsecutiveJoin(["燐字"], v12, 0, 1);
    assert ["燐字"] + v12 == LinziTitles(a.l, false);
    ConsecutiveJoin(LinziTitles(a.l, false), EntryTitles(a.dat, Linked(url), true), 0, |a.l.v1| + |a.l.v2| + 1);
  }

  /** The character's section, rendered from 0 and wrapped in its
      `<section>`, carries "燐字" at anchor 0 and every title of `v1` and `v2`
      from anchor 1 on. */
  lemma {:induction false} LinziSectionAnchors(l: LinziPortion)
    ensures PrintedAnchors(C("section", LinziLines(l, 0))) == [Heading("燐字", 0)] + Consecutive(Titles(l.v1) + Titles(l.v2), 1)
  {
    LinziAnchors(l, 0);
    SectionFound(LinziLines(l, 0));
  }

  /** The printed body carries the titles `BodyTitles` lists, at anchors 0,
      1, 2, … in document order: every title of `v1` and `v2` is anchored,
      empty or not, and only the non-empty titles of the language sections
      are. */
  lemma {:induction false} PageAnchors(a: Article, url: Lang -> string)
    ensures PrintedAnchors(PageBody(a, url)) == Consecutive(BodyTitles(a, url), 0)
  {
    PageBodyFound(a, url, |a.l.v1| + |a.l.v2|);
    BodyTitlesFound(a, url);
  }

  /** The anchors of the article: the character's section, then the
      language sections numbered on from `first`. */
  lemma {:induction false} PageBodyFound(a: Article, url: Lang -> string, first: nat)
    requires first == |a.l.v1| + |a.l.v2|
    ensures PrintedAnchors(PageBody(a, url))
         == [Heading("燐字", 0)] + Consecutive(Titles(a.l.v1) + Titles(a.l.v2), 1)
            + Consecutive(EntryTitles(a.dat, Linked(url), true), first + 1)
  {
    var linzi := C("section", LinziLines(a.l, 0));
    var entries := EntrySections(a.dat, url, first);
    LinziSectionAnchors(a.l);
    EntriesAnchors(a.dat, url, first);
    NodesFoundFirst(linzi, entries, [Heading("燐字", 0)] + Consecutive(Titles(a.l.v1) + Titles(a.l.v2), 1),
                    Consecutive(EntryTitles(a.dat, Linked(url), true), first + 1));
    ArticleFound([linzi] + entries);
  }

  // ---------------------------------------------------------------------------
  // The links the printed table of contents holds

  lemma {:induction false} EntryTitlesSnoc(dat: seq<LangEntry>, n: nat, header: Lang -> string, filtered: bool)
    requires 0 < n <= |dat|
    ensures EntryTitles(dat[..n], header, filtered)
         == EntryTitles(dat[..n - 1], header, filtered) + SectionTitles(dat[n - 1], header, filtered)
  {
    assert dat[..n][..n - 1] == dat[..n - 1];
  }

  /** The flattened outline of `write_page`: the character's section title,
      its filtered block titles, then every language section's titles. */
  lemma {:induction false} PageOutlineTitles(a: Article, n: nat)
    requires n <= |a.dat|
    ensures TitlesUpTo(PageOutline(a), n + 1) == LinziTitles(a.l, true) + EntryTitles(a.dat[..n], Ja, false)
    decreases n
  {
    var outline := PageOutline(a);
    if n == 0 {
      assert TitlesUpTo(outline, 1) == [] + ([outline[0].0] + outline[0].1);
    } else {
      var e := a.dat[n - 1];
      assert outline[n] == (Ja(e.lang), Titles(e.contents));
      assert SectionTitles(e, Ja, false) == [Ja(e.lang)] + Titles(e.contents);
      PageOutlineTitles(a, n - 1);
      EntryTitlesSnoc(a.dat, n, Ja, false);
      Associative(LinziTitles(a.l, true), EntryTitles(a.dat[..n - 1], Ja, false), SectionTitles(e, Ja, false));
    }
  }

  /** The printed table of contents holds the titles `TocTitles` lists, linked
      to 0, 1, 2, … in document order. */
  lemma {:induction false} PageLinks(a: Article)
    ensures PrintedLinks(TocTree(PageOutline(a))) == Consecutive(TocTitles(a), 0)
  {
    PageOutlineTitles(a, |a.dat|);
    assert a.dat[..|a.dat|] == a.dat;
    TocAnchorsConsecutive(PageOutline(a));
  }

  // ---------------------------------------------------------------------------
  // Text without newlines

  /** A block none of whose texts holds a newline. */
  predicate OneLineBar(b: Bar) {
    match b
    case DivText(s) => '\n' !in s
    case DivTexts(ss) => forall i :: 0 <= i < |ss| ==> '\n' !in ss[i]
    case List(_, content) => forall i :: 0 <= i < |content| ==> '\n' !in content[i]
  }

  predicate OneLineItems(items: seq<(string, Bar)>) {
    forall i :: 0 <= i < |items| ==> '\n' !in items[i].0 && OneLineBar(items[i].1)
  }

  /** No title and no language name of the article holds a newline. */
  predicate OneLineHeadings(a: Article) {
    && (forall i :: 0 <= i < |a.l.v1| ==> '\n' !in a.l.v1[i].0)
    && (forall i :: 0 <= i < |a.l.v2| ==> '\n' !in a.l.v2[i].0)
    && forall k :: 0 <= k < |a.dat| ==>
         && '\n' !in Ja(a.dat[k].lang)
         && forall i :: 0 <= i < |a.dat[k].contents| ==> '\n' !in a.dat[k].contents[i].0
  }

  /** No text of the character's section holds a newline. */
  predicate OneLineLinzi(l: LinziPortion) {
    && (forall i :: 0 <= i < |l.init| ==> OneLineBar(l.init[i]))
    && OneLineItems(l.v1) && '\n' !in l.grauPruaYr && OneLineItems(l.v2)
  }

  /** No language name, page address or text of the language sections holds
      a newline. */
  predicate OneLineEntries(dat: seq<LangEntry>, url: Lang -> string) {
    forall k :: 0 <= k < |dat| ==>
      '\n' !in Ja(dat[k].lang) && '\n' !in url(dat[k].lang) && OneLineItems(dat[k].contents)
  }

  /** No text, title, image path, language name or page address the page
      prints holds a newline. */
  predicate OneLineText(a: Article, url: Lang -> string) {
    OneLineLinzi(a.l) && OneLineEntries(a.dat, url)
  }

  lemma {:induction false} OneLineTextHeadings(a: Article, url: Lang -> string)
    requires OneLineText(a, url)
    ensures OneLineHeadings(a)
  {
  }

  lemma {:induction false} NonEmptyTitlesOneLine(titles: seq<string>)
    requires forall i :: 0 <= i < |titles| ==> '\n' !in titles[i]
    ensures forall i :: 0 <= i < |NonEmptyTitles(titles)| ==> '\n' !in NonEmptyTitles(titles)[i]
    decreases |titles|
  {
    if titles != [] {
      var k := |titles| - 1;
      var front, last := NonEmptyTitles(titles[..k]), if titles[k] == "" then [] else [titles[k]];
      NonEmptyTitlesOneLine(titles[..k]);
      forall i | 0 <= i < |front + last| ensures '\n' !in (front + last)[i] {
        if i >= |front| {
          assert (front + last)[i] == titles[k];
        }
      }
    }
  }

  /** Titles without newlines give an outline without newlines. */
  lemma {:induction false} PageOutlineOneLine(a: Article)
    requires OneLineHeadings(a)
    ensures OneLineTitles(PageOutline(a))
  {
    var outline := PageOutline(a);
    var v1, v2 := NonEmptyTitles(Titles(a.l.v1)), NonEmptyTitles(Titles(a.l.v2));
    NonEmptyTitlesOneLine(Titles(a.l.v1));
    NonEmptyTitlesOneLine(Titles(a.l.v2));
    forall k | 0 <= k < |outline|
      ensures '\n' !in outline[k].0 && forall i :: 0 <= i < |outline[k].1| ==> '\n' !in outline[k].1[i]
    {
      if k == 0 {
        assert outline[0] == ("燐字", v1 + v2);
        forall i | 0 <= i < |v1 + v2| ensures '\n' !in (v1 + v2)[i] {
          if i >= |v1| {
            assert (v1 + v2)[i] == v2[i - |v1|];
          }
        }
      } else {
        assert outline[k] == (Ja(a.dat[k - 1].lang), Titles(a.dat[k - 1].contents));
      }
    }
  }

  lemma {:induction false} BarSingle(b: Bar)
    requires OneLineBar(b)
    ensures AllSingle(BarLines(b))
  {
    match b {
      case DivText(s) =>
        DivSingle(s);
      case DivTexts(ss) =>
        forall j | 0 <= j < |ss| ensures SingleLines(DivLines(ss)[j]) {
          DivSingle(ss[j]);
        }
      case List(ordered, content) =>
        forall j | 0 <= j < |content| ensures SingleLines(LiLines(content)[j]) {
          LiSingle(content[j]);
        }
        TagSingle(if ordered then "ol" else "ul", ">", LiLines(content));
    }
  }

  lemma {:induction false} DivSingle(s: string)
    requires '\n' !in s
    ensures SingleLines(DivLine(s))
  {
    var open, close := "<div>", "</div>";
    assert '\n' !in open && '\n' !in close;
    assert '\n' !in open + s + close;
  }

  lemma {:induction false} LiSingle(s: string)
    requires '\n' !in s
    ensures SingleLines(LiLine(s))
  {
    var open, close := "<li>", "</li>";
    assert '\n' !in open && '\n' !in close;
    assert '\n' !in open + s + close;
  }

  /** One more heading and its block's lines behind lines without newlines. */
  lemma {:induction false} SnocSingle(prev: seq<IndentedStr>, heading: IndentedStr, bars: seq<IndentedStr>)
    requires AllSingle(prev) && SingleLines(heading) && AllSingle(bars)
    ensures AllSingle(prev + [heading] + bars)
  {
    AllSingleAppend(prev, [heading]);
    AllSingleAppend(prev + [heading], bars);
  }

  lemma {:induction false} InitSingle(init: seq<Bar>)
    requires forall i :: 0 <= i < |init| ==> OneLineBar(init[i])
    ensures AllSingle(InitLines(init))
    decreases |init|
  {
    if init != [] {
      var k := |init| - 1;
      InitSingle(init[..k]);
      BarSingle(init[k]);
      AllSingleAppend(InitLines(init[..k]), BarLines(init[k]));
    }
  }

  /** A heading's line holds no newline when its tag and title hold none. */
  lemma {:induction false} HeadingSingle(name: string, n: nat, title: string)
    requires '\n' !in name && '\n' !in title
    ensures SingleLines(WithToc(name, n, title))
  {
    var a, b, c, d := "<", "><a name=\"TOC--", "\"></a>", "</";
    var line := a + name + b + Decimal(n) + c + title + d + name + ">";
    NoDigitIn(Decimal(n), '\n');
    assert '\n' !in a && '\n' !in b && '\n' !in c && '\n' !in d && '\n' !in ">";
    assert '\n' !in line;
    assert Strs(WithToc(name, n, title)) == [line];
  }

  lemma {:induction false} NumberedSingle(items: seq<(string, Bar)>, last: nat)
    requires OneLineItems(items)
    ensures AllSingle(NumberedLines(items, last))
    decreases |items|
  {
    if items != [] {
      var k := |items| - 1;
      NumberedSingle(items[..k], last);
      HeadingSingle("h3", last + 1 + k, items[k].0);
      BarSingle(items[k].1);
      SnocSingle(NumberedLines(items[..k], last), WithToc("h3", last + 1 + k, items[k].0), BarLines(items[k].1));
    }
  }

  lemma {:induction false} ItemsSingle(items: seq<(string, Bar)>, nums: seq<Number>)
    requires |nums| == |items| && OneLineItems(items)
    ensures AllSingle(ItemsLines(items, nums))
    decreases |items|
  {
    if items != [] {
      var k := |items| - 1;
      ItemsSingle(items[..k], nums[..k]);
      if nums[k].Numbered? {
        HeadingSingle("h3", nums[k].n, items[k].0);
      } else {
        assert Strs(Ls("<h3></h3>")) == ["<h3></h3>"];
      }
      BarSingle(items[k].1);
      SnocSingle(ItemsLines(items[..k], nums[..k]), TitleLine(items[k].0, nums[k]), BarLines(items[k].1));
    }
  }

  /** The character's section prints no newline of its own. */
  lemma {:induction false} LinziSingle(l: LinziPortion, last: nat)
    requires OneLineLinzi(l)
    ensures AllSingle(LinziLines(l, last))
  {
    FrontSingle(l.init);
    NumberedSingle(l.v1, last);
    ImageSingle(l.grauPruaYr);
    NumberedSingle(l.v2, last + |l.v1|);
    BrSingle();
    FiveSingle(LinziFront(l.init), NumberedLines(l.v1, last), ImageBlock(l.grauPruaYr),
               NumberedLines(l.v2, last + |l.v1|), Br(), LinziLines(l, last));
  }

  lemma {:induction false} HrSingle()
    ensures SingleLines(Hr())
  {
    assert SingleLines(Ls("<hr>"));
    TagSingle("div", ">", [Ls("<hr>")]);
  }

  lemma {:induction false} BrSingle()
    ensures AllSingle(Br())
  {
    DivSingle("<br>");
  }

  lemma {:induction false} FrontSingle(init: seq<Bar>)
    requires forall i :: 0 <= i < |init| ==> OneLineBar(init[i])
    ensures AllSingle(LinziFront(init))
  {
    HrSingle();
    FrontMatterSingle();
    InitSingle(init);
    AllSingleAppend([Ls(FrontMatter), Hr()], InitLines(init));
  }

  lemma {:induction false} FrontMatterSingle()
    ensures SingleLines(Ls(FrontMatter))
  {
    var a, b, c := "<h2><a name=\"TOC--\"></a>", "燐字", "</h2>";
    assert FrontMatter == a + b + c;
    assert '\n' !in a && '\n' !in b && '\n' !in c;
  }

  lemma {:induction false} ImageSingle(src: string)
    requires '\n' !in src
    ensures AllSingle(ImageBlock(src))
  {
    var img := "<div><img src=\"" + src + "\" width=\"200\" height=\"91\" border=\"0\"></div>";
    ImageLinePlain(src);
    assert SingleLines(Line(img));
    assert SingleLines(Ls("<div></div>"));
  }

  lemma {:induction false} ImageLinePlain(src: string)
    requires '\n' !in src
    ensures '\n' !in "<div><img src=\"" + src + "\" width=\"200\" height=\"91\" border=\"0\"></div>"
  {
    var open, close := "<div><img src=\"", "\" width=\"200\" height=\"91\" border=\"0\"></div>";
    assert '\n' !in open;
    assert '\n' !in close;
    assert '\n' !in open + src + close;
  }

  lemma {:induction false} FiveSingle(a: seq<IndentedStr>, b: seq<IndentedStr>, c: seq<IndentedStr>,
                                      d: seq<IndentedStr>, e: seq<IndentedStr>, all: seq<IndentedStr>)
    requires AllSingle(a) && AllSingle(b) && AllSingle(c) && AllSingle(d) && AllSingle(e)
    requires all == a + b + c + d + e
    ensures AllSingle(all)
  {
    AllSingleAppend(a, b);
    AllSingleAppend(a + b, c);
    AllSingleAppend(a + b + c, d);
    AllSingleAppend(a + b + c + d, e);
  }

  /** A language section prints no newline of its own. */
  lemma {:induction false} SectionSingle(entry: LangEntry, url: Lang -> string, last: nat)
    requires '\n' !in Ja(entry.lang) && '\n' !in url(entry.lang) && OneLineItems(entry.contents)
    ensures SingleLines(LangEntrySection(entry, url, last))
  {
    var link := LangLink(entry.lang, url);
    LangLinkPlain(entry.lang, url);
    HeadingSingle("h2", last + 1, link);
    HrSingle();
    ItemsSingle(entry.contents, NumberNonEmpty(Titles(entry.contents), last + 1));
    BrSingle();
    SectionChildrenSingle(WithToc("h2", last + 1, link),
                          ItemsLines(entry.contents, NumberNonEmpty(Titles(entry.contents), last + 1)));
  }

  lemma {:induction false} LangLinkPlain(lang: Lang, url: Lang -> string)
    requires '\n' !in Ja(lang) && '\n' !in url(lang)
    ensures '\n' !in LangLink(lang, url)
  {
    var a, b, c := "<a href=\"", "\">", "</a>";
    assert '\n' !in a && '\n' !in b && '\n' !in c;
    assert '\n' !in a + url(lang) + b + Ja(lang) + c;
  }

  lemma {:induction false} SectionChildrenSingle(header: IndentedStr, items: seq<IndentedStr>)
    requires SingleLines(header) && SingleLines(Hr()) && AllSingle(items) && AllSingle(Br())
    ensures SingleLines(C("section", [header, Hr()] + items + Br()))
  {
    AllSingleAppend([header, Hr()], items);
    AllSingleAppend([header, Hr()] + items, Br());
    TagSingle("section", ">", [header, Hr()] + items + Br());
  }

  lemma {:induction false} EntrySectionsSingle(dat: seq<LangEntry>, url: Lang -> string, first: nat)
    requires OneLineEntries(dat, url)
    ensures AllSingle(EntrySections(dat, url, first))
    decreases |dat|
  {
    if dat != [] {
      var next := first + 1 + NonEmptyCount(Titles(dat[0].contents));
      SectionSingle(dat[0], url, first);
      EntrySectionsSingle(dat[1..], url, next);
      AllSingleAppend([LangEntrySection(dat[0], url, first)], EntrySections(dat[1..], url, next));
    }
  }

  /** An article without newlines in its texts prints a body whose every
      line is one displayed line. */
  lemma {:induction false} PageBodySingle(a: Article, url: Lang -> string)
    requires OneLineText(a, url)
    ensures SingleLines(PageBody(a, url))
  {
    var linzi, first := LinziLines(a.l, 0), |a.l.v1| + |a.l.v2|;
    var entries := EntrySections(a.dat, url, first);
    var cont := C("article", [C("section", linzi)] + entries);
    LinziSingle(a.l, 0);
    EntrySectionsSingle(a.dat, url, first);
    ArticleSingle(linzi, entries, cont);
    PageAssembled(a, url, linzi, first, [C("section", linzi)] + entries, cont);
  }

  lemma {:induction false} ArticleSingle(linzi: seq<IndentedStr>, sections: seq<IndentedStr>, body: IndentedStr)
    requires AllSingle(linzi) && AllSingle(sections)
    requires body == C("article", [C("section", linzi)] + sections)
    ensures SingleLines(body)
  {
    TagSingle("section", ">", linzi);
    AllSingleAppend([C("section", linzi)], sections);
    TagSingle("article", ">", [C("section", linzi)] + sections);
  }

  // ---------------------------------------------------------------------------
  // Anchors against links

  predicate NoEmptyTitle(items: seq<(string, Bar)>) {
    forall i :: 0 <= i < |items| ==> items[i].0 != ""
  }

  predicate NoEmptyTitles(a: Article) {
    && NoEmptyTitle(a.l.v1) && NoEmptyTitle(a.l.v2)
    && forall k :: 0 <= k < |a.dat| ==> NoEmptyTitle(a.dat[k].contents)
  }

  /** Without empty titles `render_lang_entry` numbers like
      `LinziPortion::render`, and filtering the titles keeps them all. */
  lemma {:induction false} NoEmptyNumbering(items: seq<(string, Bar)>, last: nat)
    requires NoEmptyTitle(items)
    ensures NonEmptyCount(Titles(items)) == |items|
    ensures NumberNonEmpty(Titles(items), last) == NumberAll(|items|, last)
    ensures NonEmptyTitles(Titles(items)) == Titles(items)
  {
    var titles := Titles(items);
    CountAll(titles);
    FilterAll(titles);
    forall i | 0 <= i < |titles|
      ensures NumberNonEmpty(titles, last)[i] == NumberAll(|items|, last)[i]
    {
      CountAll(titles[..i]);
    }
  }

  lemma {:induction false} CountAll(titles: seq<string>)
    requires forall i :: 0 <= i < |titles| ==> titles[i] != ""
    ensures NonEmptyCount(titles) == |titles|
    decreases |titles|
  {
    if titles != [] {
      CountAll(titles[..|titles| - 1]);
    }
  }

  lemma {:induction false} FilterAll(titles: seq<string>)
    requires forall i :: 0 <= i < |titles| ==> titles[i] != ""
    ensures NonEmptyTitles(titles) == titles
    decreases |titles|
  {
    if titles != [] {
      var k := |titles| - 1;
      FilterAll(titles[..k]);
      assert titles[..k] + [titles[k]] == titles;
    }
  }

  /** The titles of a page, each language header shown by `header`. */
  function ArticleTitles(a: Article, header: Lang -> string): seq<string> {
    LinziTitles(a.l, false) + EntryTitles(a.dat, header, false)
  }

  /** The page as `write_page` writes it, read line by line: the body's
      anchors are numbered 0, 1, 2, … and the table of contents links to the
      same numbers in the same order, when no title is empty and nothing the
      page prints holds a newline of its own. The table of contents breaks
      every subsection's line in two (src/markup.rs:173); its reader glues
      the second half back first. */
  lemma {:induction false} PrintedPage(a: Article, url: Lang -> string)
    requires NoEmptyTitles(a) && OneLineText(a, url)
    ensures Found(SplitOn(ToString(PageBody(a, url)), '\n'), AnchorIn) == Consecutive(ArticleTitles(a, Linked(url)), 0)
    ensures DisplayedLinks(ToString(TocTree(PageOutline(a)))) == Consecutive(ArticleTitles(a, Ja), 0)
  {
    AnchorsAgree(a, url);
    PageBodySingle(a, url);
    DisplayedFound(PageBody(a, url));
    OneLineTextHeadings(a, url);
    PageOutlineOneLine(a);
    TocDisplayed(PageOutline(a));
  }

  /** Without empty titles, no filter drops anything. */
  lemma {:induction false} EntryTitlesUnfiltered(dat: seq<LangEntry>, header: Lang -> string)
    requires forall k :: 0 <= k < |dat| ==> NoEmptyTitle(dat[k].contents)
    ensures EntryTitles(dat, header, true) == EntryTitles(dat, header, false)
    decreases |dat|
  {
    if dat != [] {
      var k := |dat| - 1;
      EntryTitlesUnfiltered(dat[..k], header);
      FilterAll(Titles(dat[k].contents));
    }
  }

  /** The same number of titles whichever way the headers are shown. */
  lemma {:induction false} EntryTitlesLength(dat: seq<LangEntry>, h1: Lang -> string, h2: Lang -> string, filtered: bool)
    ensures |EntryTitles(dat, h1, filtered)| == |EntryTitles(dat, h2, filtered)|
    decreases |dat|
  {
    if dat != [] {
      EntryTitlesLength(dat[..|dat| - 1], h1, h2, filtered);
    }
  }

  /** Without empty titles every link of the printed table of contents reaches
      the anchor of the body at the same position: both number their titles
      0, 1, 2, … in the same order, and the titles agree except that the body
      links each language header to its page. */
  lemma {:induction false} AnchorsAgree(a: Article, url: Lang -> string)
    requires NoEmptyTitles(a)
    ensures PrintedAnchors(PageBody(a, url)) == Consecutive(ArticleTitles(a, Linked(url)), 0)
    ensures PrintedLinks(TocTree(PageOutline(a))) == Consecutive(ArticleTitles(a, Ja), 0)
    ensures |PrintedAnchors(PageBody(a, url))| == |PrintedLinks(TocTree(PageOutline(a)))|
  {
    var l := a.l;
    PageAnchors(a, url);
    PageLinks(a);
    FilterAll(Titles(l.v1));
    FilterAll(Titles(l.v2));
    EntryTitlesUnfiltered(a.dat, Linked(url));
    EntryTitlesLength(a.dat, Linked(url), Ja, false);
  }

  /** An article whose character section has one block, with an empty title. */
  function EmptyLinziTitleArticle(): Article {
    Article(LinziPortion([], [("", DivText("x"))], "g.png", []), [LangEntry(Lang("A"), [])])
  }

  /** An empty title in `v1` still takes a number in the body but is filtered
      from the outline: the printed table of contents then links the language
      section one anchor too low, at the empty heading. */
  lemma EmptyLinziTitleDiverges(url: Lang -> string)
    ensures PrintedLinks(TocTree(PageOutline(EmptyLinziTitleArticle()))) == [Heading("燐字", 0), Heading("A", 1)]
    ensures PrintedAnchors(PageBody(EmptyLinziTitleArticle(), url))
         == [Heading("燐字", 0), Heading("", 1), Heading(LangLink(Lang("A"), url), 2)]
  {
    EmptyLinziTitleToc();
    EmptyLinziTitleBody(url);
  }

  lemma EmptyLinziTitleToc()
    ensures PrintedLinks(TocTree(PageOutline(EmptyLinziTitleArticle()))) == [Heading("燐字", 0), Heading("A", 1)]
  {
    var a := EmptyLinziTitleArticle();
    assert Titles(a.l.v1) == [""] && Titles(a.l.v2) == [];
    assert NonEmptyTitles([""]) == [] && NonEmptyTitles([]) == [];
    assert LinziTitles(a.l, true) == ["燐字"];
    assert Titles(a.dat[0].contents) == [];
    assert EntryTitles(a.dat, Ja, false) == [] + SectionTitles(a.dat[0], Ja, false);
    assert TocTitles(a) == ["燐字", "A"];
    PageLinks(a);
  }

  lemma EmptyLinziTitleBody(url: Lang -> string)
    ensures PrintedAnchors(PageBody(EmptyLinziTitleArticle(), url))
         == [Heading("燐字", 0), Heading("", 1), Heading(LangLink(Lang("A"), url), 2)]
  {
    var a := EmptyLinziTitleArticle();
    assert Titles(a.l.v1) == [""] && Titles(a.l.v2) == [];
    assert LinziTitles(a.l, false) == ["燐字", ""];
    assert Titles(a.dat[0].contents) == [] && NonEmptyTitles([]) == [];
    assert Linked(url)(Lang("A")) == LangLink(Lang("A"), url);
    assert EntryTitles(a.dat, Linked(url), true) == [] + SectionTitles(a.dat[0], Linked(url), true);
    assert BodyTitles(a, url) == ["燐字", "", LangLink(Lang("A"), url)];
    PageAnchors(a, url);
  }

  /** An article whose only language section opens with an empty title. */
  function EmptyEntryTitleArticle(): Article {
    Article(LinziPortion([], [], "g.png", []),
            [LangEntry(Lang("A"), [("", DivText("x")), ("B", DivText("y"))])])
  }

  /** An empty title in a language section takes no number in the body but
      stays in the outline: the printed table of contents then links the
      following title one anchor too high. */
  lemma EmptyEntryTitleDiverges(url: Lang -> string)
    ensures PrintedLinks(TocTree(PageOutline(EmptyEntryTitleArticle())))
         == [Heading("燐字", 0), Heading("A", 1), Heading("", 2), Heading("B", 3)]
    ensures PrintedAnchors(PageBody(EmptyEntryTitleArticle(), url))
         == [Heading("燐字", 0), Heading(LangLink(Lang("A"), url), 1), Heading("B", 2)]
  {
    EmptyEntryTitleToc();
    EmptyEntryTitleBody(url);
  }

  lemma EmptyEntryTitleToc()
    ensures PrintedLinks(TocTree(PageOutline(EmptyEntryTitleArticle())))
         == [Heading("燐字", 0), Heading("A", 1), Heading("", 2), Heading("B", 3)]
  {
    var a := EmptyEntryTitleArticle();
    assert Titles(a.l.v1) == [] && Titles(a.l.v2) == [] && NonEmptyTitles([]) == [];
    assert LinziTitles(a.l, true) == ["燐字"];
    assert Titles(a.dat[0].contents) == ["", "B"];
    assert EntryTitles(a.dat, Ja, false) == [] + SectionTitles(a.dat[0], Ja, false);
    assert TocTitles(a) == ["燐字", "A", "", "B"];
    PageLinks(a);
  }

  lemma EmptyEntryTitleBody(url: Lang -> string)
    ensures PrintedAnchors(PageBody(EmptyEntryTitleArticle(), url))
         == [Heading("燐字", 0), Heading(LangLink(Lang("A"), url), 1), Heading("B", 2)]
  {
    var a := EmptyEntryTitleArticle();
    var titles := ["", "B"];
    assert Titles(a.l.v1) == [] && Titles(a.l.v2) == [];
    assert LinziTitles(a.l, false) == ["燐字"];
    assert Titles(a.dat[0].contents) == titles;
    assert titles[..1] == [""];
    assert NonEmptyTitles(titles[..1]) == NonEmptyTitles([]) + [];
    assert NonEmptyTitles(titles) == NonEmptyTitles(titles[..1]) + ["B"];
    assert Linked(url)(Lang("A")) == LangLink(Lang("A"), url);
    assert EntryTitles(a.dat, Linked(url), true) == [] + SectionTitles(a.dat[0], Linked(url), true);
    assert BodyTitles(a, url) == ["燐字", LangLink(Lang("A"), url), "B"];
    PageAnchors(a, url);
  }

  // ---------------------------------------------------------------------------
  // The lenticular pass over an article

  function DivTextOf(s: string): Bar { DivText(s) }
  function DivTextsOf(ss: seq<string>): Bar { DivTexts(ss) }
  function OrderedList(content: seq<string>): Bar { List(true, content) }
  function UnorderedList(content: seq<string>): Bar { List(false, content) }

  /** `Lenticular for Bar`: every string of the block is rewritten. */
  function BarToLink(b: Bar): Result<Bar> {
    match b
    case DivText(s) => Rebuild(Linkify(s), DivTextOf)
    case DivTexts(ss) => Rebuild(LinkifySeq(ss, Linkify), DivTextsOf)
    case List(ordered, content) =>
      Rebuild(LinkifySeq(content, Linkify), if ordered then OrderedList else UnorderedList)
  }

  /** A titled block is a `(String, Bar)` pair. */
  function ItemToLink(item: (string, Bar)): Result<(string, Bar)> {
    LinkifyPair(item.0, item.1, Linkify, BarToLink)
  }

  function ItemsToLink(items: seq<(string, Bar)>): Result<seq<(string, Bar)>> {
    LinkifySeq(items, ItemToLink)
  }

  function BarsToLink(bars: seq<Bar>): Result<seq<Bar>> {
    LinkifySeq(bars, BarToLink)
  }

  /** `Lenticular for Lang`: a language name is never rewritten. */
  function LangToLink(lang: Lang): Result<Lang> {
    Ok(lang)
  }

  function EntryOf(p: (Lang, seq<(string, Bar)>)): LangEntry {
    LangEntry(p.0, p.1)
  }

  /** `Lenticular for LangEntry`, through the pair `(lang, contents)`. */
  function LangEntryToLink(entry: LangEntry): Result<LangEntry> {
    Rebuild(LinkifyPair(entry.lang, entry.contents, LangToLink, ItemsToLink), EntryOf)
  }

  function InitV1ToLink(p: (seq<Bar>, seq<(string, Bar)>)): Result<(seq<Bar>, seq<(string, Bar)>)> {
    LinkifyPair(p.0, p.1, BarsToLink, ItemsToLink)
  }

  function ImageV2ToLink(p: (string, seq<(string, Bar)>)): Result<(string, seq<(string, Bar)>)> {
    LinkifyPair(p.0, p.1, Linkify, ItemsToLink)
  }

  function LinziOf(p: ((seq<Bar>, seq<(string, Bar)>), (string, seq<(string, Bar)>))): LinziPortion {
    LinziPortion(p.0.0, p.0.1, p.1.0, p.1.1)
  }

  /** `Lenticular for LinziPortion`, through `((init, v1), (grau_prua_yr, v2))`. */
  function LinziPortionToLink(l: LinziPortion): Result<LinziPortion> {
    Rebuild(LinkifyPair((l.init, l.v1), (l.grauPruaYr, l.v2), InitV1ToLink, ImageV2ToLink), LinziOf)
  }

  function EntriesToLink(dat: seq<LangEntry>): Result<seq<LangEntry>> {
    LinkifySeq(dat, LangEntryToLink)
  }

  function ArticleOf(p: (LinziPortion, seq<LangEntry>)): Article {
    Article(p.0, p.1)
  }

  /** `Lenticular for Article`, through the pair `(l, dat)`. */
  function ArticleToLink(a: Article): Result<Article> {
    Rebuild(LinkifyPair(a.l, a.dat, LinziPortionToLink, EntriesToLink), ArticleOf)
  }

  // What the pass means: the strings it visits, in order, and the article
  // with each of them rewritten.

  function BarStrings(b: Bar): seq<string> {
    match b
    case DivText(s) => [s]
    case DivTexts(ss) => ss
    case List(_, content) => content
  }

  function RewriteBar(b: Bar): Bar {
    match b
    case DivText(s) => DivText(Rewritten(s))
    case DivTexts(ss) => DivTexts(MapSeq(ss, Rewritten))
    case List(ordered, content) => List(ordered, MapSeq(content, Rewritten))
  }

  function ItemStrings(item: (string, Bar)): seq<string> {
    [item.0] + BarStrings(item.1)
  }

  function RewriteItem(item: (string, Bar)): (string, Bar) {
    (Rewritten(item.0), RewriteBar(item.1))
  }

  function EntryStrings(entry: LangEntry): seq<string> {
    StringsOf(entry.contents, ItemStrings)
  }

  function RewriteEntry(entry: LangEntry): LangEntry {
    LangEntry(entry.lang, MapSeq(entry.contents, RewriteItem))
  }

  function LinziStrings(l: LinziPortion): seq<string> {
    (StringsOf(l.init, BarStrings) + StringsOf(l.v1, ItemStrings)) + ([l.grauPruaYr] + StringsOf(l.v2, ItemStrings))
  }

  function RewriteLinzi(l: LinziPortion): LinziPortion {
    LinziPortion(MapSeq(l.init, RewriteBar), MapSeq(l.v1, RewriteItem), Rewritten(l.grauPruaYr), MapSeq(l.v2, RewriteItem))
  }

  /** Every string of an article in the order the pass visits them: the
      character's section (unnumbered blocks, `v1`, the image path, `v2`),
      then each language section's titles and blocks. */
  function ArticleStrings(a: Article): seq<string> {
    LinziStrings(a.l) + StringsOf(a.dat, EntryStrings)
  }

  function RewriteArticle(a: Article): Article {
    Article(RewriteLinzi(a.l), MapSeq(a.dat, RewriteEntry))
  }

  lemma {:induction false} BarToLinkSpec(b: Bar)
    ensures BarToLink(b) == Expected(BarStrings(b), RewriteBar(b))
  {
    match b {
      case DivText(s) =>
        LinkifyExpected(s);
        RebuildExpected(Linkify(s), DivTextOf, [s], Rewritten(s));
      case DivTexts(ss) =>
        LinkifyStrings(ss);
        RebuildExpected(LinkifySeq(ss, Linkify), DivTextsOf, ss, MapSeq(ss, Rewritten));
      case List(ordered, content) =>
        LinkifyStrings(content);
        RebuildExpected(LinkifySeq(content, Linkify), if ordered then OrderedList else UnorderedList,
                        content, MapSeq(content, Rewritten));
    }
  }

  lemma {:induction false} ItemsToLinkSpec(items: seq<(string, Bar)>)
    ensures ItemsToLink(items) == Expected(StringsOf(items, ItemStrings), MapSeq(items, RewriteItem))
  {
    forall i | 0 <= i < |items|
      ensures ItemToLink(items[i]) == Expected(ItemStrings(items[i]), RewriteItem(items[i]))
    {
      LinkifyExpected(items[i].0);
      BarToLinkSpec(items[i].1);
      PairExpected(items[i].0, items[i].1, Linkify, BarToLink,
                   [items[i].0], BarStrings(items[i].1), Rewritten(items[i].0), RewriteBar(items[i].1));
    }
    SeqExpected(items, ItemToLink, ItemStrings, RewriteItem);
  }

  lemma {:induction false} BarsToLinkSpec(bars: seq<Bar>)
    ensures BarsToLink(bars) == Expected(StringsOf(bars, BarStrings), MapSeq(bars, RewriteBar))
  {
    forall i | 0 <= i < |bars| ensures BarToLink(bars[i]) == Expected(BarStrings(bars[i]), RewriteBar(bars[i])) {
      BarToLinkSpec(bars[i]);
    }
    SeqExpected(bars, BarToLink, BarStrings, RewriteBar);
  }

  lemma {:induction false} LangEntryToLinkSpec(entry: LangEntry)
    ensures LangEntryToLink(entry) == Expected(EntryStrings(entry), RewriteEntry(entry))
  {
    ItemsToLinkSpec(entry.contents);
    assert LangToLink(entry.lang) == Expected([], entry.lang);
    PairExpected(entry.lang, entry.contents, LangToLink, ItemsToLink,
                 [], EntryStrings(entry), entry.lang, MapSeq(entry.contents, RewriteItem));
    AppendEmpty(EntryStrings(entry));
    RebuildExpected(LinkifyPair(entry.lang, entry.contents, LangToLink, ItemsToLink), EntryOf,
                    EntryStrings(entry), (entry.lang, MapSeq(entry.contents, RewriteItem)));
  }

  lemma {:induction false} InitV1ToLinkSpec(init: seq<Bar>, v1: seq<(string, Bar)>)
    ensures InitV1ToLink((init, v1))
         == Expected(StringsOf(init, BarStrings) + StringsOf(v1, ItemStrings),
                     (MapSeq(init, RewriteBar), MapSeq(v1, RewriteItem)))
  {
    BarsToLinkSpec(init);
    ItemsToLinkSpec(v1);
    PairExpected(init, v1, BarsToLink, ItemsToLink, StringsOf(init, BarStrings), StringsOf(v1, ItemStrings),
                 MapSeq(init, RewriteBar), MapSeq(v1, RewriteItem));
  }

  lemma {:induction false} ImageV2ToLinkSpec(src: string, v2: seq<(string, Bar)>)
    ensures ImageV2ToLink((src, v2))
         == Expected([src] + StringsOf(v2, ItemStrings), (Rewritten(src), MapSeq(v2, RewriteItem)))
  {
    LinkifyExpected(src);
    ItemsToLinkSpec(v2);
    PairExpected(src, v2, Linkify, ItemsToLink, [src], StringsOf(v2, ItemStrings), Rewritten(src), MapSeq(v2, RewriteItem));
  }

  lemma {:induction false} LinziPortionToLinkSpec(l: LinziPortion)
    ensures LinziPortionToLink(l) == Expected(LinziStrings(l), RewriteLinzi(l))
  {
    var si, s1, s2 := StringsOf(l.init, BarStrings), StringsOf(l.v1, ItemStrings), StringsOf(l.v2, ItemStrings);
    var m1 := (MapSeq(l.init, RewriteBar), MapSeq(l.v1, RewriteItem));
    var m2 := (Rewritten(l.grauPruaYr), MapSeq(l.v2, RewriteItem));
    InitV1ToLinkSpec(l.init, l.v1);
    ImageV2ToLinkSpec(l.grauPruaYr, l.v2);
    PairExpected((l.init, l.v1), (l.grauPruaYr, l.v2), InitV1ToLink, ImageV2ToLink, si + s1, [l.grauPruaYr] + s2, m1, m2);
    RebuildExpected(LinkifyPair((l.init, l.v1), (l.grauPruaYr, l.v2), InitV1ToLink, ImageV2ToLink), LinziOf,
                    LinziStrings(l), (m1, m2));
  }

  /** `Lenticular for Article` rewrites exactly the article's strings: it
      succeeds with every one of them rewritten, or fails with the errors of
      every failing one, in the order they appear. */
  lemma {:induction false} ArticleToLinkSpec(a: Article)
    ensures ArticleToLink(a) == Expected(ArticleStrings(a), RewriteArticle(a))
  {
    LinziPortionToLinkSpec(a.l);
    forall k | 0 <= k < |a.dat|
      ensures LangEntryToLink(a.dat[k]) == Expected(EntryStrings(a.dat[k]), RewriteEntry(a.dat[k]))
    {
      LangEntryToLinkSpec(a.dat[k]);
    }
    SeqExpected(a.dat, LangEntryToLink, EntryStrings, RewriteEntry);
    PairExpected(a.l, a.dat, LinziPortionToLink, EntriesToLink,
                 LinziStrings(a.l), StringsOf(a.dat, EntryStrings), RewriteLinzi(a.l), MapSeq(a.dat, RewriteEntry));
    RebuildExpected(LinkifyPair(a.l, a.dat, LinziPortionToLink, EntriesToLink), ArticleOf,
                    ArticleStrings(a), (RewriteLinzi(a.l), MapSeq(a.dat, RewriteEntry)));
  }

  /** The page of an article is written only when the pass succeeds, which
      happens exactly when every string of the article is well bracketed;
      otherwise every malformed string is reported, each once, in order. */
  lemma {:induction false} ArticleToLinkOutcome(a: Article)
    ensures ArticleToLink(a).Ok? <==> forall i :: 0 <= i < |ArticleStrings(a)| ==> Linkify(ArticleStrings(a)[i]).Ok?
    ensures ArticleToLink(a).Ok? ==> ArticleToLink(a).value == RewriteArticle(a)
    ensures ArticleToLink(a).Err? ==> Sources(ArticleToLink(a).errors) == Failing(ArticleStrings(a))
  {
    ArticleToLinkSpec(a);
    ExpectedMeaning(ArticleStrings(a), RewriteArticle(a));
  }
}
