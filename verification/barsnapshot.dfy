/** The older rendering pipeline (src/bar.rs): the same page layout as the
    current one, with three kinds of block, a `Foo` tree in place of
    `IndentedStr` (same shape, modelled by the same type), and no special
    treatment of empty titles anywhere. */
module BarSnapshot {
  import opened Text
  import opened Indented
  import opened Language
  import opened Toc
  import opened Anchors
  import Markup

  /** A content block: one paragraph, a bulleted list or a numbered list. */
  datatype Bar = DivText(text: string) | Ul(items: seq<string>) | Ol(items: seq<string>)

  /** `LangHoge`: one language's titled blocks. */
  datatype LangHoge = LangHoge(lang: Lang, contents: seq<(string, Bar)>)

  datatype LinziPortion = LinziPortion(
    init: seq<Bar>,
    v1: seq<(string, Bar)>,
    grauPruaYr: string,
    v2: seq<(string, Bar)>)

  // ---------------------------------------------------------------------------
  // Blocks and headings

  /** `Foo::ol` and `Foo::ul`: one `li` line per item, in order. */
  function ListOf(tag: string, k: seq<string>): IndentedStr {
    C(tag, seq(|k|, i requires 0 <= i < |k| => Line("<li>" + k[i] + "</li>")))
  }

  /** `Into<Foo> for Bar`: every block is a single node. */
  function BarFoo(b: Bar): IndentedStr {
    match b
    case DivText(s) => Line("<div>" + s + "</div>")
    case Ul(v) => ListOf("ul", v)
    case Ol(v) => ListOf("ol", v)
  }

  /** `h3`: a heading anchored at `TOC--ind`. */
  function H3(ind: nat, t: string): IndentedStr {
    Line("<h3><a name=\"TOC--" + Decimal(ind) + "\"></a>" + t + "</h3>")
  }

  /** What a block prints: a paragraph is one `div` line; a list is its
      opening tag, one indented `li` line per item in order, its closing tag. */
  lemma {:induction false} BarPrinted(b: Bar)
    ensures b.DivText? ==> Strs(BarFoo(b)) == ["<div>" + b.text + "</div>"]
    ensures !b.DivText? ==>
              var lines, tag := Strs(BarFoo(b)), if b.Ul? then "ul" else "ol";
              && |lines| == |b.items| + 2
              && lines[0] == "<" + tag + ">" && lines[|lines| - 1] == "</" + tag + ">"
              && forall i :: 0 <= i < |b.items| ==> lines[i + 1] == "  <li>" + b.items[i] + "</li>"
  {
    if !b.DivText? {
      var t := BarFoo(b);
      ChildStrsOfLines(t.children);
      ListLines(if b.Ul? then "ul" else "ol", b.items, ChildStrs(t.children), Strs(t));
    }
  }

  /** `h3` is the current renderer's anchored heading. */
  lemma {:induction false} H3IsWithToc(ind: nat, t: string)
    ensures H3(ind, t) == WithToc("h3", ind, t)
  {
    assert "<" + "h3" + "><a name=\"TOC--" == "<h3><a name=\"TOC--";
    assert "</" + "h3" + ">" == "</h3>";
  }

  /** Each titled block as its heading, numbered from `last + 1` on with no
      title skipped, followed by its node. */
  function TitledLines(items: seq<(string, Bar)>, last: nat): seq<IndentedStr>
    decreases |items|
  {
    if items == [] then []
    else
      var k := |items| - 1;
      TitledLines(items[..k], last) + [H3(last + 1 + k, items[k].0), BarFoo(items[k].1)]
  }

  lemma {:induction false} TitledLinesStep(items: seq<(string, Bar)>, last: nat, i: nat)
    requires i < |items|
    ensures TitledLines(items[..i + 1], last)
         == TitledLines(items[..i], last) + [H3(last + 1 + i, items[i].0), BarFoo(items[i].1)]
  {
    assert items[..i + 1][..i] == items[..i];
  }

  /** One more titled block, its heading numbered `ind`. */
  lemma {:induction false} TitledAppend(ans: seq<IndentedStr>, items: seq<(string, Bar)>, last: nat, i: nat,
                     acc: seq<IndentedStr>, ind: nat)
    requires i < |items|
    requires acc == ans + TitledLines(items[..i], last)
    requires ind == last + 1 + i
    ensures (acc + [H3(ind, items[i].0)]) + [BarFoo(items[i].1)] == ans + TitledLines(items[..i + 1], last)
  {
    var done := TitledLines(items[..i], last);
    TitledLinesStep(items, last, i);
    Associative(ans, done, [H3(ind, items[i].0)] + [BarFoo(items[i].1)]);
    Associative(acc, [H3(ind, items[i].0)], [BarFoo(items[i].1)]);
  }

  /** One titled run, with the counter at `last` before it. */
  method RenderTitled(items: seq<(string, Bar)>, last: nat, ans: seq<IndentedStr>)
    returns (ans': seq<IndentedStr>, last': nat)
    ensures ans' == ans + TitledLines(items, last)
    ensures last' == last + |items|
  {
    ans', last' := ans, last;
    for i := 0 to |items|
      invariant last' == last + i
      invariant ans' == ans + TitledLines(items[..i], last)
    {
      var (a, b) := items[i];
      last' := last' + 1;
      TitledAppend(ans, items, last, i, ans', last');
      ans' := ans' + [H3(last', a)];
      ans' := ans' + [BarFoo(b)];
    }
    assert items[..|items|] == items;
  }

  // ---------------------------------------------------------------------------
  // Sections

  /** The trailing line break every section ends with. */
  function Br(): seq<IndentedStr> {
    [BarFoo(DivText("<br>"))]
  }

  /** A language section rendered with the counter at `last`; `h2` stands for
      the language's own anchored header line. The rule under the header is
      the current renderer's `Markup.Hr`. */
  function LangLines(lang: Lang, v: seq<(string, Bar)>, h2: (Lang, nat) -> IndentedStr, last: nat): seq<IndentedStr> {
    [h2(lang, last + 1), Markup.Hr()] + TitledLines(v, last + 1) + Br()
  }

  /** `bar`: the counter goes up once for the header and once per title. */
  method RenderLang(lang: Lang, v: seq<(string, Bar)>, h2: (Lang, nat) -> IndentedStr, ind: nat)
    returns (lines: seq<IndentedStr>, ind': nat)
    ensures lines == LangLines(lang, v, h2, ind)
    ensures ind' == ind + 1 + |v|
  {
    ind' := ind + 1;
    var ans := [h2(lang, ind'), Markup.Hr()];
    ans, ind' := RenderTitled(v, ind', ans);
    lines := ans + [BarFoo(DivText("<br>"))];
  }

  function InitLines(init: seq<Bar>): (r: seq<IndentedStr>)
    ensures |r| == |init| && forall i :: 0 <= i < |init| ==> r[i] == BarFoo(init[i])
  {
    seq(|init|, i requires 0 <= i < |init| => BarFoo(init[i]))
  }

  /** The fixed header (the current renderer's `Markup.FrontMatter`), the rule
      under it and the unnumbered blocks. */
  function LinziFront(init: seq<Bar>): seq<IndentedStr> {
    [Ls(Markup.FrontMatter), Markup.Hr()] + InitLines(init)
  }

  /** The character's section rendered with the counter at `last`: header,
      rule, one node per unnumbered block, `v1`, the image between two
      spacers (`Markup.ImageBlock`), `v2`, a line break. */
  function LinziLines(l: LinziPortion, last: nat): seq<IndentedStr> {
    LinziFront(l.init)
    + TitledLines(l.v1, last)
    + Markup.ImageBlock(l.grauPruaYr)
    + TitledLines(l.v2, last + |l.v1|)
    + Br()
  }

  /** `LinziPortion::render`: the counter goes up once per title of `v1` and
      `v2`. */
  method RenderLinziPortion(l: LinziPortion, ind: nat) returns (lines: seq<IndentedStr>, ind': nat)
    ensures lines == LinziLines(l, ind)
    ensures ind' == ind + |l.v1| + |l.v2|
  {
    var ans := [Ls(Markup.FrontMatter), Markup.Hr()];
    ans := ans + InitLines(l.init);
    ans, ind' := RenderTitled(l.v1, ind, ans);
    ans := ans + Markup.ImageBlock(l.grauPruaYr);
    ans, ind' := RenderTitled(l.v2, ind', ans);
    lines := ans + [BarFoo(DivText("<br>"))];
  }

  // ---------------------------------------------------------------------------
  // The page

  /** The language sections, each rendered where the previous one left the
      counter. */
  function LangSections(dat: seq<LangHoge>, h2: (Lang, nat) -> IndentedStr, first: nat): (r: seq<seq<IndentedStr>>)
    ensures |r| == |dat|
  {
    if dat == [] then []
    else [LangLines(dat[0].lang, dat[0].contents, h2, first)]
         + LangSections(dat[1..], h2, first + 1 + |dat[0].contents|)
  }

  function Sections(parts: seq<seq<IndentedStr>>): (r: seq<IndentedStr>)
    ensures |r| == |parts| && forall i :: 0 <= i < |parts| ==> r[i] == C("section", parts[i])
  {
    seq(|parts|, i requires 0 <= i < |parts| => C("section", parts[i]))
  }

  /** The article of `hoge`: one section for the character, then one per
      language. */
  function HogeBody(l: LinziPortion, dat: seq<LangHoge>, h2: (Lang, nat) -> IndentedStr): IndentedStr {
    C("article", Sections([LinziLines(l, 0)] + LangSections(dat, h2, |l.v1| + |l.v2|)))
  }

  /** The outline of `hoge`: every title, none filtered. */
  function HogeOutline(l: LinziPortion, dat: seq<LangHoge>): (outline: Outline)
    ensures |outline| == 1 + |dat|
  {
    [("燐字", Titles(l.v1) + Titles(l.v2))]
    + seq(|dat|, k requires 0 <= k < |dat| => (Ja(dat[k].lang), Titles(dat[k].contents)))
  }

  lemma {:induction false} LangSectionsStep(dat: seq<LangHoge>, k: nat, h2: (Lang, nat) -> IndentedStr, start: nat)
    requires k < |dat|
    ensures LangSections(dat[k..], h2, start)
         == [LangLines(dat[k].lang, dat[k].contents, h2, start)]
            + LangSections(dat[k + 1..], h2, start + 1 + |dat[k].contents|)
  {
    assert dat[k..][0] == dat[k] && dat[k..][1..] == dat[k + 1..];
  }

  /** One more language section appended behind what is already rendered,
      the counter moving from `before` to `after`. */
  lemma {:induction false} LangsAppend(parts: seq<seq<IndentedStr>>, dat: seq<LangHoge>, k: nat, h2: (Lang, nat) -> IndentedStr,
                    before: nat, lines: seq<IndentedStr>, after: nat)
    requires k < |dat|
    requires lines == LangLines(dat[k].lang, dat[k].contents, h2, before)
    requires after == before + 1 + |dat[k].contents|
    ensures parts + LangSections(dat[k..], h2, before)
         == (parts + [lines]) + LangSections(dat[k + 1..], h2, after)
  {
    calc {
      parts + LangSections(dat[k..], h2, before);
      { LangSectionsStep(dat, k, h2, before); }
      parts + ([lines] + LangSections(dat[k + 1..], h2, after));
      { Associative(parts, [lines], LangSections(dat[k + 1..], h2, after)); }
      (parts + [lines]) + LangSections(dat[k + 1..], h2, after);
    }
  }

  method RenderLangs(dat: seq<LangHoge>, h2: (Lang, nat) -> IndentedStr, first: nat)
    returns (parts: seq<seq<IndentedStr>>)
    ensures parts == LangSections(dat, h2, first)
  {
    var ind := first;
    parts := [];
    assert dat[0..] == dat;
    for k := 0 to |dat|
      invariant parts + LangSections(dat[k..], h2, ind) == LangSections(dat, h2, first)
    {
      ghost var before := ind;
      var lines;
      lines, ind := RenderLang(dat[k].lang, dat[k].contents, h2, ind);
      LangsAppend(parts, dat, k, h2, before, lines, ind);
      parts := parts + [lines];
    }
    assert dat[|dat|..] == [];
    assert parts + [] == parts;
  }

  method BuildOutline(l: LinziPortion, dat: seq<LangHoge>) returns (outline: Outline)
    ensures outline == HogeOutline(l, dat)
  {
    outline := [("燐字", Titles(l.v1) + Titles(l.v2))];
    for k := 0 to |dat|
      invariant outline == HogeOutline(l, dat)[..k + 1]
    {
      outline := outline + [(Ja(dat[k].lang), Titles(dat[k].contents))];
    }
  }

  /** `hoge`: the table of contents of the outline, and the article, the
      counter starting at 0 and threaded character-section first. */
  method Hoge(l: LinziPortion, dat: seq<LangHoge>, h2: (Lang, nat) -> IndentedStr)
    returns (toc: string, cont: IndentedStr)
    ensures toc == ToString(TocTree(HogeOutline(l, dat)))
    ensures cont == HogeBody(l, dat, h2)
    ensures AnchoredHeaders(h2, Ja) && OneLineLinzi(l) && OneLineLangs(dat, h2) ==>
              Found(SplitOn(ToString(cont), '\n'), AnchorIn) == DisplayedLinks(toc)
  {
    var outline := BuildOutline(l, dat);
    var ind := 0;
    var linziPortion;
    linziPortion, ind := RenderLinziPortion(l, ind);
    var parts := RenderLangs(dat, h2, ind);
    cont := C("article", Sections([linziPortion] + parts));
    HogeAssembled(l, dat, h2, linziPortion, ind, parts, cont);
    toc := GenerateToc(outline);
    if AnchoredHeaders(h2, Ja) && OneLineLinzi(l) && OneLineLangs(dat, h2) {
      PrintedHoge(l, dat, h2);
    }
  }

  lemma {:induction false} HogeAssembled(l: LinziPortion, dat: seq<LangHoge>, h2: (Lang, nat) -> IndentedStr,
                      linzi: seq<IndentedStr>, ind: nat, parts: seq<seq<IndentedStr>>, cont: IndentedStr)
    requires linzi == LinziLines(l, 0)
    requires ind == 0 + |l.v1| + |l.v2|
    requires parts == LangSections(dat, h2, ind)
    requires cont == C("article", Sections([linzi] + parts))
    ensures cont == HogeBody(l, dat, h2)
  {
  }

  // ---------------------------------------------------------------------------
  // The anchors the printed body carries

  /** What the body needs of `lang.h2`: the header line it prints for a
      language carries one anchor, titled `header(lang)`, at the number it is
      given. */
  ghost predicate AnchoredHeaders(h2: (Lang, nat) -> IndentedStr, header: Lang -> string) {
    forall lang: Lang, n: nat :: n >= 1 ==> NodesFound([h2(lang, n)], AnchorIn) == [Heading(header(lang), n)]
  }

  /** A list block carries no anchor: neither its tags nor its items do. */
  lemma {:induction false} ListAnchorFree(tag: string, k: seq<string>)
    requires tag == "ul" || tag == "ol"
    ensures NodesFound([ListOf(tag, k)], AnchorIn) == []
  {
    var items := ListOf(tag, k).children;
    forall i | 0 <= i < |items|
      ensures items[i].Line? && AnchorIn(Unindented(items[i].text)).None?
    {
      var line := "<li>" + k[i] + "</li>";
      assert line[0] == '<' && line[1] == 'l';
      LineNoAnchor(line);
    }
    NodesFoundNone(items, AnchorIn);
    NoAnchor("<" + tag + ">");
    NoAnchor("</" + tag + ">");
    FoundWrapped(tag, ">", items, AnchorIn);
    NodesFoundOne(ListOf(tag, k), AnchorIn);
  }

  /** No block carries an anchor. */
  lemma {:induction false} BarFooAnchorFree(b: Bar)
    ensures NodesFound([BarFoo(b)], AnchorIn) == []
  {
    match b {
      case DivText(s) =>
        var line := "<div>" + s + "</div>";
        assert line[0] == '<' && line[1] == 'd';
        LineNoAnchor(line);
        NodesFoundLine(line, AnchorIn);
      case Ul(v) => ListAnchorFree("ul", v);
      case Ol(v) => ListAnchorFree("ol", v);
    }
  }

  lemma {:induction false} BrAnchorFree()
    ensures NodesFound(Br(), AnchorIn) == []
  {
    BarFooAnchorFree(DivText("<br>"));
  }

  /** `h3` carries its title at its number. */
  lemma {:induction false} H3Found(n: nat, t: string)
    requires n >= 1
    ensures NodesFound([H3(n, t)], AnchorIn) == [Heading(t, n)]
  {
    H3IsWithToc(n, t);
    WithTocFound("h3", n, t);
  }

  /** One more titled block adds its heading's anchor and nothing else. */
  lemma {:induction false} TitledBlockAnchors(all: seq<IndentedStr>, lines: seq<IndentedStr>, hsAll: seq<Heading>, hs: seq<Heading>,
                                              n: nat, title: string, b: Bar)
    requires all == lines + [H3(n, title), BarFoo(b)] && hsAll == hs + [Heading(title, n)]
    requires NodesFound(lines, AnchorIn) == hs && n >= 1
    ensures NodesFound(all, AnchorIn) == hsAll
  {
    H3Found(n, title);
    BarFooAnchorFree(b);
    NodesFoundPairQuiet(H3(n, title), BarFoo(b), AnchorIn, [Heading(title, n)]);
    NodesFoundJoin(lines, [H3(n, title), BarFoo(b)], AnchorIn, hs, [Heading(title, n)]);
  }

  /** A numbered run carries, block by block, the headings `RunHeadings`
      lists. */
  lemma {:induction false} TitledLinesFound(items: seq<(string, Bar)>, last: nat)
    ensures NodesFound(TitledLines(items, last), AnchorIn) == RunHeadings(items, last)
    decreases |items|
  {
    if items != [] {
      TitledLinesFound(items[..|items| - 1], last);
      TitledLinesFoundStep(items, last);
    } else {
      NodesFoundEmpty(AnchorIn);
    }
  }

  /** The last block of a numbered run adds the last heading. */
  lemma {:induction false} TitledLinesFoundStep(items: seq<(string, Bar)>, last: nat)
    requires items != []
    requires NodesFound(TitledLines(items[..|items| - 1], last), AnchorIn) == RunHeadings(items[..|items| - 1], last)
    ensures NodesFound(TitledLines(items, last), AnchorIn) == RunHeadings(items, last)
  {
    var k := |items| - 1;
    TitledBlockAnchors(TitledLines(items, last), TitledLines(items[..k], last), RunHeadings(items, last), RunHeadings(items[..k], last),
                       last + 1 + k, items[k].0, items[k].1);
  }

  /** A titled run numbered after `last` carries every title, in order, at
      the anchors after `last`. */
  lemma {:induction false} TitledAnchors(items: seq<(string, Bar)>, last: nat)
    ensures NodesFound(TitledLines(items, last), AnchorIn) == Consecutive(Titles(items), last + 1)
  {
    TitledLinesFound(items, last);
    RunHeadingsConsecutive(items, last);
  }

  lemma {:induction false} InitAnchorFree(init: seq<Bar>)
    ensures NodesFound(InitLines(init), AnchorIn) == []
    decreases |init|
  {
    if init != [] {
      var k := |init| - 1;
      assert InitLines(init) == InitLines(init[..k]) + [BarFoo(init[k])];
      InitAnchorFree(init[..k]);
      BarFooAnchorFree(init[k]);
      NodesFoundQuiet(InitLines(init[..k]), [BarFoo(init[k])], AnchorIn, []);
    }
  }

  /** The front of the character's section carries the front matter's anchor
      0 and no other. */
  lemma {:induction false} LinziHead(init: seq<Bar>)
    ensures NodesFound(LinziFront(init), AnchorIn) == [Heading("燐字", 0)]
  {
    Markup.FrontMatterAnchor();
    Markup.HrAnchorFree();
    NodesFoundPairQuiet(Ls(Markup.FrontMatter), Markup.Hr(), AnchorIn, [Heading("燐字", 0)]);
    InitAnchorFree(init);
    NodesFoundQuiet([Ls(Markup.FrontMatter), Markup.Hr()], InitLines(init), AnchorIn, [Heading("燐字", 0)]);
  }

  /** The character's section around its two titled runs: the image and the
      closing line break carry no anchor. */
  lemma {:induction false} LinziFound(init: seq<Bar>, n1: seq<IndentedStr>, src: string, n2: seq<IndentedStr>,
                                      hs1: seq<Heading>, hs2: seq<Heading>)
    requires NodesFound(n1, AnchorIn) == hs1
    requires NodesFound(n2, AnchorIn) == hs2
    ensures NodesFound(LinziFront(init) + n1 + Markup.ImageBlock(src) + n2 + Br(), AnchorIn) == [Heading("燐字", 0)] + hs1 + hs2
  {
    var front, h, img := LinziFront(init), [Heading("燐字", 0)], Markup.ImageBlock(src);
    LinziHead(init);
    Markup.ImageAnchorFree(src);
    BrAnchorFree();
    NodesFoundJoin(front, n1, AnchorIn, h, hs1);
    NodesFoundQuiet(front + n1, img, AnchorIn, h + hs1);
    NodesFoundJoin(front + n1 + img, n2, AnchorIn, h + hs1, hs2);
    NodesFoundQuiet(front + n1 + img + n2, Br(), AnchorIn, h + hs1 + hs2);
  }

  /** `TitledAnchors` with the first anchor named by the caller. */
  lemma {:induction false} TitledAnchorsFrom(items: seq<(string, Bar)>, last: nat, start: nat)
    requires start == last + 1
    ensures NodesFound(TitledLines(items, last), AnchorIn) == Consecutive(Titles(items), start)
  {
    TitledAnchors(items, last);
  }

  /** The two runs of the character's section, numbered one after the other
      from `last`, carry their titles at consecutive anchors. */
  lemma {:induction false} LinziRunsAnchors(v1: seq<(string, Bar)>, v2: seq<(string, Bar)>, last: nat)
    ensures NodesFound(TitledLines(v1, last), AnchorIn) == Consecutive(Titles(v1), last + 1)
    ensures NodesFound(TitledLines(v2, last + |v1|), AnchorIn) == Consecutive(Titles(v2), last + |v1| + 1)
    ensures [Heading("燐字", 0)] + Consecutive(Titles(v1), last + 1) + Consecutive(Titles(v2), last + |v1| + 1)
         == [Heading("燐字", 0)] + Consecutive(Titles(v1) + Titles(v2), last + 1)
  {
    var mid := last + |v1|;
    TitledAnchors(v1, last);
    TitledAnchorsFrom(v2, mid, last + |v1| + 1);
    ConsecutiveAfter([Heading("燐字", 0)], Titles(v1), Titles(v2), last + 1, last + |v1| + 1);
  }

  /** The character's section, rendered with the counter at `last`, carries
      the front matter's anchor 0, then every title of `v1` and `v2` at
      consecutive anchors after `last`. */
  lemma {:induction false} LinziAnchors(l: LinziPortion, last: nat)
    ensures NodesFound(LinziLines(l, last), AnchorIn)
         == [Heading("燐字", 0)] + Consecutive(Titles(l.v1) + Titles(l.v2), last + 1)
  {
    LinziRunsAnchors(l.v1, l.v2, last);
    LinziFound(l.init, TitledLines(l.v1, last), l.grauPruaYr, TitledLines(l.v2, last + |l.v1|),
               Consecutive(Titles(l.v1), last + 1), Consecutive(Titles(l.v2), last + |l.v1| + 1));
  }

  /** The character's section, rendered from 0 and wrapped in its
      `<section>`. */
  lemma {:induction false} LinziSectionAnchors(l: LinziPortion)
    ensures PrintedAnchors(C("section", LinziLines(l, 0))) == [Heading("燐字", 0)] + Consecutive(Titles(l.v1) + Titles(l.v2), 1)
  {
    LinziAnchors(l, 0);
    Markup.SectionFound(LinziLines(l, 0));
  }

  /** A language section's lines: the header's anchors, then the titled
      blocks'; the rule and the closing line break carry none. */
  lemma {:induction false} LangFound(header: IndentedStr, items: seq<IndentedStr>, hs: seq<Heading>, more: seq<Heading>)
    requires NodesFound([header], AnchorIn) == hs
    requires NodesFound(items, AnchorIn) == more
    ensures NodesFound([header, Markup.Hr()] + items + Br(), AnchorIn) == hs + more
  {
    Markup.HrAnchorFree();
    BrAnchorFree();
    NodesFoundPairQuiet(header, Markup.Hr(), AnchorIn, hs);
    NodesFoundJoin([header, Markup.Hr()], items, AnchorIn, hs, more);
    NodesFoundQuiet([header, Markup.Hr()] + items, Br(), AnchorIn, hs + more);
  }

  lemma {:induction false} LangTitlesFound(title: string, v: seq<(string, Bar)>, last: nat)
    ensures [Heading(title, last + 1)] + Consecutive(Titles(v), last + 1 + 1) == Consecutive([title] + Titles(v), last + 1)
  {
    ConsecutiveSingle(title, last + 1);
    ConsecutiveJoin([title], Titles(v), last + 1, last + 1 + 1);
  }

  /** A language section rendered with the counter at `last` carries its
      header at `last + 1` and every block title at the anchors after it. */
  lemma {:induction false} LangAnchors(lang: Lang, v: seq<(string, Bar)>, h2: (Lang, nat) -> IndentedStr,
                                       header: Lang -> string, last: nat)
    requires AnchoredHeaders(h2, header)
    ensures NodesFound(LangLines(lang, v, h2, last), AnchorIn) == Consecutive([header(lang)] + Titles(v), last + 1)
  {
    var h := [Heading(header(lang), last + 1)];
    assert NodesFound([h2(lang, last + 1)], AnchorIn) == h;
    TitledAnchors(v, last + 1);
    LangFound(h2(lang, last + 1), TitledLines(v, last + 1), h, Consecutive(Titles(v), last + 1 + 1));
    LangTitlesFound(header(lang), v, last);
  }

  lemma {:induction false} SectionsCons(x: seq<IndentedStr>, rest: seq<seq<IndentedStr>>)
    ensures Sections([x] + rest) == [C("section", x)] + Sections(rest)
  {
  }

  lemma {:induction false} LangSectionsCons(dat: seq<LangHoge>, h2: (Lang, nat) -> IndentedStr, first: nat)
    requires dat != []
    ensures Sections(LangSections(dat, h2, first))
         == [C("section", LangLines(dat[0].lang, dat[0].contents, h2, first))]
            + Sections(LangSections(dat[1..], h2, first + 1 + |dat[0].contents|))
  {
    SectionsCons(LangLines(dat[0].lang, dat[0].contents, h2, first), LangSections(dat[1..], h2, first + 1 + |dat[0].contents|));
  }

  /** The titles of the language sections, one section after another, each
      header shown by `header`. */
  function LangTitles(dat: seq<LangHoge>, header: Lang -> string): seq<string>
    decreases |dat|
  {
    if dat == [] then []
    else LangTitles(dat[..|dat| - 1], header) + ([header(dat[|dat| - 1].lang)] + Titles(dat[|dat| - 1].contents))
  }

  lemma {:induction false} LangTitlesAppend(xs: seq<LangHoge>, ys: seq<LangHoge>, header: Lang -> string)
    ensures LangTitles(xs + ys, header) == LangTitles(xs, header) + LangTitles(ys, header)
    decreases |ys|
  {
    if ys != [] {
      var k := |ys| - 1;
      assert (xs + ys)[..|xs + ys| - 1] == xs + ys[..k];
      LangTitlesAppend(xs, ys[..k], header);
    } else {
      assert xs + ys == xs;
    }
  }

  lemma {:induction false} LangTitlesCons(dat: seq<LangHoge>, header: Lang -> string)
    requires dat != []
    ensures LangTitles(dat, header) == ([header(dat[0].lang)] + Titles(dat[0].contents)) + LangTitles(dat[1..], header)
  {
    assert dat == [dat[0]] + dat[1..];
    LangTitlesAppend([dat[0]], dat[1..], header);
    assert LangTitles([dat[0]], header) == LangTitles([], header) + ([header(dat[0].lang)] + Titles(dat[0].contents));
  }

  /** The language sections, the first rendered with the counter at `first`,
      carry their titles at consecutive anchors after `first`. */
  lemma {:induction false} LangsAnchors(dat: seq<LangHoge>, h2: (Lang, nat) -> IndentedStr, header: Lang -> string, first: nat)
    requires AnchoredHeaders(h2, header)
    ensures NodesFound(Sections(LangSections(dat, h2, first)), AnchorIn) == Consecutive(LangTitles(dat, header), first + 1)
    decreases |dat|
  {
    if dat == [] {
      assert Sections(LangSections(dat, h2, first)) == [];
      NodesFoundEmpty(AnchorIn);
    } else {
      var next := first + 1 + |dat[0].contents|;
      LangsAnchors(dat[1..], h2, header, next);
      LangsAnchorsStep(dat, h2, header, first, next);
    }
  }

  /** The first language section in front of the ones after it. */
  lemma {:induction false} LangsAnchorsStep(dat: seq<LangHoge>, h2: (Lang, nat) -> IndentedStr, header: Lang -> string,
                                            first: nat, next: nat)
    requires AnchoredHeaders(h2, header)
    requires dat != [] && next == first + 1 + |dat[0].contents|
    requires NodesFound(Sections(LangSections(dat[1..], h2, next)), AnchorIn) == Consecutive(LangTitles(dat[1..], header), next + 1)
    ensures NodesFound(Sections(LangSections(dat, h2, first)), AnchorIn) == Consecutive(LangTitles(dat, header), first + 1)
  {
    LangSectionFirst(dat, h2, header, first, next);
    LangTitlesJoin(dat, header, first, next);
  }

  lemma {:induction false} LangSectionFirst(dat: seq<LangHoge>, h2: (Lang, nat) -> IndentedStr, header: Lang -> string,
                                            first: nat, next: nat)
    requires AnchoredHeaders(h2, header)
    requires dat != [] && next == first + 1 + |dat[0].contents|
    ensures NodesFound(Sections(LangSections(dat, h2, first)), AnchorIn)
         == Consecutive([header(dat[0].lang)] + Titles(dat[0].contents), first + 1)
            + NodesFound(Sections(LangSections(dat[1..], h2, next)), AnchorIn)
  {
    var d := dat[0];
    var lines, rest := LangLines(d.lang, d.contents, h2, first), Sections(LangSections(dat[1..], h2, next));
    LangAnchors(d.lang, d.contents, h2, header, first);
    Markup.SectionFound(lines);
    LangSectionsCons(dat, h2, first);
    Markup.NodesFoundFirst(C("section", lines), rest, Consecutive([header(d.lang)] + Titles(d.contents), first + 1),
                           NodesFound(rest, AnchorIn));
  }

  lemma {:induction false} LangTitlesJoin(dat: seq<LangHoge>, header: Lang -> string, first: nat, next: nat)
    requires dat != [] && next == first + 1 + |dat[0].contents|
    ensures Consecutive([header(dat[0].lang)] + Titles(dat[0].contents), first + 1) + Consecutive(LangTitles(dat[1..], header), next + 1)
         == Consecutive(LangTitles(dat, header), first + 1)
  {
    LangTitlesCons(dat, header);
    ConsecutiveJoin([header(dat[0].lang)] + Titles(dat[0].contents), LangTitles(dat[1..], header), first + 1, next + 1);
  }

  /** The titles in the order the page shows them: "燐字", every title of `v1`
      and `v2`, then each language's header and titles. */
  function HogeTitles(l: LinziPortion, dat: seq<LangHoge>, header: Lang -> string): seq<string> {
    ["燐字"] + Titles(l.v1) + Titles(l.v2) + LangTitles(dat, header)
  }

  lemma {:induction false} HogeTitlesFound(l: LinziPortion, dat: seq<LangHoge>, header: Lang -> string)
    ensures [Heading("燐字", 0)] + Consecutive(Titles(l.v1) + Titles(l.v2), 1)
            + Consecutive(LangTitles(dat, header), |l.v1| + |l.v2| + 1)
         == Consecutive(HogeTitles(l, dat, header), 0)
  {
    var v12 := Titles(l.v1) + Titles(l.v2);
    ConsecutiveSingle("燐字", 0);
    ConsecutiveJoin(["燐字"], v12, 0, 1);
    assert ["燐字"] + v12 == ["燐字"] + Titles(l.v1) + Titles(l.v2);
    ConsecutiveJoin(["燐字"] + Titles(l.v1) + Titles(l.v2), LangTitles(dat, header), 0, |l.v1| + |l.v2| + 1);
  }

  /** The printed article carries the titles `HogeTitles` lists at anchors 0,
      1, 2, … in document order. */
  lemma {:induction false} HogeAnchors(l: LinziPortion, dat: seq<LangHoge>, h2: (Lang, nat) -> IndentedStr, header: Lang -> string)
    requires AnchoredHeaders(h2, header)
    ensures PrintedAnchors(HogeBody(l, dat, h2)) == Consecutive(HogeTitles(l, dat, header), 0)
  {
    var first := |l.v1| + |l.v2|;
    var linzi, rest := LinziLines(l, 0), LangSections(dat, h2, first);
    LinziSectionAnchors(l);
    LangsAnchors(dat, h2, header, first);
    SectionsCons(linzi, rest);
    Markup.NodesFoundFirst(C("section", linzi), Sections(rest), [Heading("燐字", 0)] + Consecutive(Titles(l.v1) + Titles(l.v2), 1),
                           Consecutive(LangTitles(dat, header), first + 1));
    Markup.ArticleFound(Sections([linzi] + rest));
    HogeTitlesFound(l, dat, header);
  }

  // ---------------------------------------------------------------------------
  // The links the printed table of contents holds

  lemma {:induction false} LangTitlesSnoc(dat: seq<LangHoge>, n: nat, header: Lang -> string)
    requires 0 < n <= |dat|
    ensures LangTitles(dat[..n], header)
         == LangTitles(dat[..n - 1], header) + ([header(dat[n - 1].lang)] + Titles(dat[n - 1].contents))
  {
    assert dat[..n][..n - 1] == dat[..n - 1];
  }

  /** The flattened outline of `hoge`: every title, each language by name. */
  lemma {:induction false} HogeOutlineTitles(l: LinziPortion, dat: seq<LangHoge>, n: nat)
    requires n <= |dat|
    ensures TitlesUpTo(HogeOutline(l, dat), n + 1) == ["燐字"] + Titles(l.v1) + Titles(l.v2) + LangTitles(dat[..n], Ja)
    decreases n
  {
    var outline := HogeOutline(l, dat);
    if n == 0 {
      assert TitlesUpTo(outline, 1) == [] + ([outline[0].0] + outline[0].1);
    } else {
      var e := dat[n - 1];
      var front := ["燐字"] + Titles(l.v1) + Titles(l.v2);
      assert outline[n] == (Ja(e.lang), Titles(e.contents));
      HogeOutlineTitles(l, dat, n - 1);
      LangTitlesSnoc(dat, n, Ja);
      Associative(front, LangTitles(dat[..n - 1], Ja), [Ja(e.lang)] + Titles(e.contents));
    }
  }

  /** The printed table of contents links the titles `HogeTitles` lists, each
      language by name, to anchors 0, 1, 2, … in order. */
  lemma {:induction false} HogeLinks(l: LinziPortion, dat: seq<LangHoge>)
    ensures PrintedLinks(TocTree(HogeOutline(l, dat))) == Consecutive(HogeTitles(l, dat, Ja), 0)
  {
    HogeOutlineTitles(l, dat, |dat|);
    assert dat[..|dat|] == dat;
    TocAnchorsConsecutive(HogeOutline(l, dat));
  }

  // ---------------------------------------------------------------------------
  // Text without newlines

  predicate OneLineBar(b: Bar) {
    match b
    case DivText(s) => '\n' !in s
    case Ul(items) => forall i :: 0 <= i < |items| ==> '\n' !in items[i]
    case Ol(items) => forall i :: 0 <= i < |items| ==> '\n' !in items[i]
  }

  predicate OneLineItems(items: seq<(string, Bar)>) {
    forall i :: 0 <= i < |items| ==> '\n' !in items[i].0 && OneLineBar(items[i].1)
  }

  /** No text of the character's section holds a newline. */
  predicate OneLineLinzi(l: LinziPortion) {
    && (forall i :: 0 <= i < |l.init| ==> OneLineBar(l.init[i]))
    && OneLineItems(l.v1) && '\n' !in l.grauPruaYr && OneLineItems(l.v2)
  }

  /** No language name or text of the language sections holds a newline, nor
      does any line the language's header prints. */
  ghost predicate OneLineLangs(dat: seq<LangHoge>, h2: (Lang, nat) -> IndentedStr) {
    forall k :: 0 <= k < |dat| ==>
      && '\n' !in Ja(dat[k].lang) && OneLineItems(dat[k].contents)
      && forall n: nat :: n >= 1 ==> SingleLines(h2(dat[k].lang, n))
  }

  lemma {:induction false} HogeOutlineOneLine(l: LinziPortion, dat: seq<LangHoge>, h2: (Lang, nat) -> IndentedStr)
    requires OneLineLinzi(l) && OneLineLangs(dat, h2)
    ensures OneLineTitles(HogeOutline(l, dat))
  {
    var outline := HogeOutline(l, dat);
    var v1, v2 := Titles(l.v1), Titles(l.v2);
    forall k | 0 <= k < |outline|
      ensures '\n' !in outline[k].0 && forall i :: 0 <= i < |outline[k].1| ==> '\n' !in outline[k].1[i]
    {
      if k == 0 {
        assert outline[0] == ("燐字", v1 + v2);
        forall i | 0 <= i < |v1 + v2| ensures '\n' !in (v1 + v2)[i] {
          if i >= |v1| {
            assert (v1 + v2)[i] == v2[i - |v1|];
          }
        }
      } else {
        assert outline[k] == (Ja(dat[k - 1].lang), Titles(dat[k - 1].contents));
      }
    }
  }

  lemma {:induction false} BarFooSingle(b: Bar)
    requires OneLineBar(b)
    ensures SingleLines(BarFoo(b))
  {
    match b {
      case DivText(s) =>
        Markup.DivSingle(s);
      case Ul(v) =>
        ListSingle("ul", v);
      case Ol(v) =>
        ListSingle("ol", v);
    }
  }

  lemma {:induction false} ListSingle(tag: string, k: seq<string>)
    requires '\n' !in tag && forall i :: 0 <= i < |k| ==> '\n' !in k[i]
    ensures SingleLines(ListOf(tag, k))
  {
    var items := ListOf(tag, k).children;
    forall i | 0 <= i < |items| ensures SingleLines(items[i]) {
      assert items[i] == Markup.LiLine(k[i]);
      Markup.LiSingle(k[i]);
    }
    TagSingle(tag, ">", items);
  }

  lemma {:induction false} TitledSingle(items: seq<(string, Bar)>, last: nat)
    requires OneLineItems(items)
    ensures AllSingle(TitledLines(items, last))
    decreases |items|
  {
    if items != [] {
      var k := |items| - 1;
      TitledSingle(items[..k], last);
      H3IsWithToc(last + 1 + k, items[k].0);
      Markup.HeadingSingle("h3", last + 1 + k, items[k].0);
      BarFooSingle(items[k].1);
      AllSingleAppend(TitledLines(items[..k], last), [H3(last + 1 + k, items[k].0), BarFoo(items[k].1)]);
    }
  }

  lemma {:induction false} BrSingle()
    ensures AllSingle(Br())
  {
    Markup.DivSingle("<br>");
  }

  /** The character's section prints no newline of its own. */
  lemma {:induction false} LinziSingle(l: LinziPortion, last: nat)
    requires OneLineLinzi(l)
    ensures AllSingle(LinziLines(l, last))
  {
    FrontSingle(l.init);
    TitledSingle(l.v1, last);
    Markup.ImageSingle(l.grauPruaYr);
    TitledSingle(l.v2, last + |l.v1|);
    BrSingle();
    Markup.FiveSingle(LinziFront(l.init), TitledLines(l.v1, last), Markup.ImageBlock(l.grauPruaYr),
                      TitledLines(l.v2, last + |l.v1|), Br(), LinziLines(l, last));
  }

  lemma {:induction false} FrontSingle(init: seq<Bar>)
    requires forall i :: 0 <= i < |init| ==> OneLineBar(init[i])
    ensures AllSingle(LinziFront(init))
  {
    Markup.HrSingle();
    Markup.FrontMatterSingle();
    forall i | 0 <= i < |init| ensures SingleLines(InitLines(init)[i]) {
      BarFooSingle(init[i]);
    }
    AllSingleAppend([Ls(Markup.FrontMatter), Markup.Hr()], InitLines(init));
  }

  /** A language section prints no newline of its own. */
  lemma {:induction false} LangSingle(lang: Lang, v: seq<(string, Bar)>, h2: (Lang, nat) -> IndentedStr, last: nat)
    requires OneLineItems(v) && SingleLines(h2(lang, last + 1))
    ensures AllSingle(LangLines(lang, v, h2, last))
  {
    Markup.HrSingle();
    TitledSingle(v, last + 1);
    BrSingle();
    AllSingleAppend([h2(lang, last + 1), Markup.Hr()], TitledLines(v, last + 1));
    AllSingleAppend([h2(lang, last + 1), Markup.Hr()] + TitledLines(v, last + 1), Br());
  }

  lemma {:induction false} LangSectionsSingle(dat: seq<LangHoge>, h2: (Lang, nat) -> IndentedStr, first: nat)
    requires OneLineLangs(dat, h2)
    ensures forall j :: 0 <= j < |dat| ==> AllSingle(LangSections(dat, h2, first)[j])
    decreases |dat|
  {
    if dat != [] {
      var next := first + 1 + |dat[0].contents|;
      assert SingleLines(h2(dat[0].lang, first + 1));
      LangSingle(dat[0].lang, dat[0].contents, h2, first);
      OneLineLangsTail(dat, h2);
      LangSectionsSingle(dat[1..], h2, next);
      PartsConsSingle(LangLines(dat[0].lang, dat[0].contents, h2, first), LangSections(dat[1..], h2, next),
                      LangSections(dat, h2, first));
    }
  }

  lemma {:induction false} OneLineLangsTail(dat: seq<LangHoge>, h2: (Lang, nat) -> IndentedStr)
    requires dat != [] && OneLineLangs(dat, h2)
    ensures OneLineLangs(dat[1..], h2)
  {
    forall k | 0 <= k < |dat[1..]| ensures dat[1..][k] == dat[k + 1] {
    }
  }

  lemma {:induction false} PartsConsSingle(first: seq<IndentedStr>, rest: seq<seq<IndentedStr>>, all: seq<seq<IndentedStr>>)
    requires AllSingle(first) && forall j :: 0 <= j < |rest| ==> AllSingle(rest[j])
    requires all == [first] + rest
    ensures forall j :: 0 <= j < |all| ==> AllSingle(all[j])
  {
    forall j | 0 <= j < |all| ensures AllSingle(all[j]) {
      if j > 0 {
        assert all[j] == rest[j - 1];
      }
    }
  }

  /** Sections around parts none of which prints a newline print none. */
  lemma {:induction false} SectionsSingle(parts: seq<seq<IndentedStr>>)
    requires forall j :: 0 <= j < |parts| ==> AllSingle(parts[j])
    ensures AllSingle(Sections(parts))
  {
    forall j | 0 <= j < |parts| ensures SingleLines(Sections(parts)[j]) {
      TagSingle("section", ">", parts[j]);
    }
  }

  /** An article without newlines in its texts prints a body whose every
      line is one displayed line. */
  lemma {:induction false} HogeBodySingle(l: LinziPortion, dat: seq<LangHoge>, h2: (Lang, nat) -> IndentedStr)
    requires OneLineLinzi(l) && OneLineLangs(dat, h2)
    ensures SingleLines(HogeBody(l, dat, h2))
  {
    var linzi, first := LinziLines(l, 0), |l.v1| + |l.v2|;
    var langs := LangSections(dat, h2, first);
    var cont := C("article", Sections([linzi] + langs));
    LinziSingle(l, 0);
    LangSectionsSingle(dat, h2, first);
    PartsSingle(linzi, langs, cont);
    HogeAssembled(l, dat, h2, linzi, first, langs, cont);
  }

  lemma {:induction false} PartsSingle(linzi: seq<IndentedStr>, langs: seq<seq<IndentedStr>>, body: IndentedStr)
    requires AllSingle(linzi) && forall j :: 0 <= j < |langs| ==> AllSingle(langs[j])
    requires body == C("article", Sections([linzi] + langs))
    ensures SingleLines(body)
  {
    var parts := [linzi] + langs;
    PartsConsSingle(linzi, langs, parts);
    SectionsSingle(parts);
    TagSingle("article", ">", Sections(parts));
  }

  /** In this renderer, when each language header carries the language's
      name, the printed article's anchors and the printed table of contents'
      links are the same list: the same titles, in the same order, at the same
      numbers, for every input, empty titles included. */
  lemma {:induction false} AnchorsAgree(l: LinziPortion, dat: seq<LangHoge>, h2: (Lang, nat) -> IndentedStr)
    requires AnchoredHeaders(h2, Ja)
    ensures PrintedAnchors(HogeBody(l, dat, h2)) == PrintedLinks(TocTree(HogeOutline(l, dat)))
  {
    HogeAnchors(l, dat, h2, Ja);
    HogeLinks(l, dat);
  }

  /** The page `hoge` builds, read line by line: the article's anchors and the
      table of contents' links agree entry for entry, when nothing the page
      prints holds a newline of its own. The table of contents breaks every
      subsection's line in two (src/bar.rs:128-129); its reader glues the
      second half back first. */
  lemma {:induction false} PrintedHoge(l: LinziPortion, dat: seq<LangHoge>, h2: (Lang, nat) -> IndentedStr)
    requires AnchoredHeaders(h2, Ja) && OneLineLinzi(l) && OneLineLangs(dat, h2)
    ensures Found(SplitOn(ToString(HogeBody(l, dat, h2)), '\n'), AnchorIn)
         == DisplayedLinks(ToString(TocTree(HogeOutline(l, dat))))
  {
    AnchorsAgree(l, dat, h2);
    HogeBodySingle(l, dat, h2);
    DisplayedFound(HogeBody(l, dat, h2));
    HogeOutlineOneLine(l, dat, h2);
    TocDisplayed(HogeOutline(l, dat));
  }
}
