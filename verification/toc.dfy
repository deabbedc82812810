/** The table of contents (`generate_toc`): an outline of sections, each with
    its subsection titles, becomes a nested `ol` whose links point at anchors
    numbered by one running counter that never resets between sections. */
module Toc {
  import opened Text
  import opened Indented
  import opened Anchors

  /** Section titles, each with its subsection titles. */
  type Outline = seq<(string, seq<string>)>

  /** The titles of a run of titled blocks, in order. */
  function Titles<B>(items: seq<(string, B)>): (r: seq<string>)
    ensures |r| == |items| && forall i :: 0 <= i < |items| ==> r[i] == items[i].0
  {
    seq(|items|, i requires 0 <= i < |items| => items[i].0)
  }

  const TocClass: string := " class=\"goog-toc\">"

  /** What follows `<li` in the line of section `k` (1-based). */
  function SectionAttrs(anchor: nat, k: nat, title: string): string {
    LinkAttrs + AnchorLabel(anchor) + "\"><strong>" + Decimal(k)
    + " </strong>" + title + "</a>"
  }

  /** The line of subsection `i` (1-based) of section `k`. */
  function SubLine(anchor: nat, k: nat, i: nat, title: string): string {
    "<li" + LinkAttrs + Decimal(anchor) + "\"><strong>" + Decimal(k) + "."
    + Decimal(i) + "\n          </strong>" + title + "</a></li>"
  }

  /** The subsection lines of section `k`; the first links to `first`. */
  function SubItems(k: nat, subs: seq<string>, first: nat): (r: seq<IndentedStr>)
    ensures |r| == |subs|
    ensures forall i :: 0 <= i < |subs| ==> r[i] == Line(SubLine(first + i, k, i + 1, subs[i]))
  {
    seq(|subs|, i requires 0 <= i < |subs| => Line(SubLine(first + i, k, i + 1, subs[i])))
  }

  /** Section `k`'s item: a link to `anchor`, then exactly one nested list. */
  function SectionItem(k: nat, title: string, anchor: nat, subs: seq<string>): IndentedStr {
    Tag("li", SectionAttrs(anchor, k, title), [Tag("ol", TocClass, SubItems(k, subs, anchor + 1))])
  }

  /** S_k: the anchor of section `k` (0-based) is the number of titles before
      it, counting each earlier section and each of its subsections once. */
  function Offset(outline: Outline, k: nat): nat
    requires k <= |outline|
  {
    if k == 0 then 0 else Offset(outline, k - 1) + 1 + |outline[k - 1].1|
  }

  /** The item of section `k` (0-based), numbered `k + 1`. */
  function TocItem(outline: Outline, k: nat): IndentedStr
    requires k < |outline|
  {
    SectionItem(k + 1, outline[k].0, Offset(outline, k), outline[k].1)
  }

  function TocItems(outline: Outline): (r: seq<IndentedStr>)
    ensures |r| == |outline|
  {
    seq(|outline|, k requires 0 <= k < |outline| => TocItem(outline, k))
  }

  function TocTree(outline: Outline): IndentedStr {
    Tag("ol", TocClass, TocItems(outline))
  }

  /** `generate_toc`, with the counter `global_ind` it advances before the
      subsections of each section and after every subsection. */
  method GenerateToc(outline: Outline) returns (html: string)
    ensures html == ToString(TocTree(outline))
  {
    var globalInd := 0;
    var items: seq<IndentedStr> := [];
    for k := 0 to |outline|
      invariant globalInd == Offset(outline, k)
      invariant items == TocItems(outline)[..k]
    {
      var item;
      item, globalInd := SectionLines(k + 1, outline[k].0, outline[k].1, globalInd);
      TocItemsAppend(outline, k, items, item);
      items := items + [item];
    }
    assert items == TocItems(outline);
    html := ToString(Tag("ol", TocClass, items));
  }

  lemma {:induction false} TocItemsAppend(outline: Outline, k: nat, items: seq<IndentedStr>, item: IndentedStr)
    requires k < |outline|
    requires items == TocItems(outline)[..k]
    requires item == SectionItem(k + 1, outline[k].0, Offset(outline, k), outline[k].1)
    ensures items + [item] == TocItems(outline)[..k + 1]
  {
    assert TocItems(outline)[k] == TocItem(outline, k);
  }

  /** One pass of the closure in `generate_toc`: the item of section `k`,
      linked to the counter's current value; the counter then moves past the
      section and each of its subsections. */
  method SectionLines(k: nat, title: string, subs: seq<string>, globalInd: nat)
    returns (item: IndentedStr, globalInd': nat)
    ensures item == SectionItem(k, title, globalInd, subs)
    ensures globalInd' == globalInd + 1 + |subs|
  {
    var attrs := SectionAttrs(globalInd, k, title);
    var v: seq<IndentedStr> := [];
    globalInd' := globalInd + 1;
    var subsecNum := 1;
    for i := 0 to |subs|
      invariant globalInd' == globalInd + 1 + i
      invariant subsecNum == i + 1
      invariant v == SubItems(k, subs, globalInd + 1)[..i]
    {
      SubItemsAppend(k, subs, globalInd + 1, i, v, globalInd', subsecNum);
      v := v + [Line(SubLine(globalInd', k, subsecNum, subs[i]))];
      globalInd' := globalInd' + 1;
      subsecNum := subsecNum + 1;
    }
    assert SubItems(k, subs, globalInd + 1)[..|subs|] == SubItems(k, subs, globalInd + 1);
    item := Tag("li", attrs, [Tag("ol", TocClass, v)]);
  }

  lemma {:induction false} SubItemsAppend(k: nat, subs: seq<string>, first: nat, i: nat, v: seq<IndentedStr>, anchor: nat, num: nat)
    requires i < |subs|
    requires v == SubItems(k, subs, first)[..i]
    requires anchor == first + i && num == i + 1
    ensures v + [Line(SubLine(anchor, k, num, subs[i]))] == SubItems(k, subs, first)[..i + 1]
  {
  }

  /** How section `k`'s item prints: its link line, then exactly one nested
      `ol` (even without subsections) holding one line per subsection, four
      spaces deep, then the closing lines. */
  lemma {:induction false} SectionItemPrinted(k: nat, title: string, anchor: nat, subs: seq<string>)
    ensures var lines := Strs(SectionItem(k, title, anchor, subs));
      && |lines| == |subs| + 4
      && lines[0] == "<li" + SectionAttrs(anchor, k, title)
      && lines[1] == "  <ol" + TocClass
      && (forall i :: 0 <= i < |subs| ==> lines[i + 2] == "    " + SubLine(anchor + 1 + i, k, i + 1, subs[i]))
      && lines[|subs| + 2] == "  </ol>" && lines[|subs| + 3] == "</li>"
  {
    NestedListPrinted(SectionAttrs(anchor, k, title), SubItems(k, subs, anchor + 1));
  }

  /** An `li` around one `ol` around literal lines, as printed. */
  lemma {:induction false} NestedListPrinted(attrs: string, items: seq<IndentedStr>)
    requires forall i :: 0 <= i < |items| ==> items[i].Line?
    ensures var lines := Strs(Tag("li", attrs, [Tag("ol", TocClass, items)]));
      && |lines| == |items| + 4
      && lines[0] == "<li" + attrs && lines[1] == "  <ol" + TocClass
      && (forall i :: 0 <= i < |items| ==> lines[i + 2] == "    " + items[i].text)
      && lines[|items| + 2] == "  </ol>" && lines[|items| + 3] == "</li>"
  {
    var ol := Tag("ol", TocClass, items);
    var inner, r := Strs(ol), Strs(Tag("li", attrs, [ol]));
    assert inner == ["<" + "ol" + TocClass] + Prefixed("  ", ChildStrs(items)) + ["</" + "ol" + ">"];
    SingleChild(ol);
    assert r == ["<" + "li" + attrs] + Prefixed("  ", ChildStrs([ol])) + ["</" + "li" + ">"];
    NestedLines(attrs, items, inner, r);
  }

  lemma {:induction false} NestedLines(attrs: string, items: seq<IndentedStr>, inner: seq<string>, r: seq<string>)
    requires forall i :: 0 <= i < |items| ==> items[i].Line?
    requires inner == ["<" + "ol" + TocClass] + Prefixed("  ", ChildStrs(items)) + ["</" + "ol" + ">"]
    requires r == ["<" + "li" + attrs] + Prefixed("  ", inner) + ["</" + "li" + ">"]
    ensures |r| == |items| + 4
    ensures r[0] == "<li" + attrs && r[1] == "  <ol" + TocClass
    ensures forall i :: 0 <= i < |items| ==> r[i + 2] == "    " + items[i].text
    ensures r[|items| + 2] == "  </ol>" && r[|items| + 3] == "</li>"
  {
    var body := ChildStrs(items);
    ChildStrsOfLines(items);
    NestedText(attrs, body, inner, r);
    forall i | 0 <= i < |items|
      ensures r[i + 2] == "    " + items[i].text
    {
      assert body[i] == items[i].text;
    }
  }

  lemma {:induction false} NestedText(attrs: string, body: seq<string>, inner: seq<string>, r: seq<string>)
    requires inner == ["<" + "ol" + TocClass] + Prefixed("  ", body) + ["</" + "ol" + ">"]
    requires r == ["<" + "li" + attrs] + Prefixed("  ", inner) + ["</" + "li" + ">"]
    ensures |r| == |body| + 4
    ensures r[0] == "<li" + attrs && r[1] == "  <ol" + TocClass
    ensures forall i :: 0 <= i < |body| ==> r[i + 2] == "    " + body[i]
    ensures r[|body| + 2] == "  </ol>" && r[|body| + 3] == "</li>"
  {
    assert "<" + "li" == "<li" && "<" + "ol" == "<ol";
    assert "</" + "ol" + ">" == "</ol>" && "</" + "li" + ">" == "</li>";
    assert r[1] == "  " + ("<ol" + TocClass);
    Associative("  ", "<ol", TocClass);
    assert "  " + "<ol" == "  <ol" && "  " + "</ol>" == "  </ol>";
    forall i | 0 <= i < |body|
      ensures r[i + 2] == "    " + body[i]
    {
      assert r[i + 2] == "  " + inner[i + 1];
      assert inner[i + 1] == "  " + body[i];
      Associative("  ", "  ", body[i]);
    }
  }

  // ---------------------------------------------------------------------------
  // The numbering the table of contents implies

  /** `titles` tied to consecutive anchors from `start`. */
  function Consecutive(titles: seq<string>, start: nat): (r: seq<Heading>)
    ensures |r| == |titles|
    ensures forall i :: 0 <= i < |titles| ==> r[i] == Heading(titles[i], start + i)
  {
    seq(|titles|, i requires 0 <= i < |titles| => Heading(titles[i], start + i))
  }

  lemma {:induction false} ConsecutiveAppend(a: seq<string>, b: seq<string>, start: nat)
    ensures Consecutive(a, start) + Consecutive(b, start + |a|) == Consecutive(a + b, start)
  {
  }

  lemma {:induction false} ConsecutiveJoin(a: seq<string>, b: seq<string>, start: nat, next: nat)
    requires next == start + |a|
    ensures Consecutive(a, start) + Consecutive(b, next) == Consecutive(a + b, start)
  {
    ConsecutiveAppend(a, b, start);
  }

  lemma {:induction false} ConsecutiveSingle(t: string, n: nat)
    ensures Consecutive([t], n) == [Heading(t, n)]
  {
  }

  /** Every title of the first `n` sections, each section's before its
      subsections'. */
  function TitlesUpTo(outline: Outline, n: nat): seq<string>
    requires n <= |outline|
  {
    if n == 0 then [] else TitlesUpTo(outline, n - 1) + ([outline[n - 1].0] + outline[n - 1].1)
  }

  function FlatTitles(outline: Outline): seq<string> {
    TitlesUpTo(outline, |outline|)
  }

  // ---------------------------------------------------------------------------
  // The links the printed table of contents holds

  lemma {:induction false} Regroup7(a: string, b: string, c: string, d: string, e: string, f: string, g: string)
    ensures a + b + c + d + e + f + g == a + (b + (c + (d + (e + (f + g)))))
  {
  }

  lemma {:induction false} Regroup9(a: string, b: string, c: string, d: string, e: string, f: string, g: string,
                                    h: string, i: string)
    ensures a + b + c + d + e + f + g + h + i == a + (b + (c + ((d + e + f) + (g + (h + i)))))
  {
  }

  /** A section's line links to its anchor under its title. */
  lemma {:induction false} SectionLineRead(k: nat, title: string, anchor: nat)
    ensures LinkIn("<" + "li" + SectionAttrs(anchor, k, title)) == Some(Heading(title, anchor))
  {
    var mark, num := AnchorLabel(anchor), Decimal(k);
    SectionLineText(k, title, anchor);
    assert '"' !in mark by {
      if anchor > 0 {
        NoDigitIn(mark, '"');
      }
    }
    NoDigitIn(num, '<');
    LabelRoundTrip(anchor);
    LinkInOf(mark, num + " ", title, "</a>", anchor);
  }

  lemma {:induction false} SectionLineText(k: nat, title: string, anchor: nat)
    ensures "<" + "li" + SectionAttrs(anchor, k, title)
         == LinkOpen + (AnchorLabel(anchor) + (LinkMid + ((Decimal(k) + " ") + (StrongClose + (title + "</a>")))))
  {
    var mark, num := AnchorLabel(anchor), Decimal(k);
    var tail := StrongClose + (title + "</a>");
    Regroup7(LinkAttrs, mark, "\"><strong>", num, " </strong>", title, "</a>");
    assert " </strong>" == " " + StrongClose;
    Associative(" ", StrongClose, title + "</a>");
    Associative(num, " ", tail);
    Associative("<" + "li", LinkAttrs, mark + (LinkMid + ((num + " ") + tail)));
    assert "<" + "li" == "<li";
  }

  /** A subsection's line links to its anchor under its title. */
  lemma {:induction false} SubLineRead(anchor: nat, k: nat, i: nat, title: string)
    requires anchor >= 1
    ensures Unindented(SubLine(anchor, k, i, title)) == SubLine(anchor, k, i, title)
    ensures LinkIn(SubLine(anchor, k, i, title)) == Some(Heading(title, anchor))
  {
    var mark, num := Decimal(anchor), Decimal(k) + "." + Decimal(i) + "\n          ";
    SubLineText(anchor, k, i, title);
    NoDigitIn(mark, '"');
    NoDigitIn(Decimal(k), '<');
    NoDigitIn(Decimal(i), '<');
    LabelRoundTrip(anchor);
    LinkInOf(mark, num, title, "</a></li>", anchor);
    UnindentedTag(SubLine(anchor, k, i, title));
  }

  lemma {:induction false} SubLineText(anchor: nat, k: nat, i: nat, title: string)
    ensures SubLine(anchor, k, i, title)
         == LinkOpen + (Decimal(anchor) + (LinkMid + ((Decimal(k) + "." + Decimal(i) + "\n          ")
            + (StrongClose + (title + "</a></li>")))))
  {
    Regroup9("<li" + LinkAttrs, Decimal(anchor), LinkMid, Decimal(k), ".", Decimal(i), "\n          </strong>", title, "</a></li>");
    assert "\n          </strong>" == "\n          " + StrongClose;
    Associative("\n          ", StrongClose, title + "</a></li>");
    Associative(Decimal(k) + "." + Decimal(i), "\n          ", StrongClose + (title + "</a></li>"));
  }

  /** The subsection lines link to consecutive anchors from `first`. */
  lemma {:induction false} SubLinks(k: nat, subs: seq<string>, first: nat)
    requires first >= 1
    ensures NodesFound(SubItems(k, subs, first), LinkIn) == Consecutive(subs, first)
    decreases |subs|
  {
    if subs != [] {
      var n := |subs| - 1;
      var anchor, title := first + n, subs[n];
      SubItemsSnoc(k, subs, first, anchor, title);
      ConsecutiveSnoc(subs, first, anchor, title);
      SubLinks(k, subs[..n], first);
      SubLineRead(anchor, k, |subs|, title);
      NodesFoundSnoc(SubItems(k, subs[..n], first), SubLine(anchor, k, |subs|, title), LinkIn,
                     Consecutive(subs[..n], first), Heading(title, anchor));
    }
  }

  lemma {:induction false} SubItemsSnoc(k: nat, subs: seq<string>, first: nat, anchor: nat, title: string)
    requires subs != [] && anchor == first + |subs| - 1 && title == subs[|subs| - 1]
    ensures SubItems(k, subs, first) == SubItems(k, subs[..|subs| - 1], first) + [Line(SubLine(anchor, k, |subs|, title))]
  {
  }

  lemma {:induction false} ConsecutiveSnoc(titles: seq<string>, start: nat, anchor: nat, title: string)
    requires titles != [] && anchor == start + |titles| - 1 && title == titles[|titles| - 1]
    ensures Consecutive(titles, start) == Consecutive(titles[..|titles| - 1], start) + [Heading(title, anchor)]
  {
  }

  /** Two runs numbered one after the other, behind the same headings, are
      one run. */
  lemma {:induction false} ConsecutiveAfter(h: seq<Heading>, t1: seq<string>, t2: seq<string>, s1: nat, s2: nat)
    requires s2 == s1 + |t1|
    ensures h + Consecutive(t1, s1) + Consecutive(t2, s2) == h + Consecutive(t1 + t2, s1)
  {
    ConsecutiveJoin(t1, t2, s1, s2);
    Associative(h, Consecutive(t1, s1), Consecutive(t2, s2));
  }

  /** The headings of a run of titled items numbered after `last`, built item
      by item the way the renderers number them: item `k` at `last + 1 + k`. */
  function RunHeadings<B>(items: seq<(string, B)>, last: nat): seq<Heading>
    decreases |items|
  {
    if items == [] then []
    else
      var k := |items| - 1;
      RunHeadings(items[..k], last) + [Heading(items[k].0, last + 1 + k)]
  }

  /** Numbering item by item gives the run's titles consecutive anchors. */
  lemma {:induction false} RunHeadingsConsecutive<B>(items: seq<(string, B)>, last: nat)
    ensures RunHeadings(items, last) == Consecutive(Titles(items), last + 1)
    decreases |items|
  {
    if items != [] {
      var k := |items| - 1;
      assert Titles(items) == Titles(items[..k]) + [items[k].0];
      RunHeadingsConsecutive(items[..k], last);
      ConsecutiveAppend(Titles(items[..k]), [items[k].0], last + 1);
    }
  }

  /** The lines around the sections and subsections hold no link. */
  lemma {:induction false} ListLinesNoLink()
    ensures LinkIn("<" + "ol" + TocClass).None? && LinkIn("</" + "ol" + ">").None? && LinkIn("</" + "li" + ">").None?
  {
    NoLink("<" + "ol" + TocClass);
    NoLink("</" + "ol" + ">");
    NoLink("</" + "li" + ">");
  }

  /** Section `k`'s item links to `anchor` under its title, then to its
      subsections at the anchors after it. */
  lemma {:induction false} SectionLinks(k: nat, title: string, anchor: nat, subs: seq<string>)
    ensures PrintedLinks(SectionItem(k, title, anchor, subs)) == [Heading(title, anchor)] + Consecutive(subs, anchor + 1)
  {
    var first := anchor + 1;
    var items := SubItems(k, subs, first);
    var ol := Tag("ol", TocClass, items);
    var attrs := SectionAttrs(anchor, k, title);
    SubLinks(k, subs, first);
    ListLinesNoLink();
    FoundWrapped("ol", TocClass, items, LinkIn);
    NodesFoundOne(ol, LinkIn);
    SectionLineRead(k, title, anchor);
    FoundHeaded("li", attrs, [ol], LinkIn, Heading(title, anchor));
  }

  /** The titles of the first `n` sections number exactly the anchors they
      take. */
  lemma {:induction false} TitlesUpToLength(outline: Outline, n: nat)
    requires n <= |outline|
    ensures |TitlesUpTo(outline, n)| == Offset(outline, n)
  {
    if n > 0 {
      TitlesUpToLength(outline, n - 1);
    }
  }

  /** A section's heading and subsections, behind the earlier titles, continue
      their numbering. */
  lemma {:induction false} SectionAppended(prev: seq<string>, title: string, subs: seq<string>, anchor: nat)
    requires |prev| == anchor
    ensures Consecutive(prev, 0) + ([Heading(title, anchor)] + Consecutive(subs, anchor + 1))
         == Consecutive(prev + ([title] + subs), 0)
  {
    ConsecutiveSingle(title, anchor);
    ConsecutiveAppend([title], subs, anchor);
    ConsecutiveAppend(prev, [title] + subs, 0);
  }

  /** The first `n` sections' items link to consecutive anchors from 0 under
      their titles, each section before its subsections. */
  lemma {:induction false} ItemsLinks(outline: Outline, n: nat)
    requires n <= |outline|
    ensures NodesFound(TocItems(outline)[..n], LinkIn) == Consecutive(TitlesUpTo(outline, n), 0)
  {
    if n > 0 {
      var items := TocItems(outline);
      var prev := TitlesUpTo(outline, n - 1);
      var title, subs := outline[n - 1].0, outline[n - 1].1;
      var anchor := Offset(outline, n - 1);
      var item := SectionItem(n, title, anchor, subs);
      TitlesUpToLength(outline, n - 1);
      TocItemsSnoc(outline, n, item);
      ItemsLinks(outline, n - 1);
      SectionLinks(n, title, anchor, subs);
      ItemsLinksStep(items[..n], items[..n - 1], item, prev, title, subs, anchor, TitlesUpTo(outline, n));
    }
  }

  /** One more section's item behind the items before it. */
  lemma {:induction false} ItemsLinksStep(itemsN: seq<IndentedStr>, itemsPrev: seq<IndentedStr>, item: IndentedStr,
                                          prev: seq<string>, title: string, subs: seq<string>, anchor: nat, all: seq<string>)
    requires itemsN == itemsPrev + [item] && all == prev + ([title] + subs) && |prev| == anchor
    requires NodesFound(itemsPrev, LinkIn) == Consecutive(prev, 0)
    requires PrintedLinks(item) == [Heading(title, anchor)] + Consecutive(subs, anchor + 1)
    ensures NodesFound(itemsN, LinkIn) == Consecutive(all, 0)
  {
    NodesFoundSnocNode(itemsPrev, item, LinkIn, Consecutive(prev, 0), [Heading(title, anchor)] + Consecutive(subs, anchor + 1));
    SectionAppended(prev, title, subs, anchor);
  }

  lemma {:induction false} TocItemsSnoc(outline: Outline, n: nat, item: IndentedStr)
    requires 0 < n <= |outline|
    requires item == SectionItem(n, outline[n - 1].0, Offset(outline, n - 1), outline[n - 1].1)
    ensures TocItems(outline)[..n] == TocItems(outline)[..n - 1] + [item]
  {
    assert TocItems(outline)[n - 1] == TocItem(outline, n - 1);
  }

  /** The links go to 0, 1, 2, ... in document order: numbers strictly
      increase, never reset between sections, and the first subsection of the
      first section gets 1. */
  lemma {:induction false} TocAnchorsConsecutive(outline: Outline)
    ensures PrintedLinks(TocTree(outline)) == Consecutive(FlatTitles(outline), 0)
    ensures |PrintedLinks(TocTree(outline))| == Offset(outline, |outline|)
  {
    var items := TocItems(outline);
    ListLinesNoLink();
    FoundWrapped("ol", TocClass, items, LinkIn);
    ItemsLinks(outline, |outline|);
    TitlesUpToLength(outline, |outline|);
    assert items[..|outline|] == items;
  }

  /** Only the first section's link is printed empty. */
  lemma {:induction false} OffsetPositive(outline: Outline, k: nat)
    requires k <= |outline|
    ensures Offset(outline, k) == 0 <==> k == 0
    ensures Offset(outline, k) >= k
  {
    if k > 0 {
      OffsetPositive(outline, k - 1);
    }
  }

  /** Two sections of two subsections each: the printed links go to anchors
      "", 1, 2, 3, 4, 5 and the items are numbered 1, 1.1, 1.2, 2, 2.1, 2.2. */
  lemma TocExample()
    ensures var outline := [("燐字", ["字源", "意義"]), ("アイル語", ["発音", "動詞"])];
      && PrintedLinks(TocTree(outline))
         == [Heading("燐字", 0), Heading("字源", 1), Heading("意義", 2),
             Heading("アイル語", 3), Heading("発音", 4), Heading("動詞", 5)]
      && TocItems(outline)
         == [SectionItem(1, "燐字", 0, ["字源", "意義"]), SectionItem(2, "アイル語", 3, ["発音", "動詞"])]
      && SubItems(2, ["発音", "動詞"], 4)
         == [Line(SubLine(4, 2, 1, "発音")), Line(SubLine(5, 2, 2, "動詞"))]
  {
    TocExampleLinks();
    TocExampleItems();
  }

  lemma TocExampleLinks()
    ensures PrintedLinks(TocTree([("燐字", ["字源", "意義"]), ("アイル語", ["発音", "動詞"])]))
         == [Heading("燐字", 0), Heading("字源", 1), Heading("意義", 2),
             Heading("アイル語", 3), Heading("発音", 4), Heading("動詞", 5)]
  {
    var outline := [("燐字", ["字源", "意義"]), ("アイル語", ["発音", "動詞"])];
    assert TitlesUpTo(outline, 1) == ["燐字", "字源", "意義"];
    assert FlatTitles(outline) == ["燐字", "字源", "意義", "アイル語", "発音", "動詞"];
    TocAnchorsConsecutive(outline);
  }

  lemma TocExampleItems()
    ensures var outline := [("燐字", ["字源", "意義"]), ("アイル語", ["発音", "動詞"])];
      && TocItems(outline)
         == [SectionItem(1, "燐字", 0, ["字源", "意義"]), SectionItem(2, "アイル語", 3, ["発音", "動詞"])]
      && SubItems(2, ["発音", "動詞"], 4)
         == [Line(SubLine(4, 2, 1, "発音")), Line(SubLine(5, 2, 2, "動詞"))]
  {
    var outline := [("燐字", ["字源", "意義"]), ("アイル語", ["発音", "動詞"])];
    assert Offset(outline, 1) == 3;
    assert Offset(outline, 2) == 6;
  }

  // ---------------------------------------------------------------------------
  // The displayed table of contents

  /** No title of the outline holds a newline. */
  predicate OneLineTitles(outline: Outline) {
    forall k :: 0 <= k < |outline| ==>
      && '\n' !in outline[k].0
      && forall i :: 0 <= i < |outline[k].1| ==> '\n' !in outline[k].1[i]
  }

  /** What the displayed table of contents links: its text split at
      newlines, each continuation glued back onto its line, each line read. */
  function DisplayedLinks(toc: string): seq<Heading> {
    Found(Rejoined(SplitOn(toc, '\n')), LinkIn)
  }

  /** A subsection's line displays as two lines: the link up to the
      subsection's number, then ten spaces, `</strong>`, the title and
      `</a></li>`. */
  lemma {:induction false} SubLineDisplayed(anchor: nat, k: nat, i: nat, title: string)
    requires '\n' !in title
    ensures SplitOn(SubLine(anchor, k, i, title), '\n')
         == [SubHead(anchor, k, i), "          </strong>" + title + "</a></li>"]
    ensures Whole(SubLine(anchor, k, i, title))
  {
    var head, tail := SubHead(anchor, k, i), "          </strong>" + title + "</a></li>";
    SubLineBroken(anchor, k, i, title);
    SubHeadPlain(anchor, k, i);
    SubTailContinues(title);
    BrokenWhole(head, tail);
  }

  /** The second displayed line of a subsection continues the first. */
  lemma {:induction false} SubTailContinues(title: string)
    requires '\n' !in title
    ensures '\n' !in "          </strong>" + title + "</a></li>"
    ensures Continues("          </strong>" + title + "</a></li>")
  {
    var pad, close := "          </strong>", "</a></li>";
    assert '\n' !in pad && '\n' !in close;
    StrongContinues(title + close);
    assert pad + title + close == "          " + (StrongClose + (title + close));
  }

  /** The first displayed line of a subsection: the link up to its number. */
  function SubHead(anchor: nat, k: nat, i: nat): string {
    "<li" + LinkAttrs + Decimal(anchor) + "\"><strong>" + Decimal(k) + "." + Decimal(i)
  }

  lemma {:induction false} SubLineBroken(anchor: nat, k: nat, i: nat, title: string)
    ensures SubLine(anchor, k, i, title) == SubHead(anchor, k, i) + "\n" + ("          </strong>" + title + "</a></li>")
  {
    var h := SubHead(anchor, k, i);
    assert "\n          </strong>" == "\n" + "          </strong>";
    Associative(h, "\n", "          </strong>");
    Associative(h + "\n", "          </strong>", title);
    Associative(h + "\n", "          </strong>" + title, "</a></li>");
  }

  lemma {:induction false} SubHeadPlain(anchor: nat, k: nat, i: nat)
    ensures '\n' !in SubHead(anchor, k, i) && !Continues(SubHead(anchor, k, i))
  {
    var h := SubHead(anchor, k, i);
    NoDigitIn(Decimal(anchor), '\n');
    NoDigitIn(Decimal(k), '\n');
    NoDigitIn(Decimal(i), '\n');
    SubHeadOpens(anchor, k, i);
    OpeningContinuesNothing(h);
  }

  lemma {:induction false} SubHeadOpens(anchor: nat, k: nat, i: nat)
    ensures |SubHead(anchor, k, i)| >= 2 && SubHead(anchor, k, i)[0] == '<' && SubHead(anchor, k, i)[1] == 'l'
  {
    var h := SubHead(anchor, k, i);
    var rest := LinkAttrs + Decimal(anchor) + "\"><strong>" + Decimal(k) + "." + Decimal(i);
    assert h == "<li" + rest;
  }

  /** The lines around the items continue nothing and hold no newline. */
  lemma {:induction false} ListLinesWhole(attrs: string)
    requires '\n' !in attrs
    ensures Whole("<" + "ol" + TocClass) && Whole("</" + "ol" + ">") && Whole("</" + "li" + ">")
    ensures Whole("<" + "li" + attrs)
  {
    var open := "<" + "li" + attrs;
    assert open[0] == '<' && open[1] == 'l';
    OpeningContinuesNothing(open);
    PlainWhole(open);
    OpeningContinuesNothing("<" + "ol" + TocClass);
    PlainWhole("<" + "ol" + TocClass);
    UnindentedTag("</" + "ol" + ">");
    UnindentedTag("</" + "li" + ">");
    PlainWhole("</" + "ol" + ">");
    PlainWhole("</" + "li" + ">");
  }

  /** Every line of a section's item is whole when its titles hold no
      newline. */
  lemma {:induction false} SectionItemWhole(k: nat, title: string, anchor: nat, subs: seq<string>)
    requires '\n' !in title && forall i :: 0 <= i < |subs| ==> '\n' !in subs[i]
    ensures AllWhole(Strs(SectionItem(k, title, anchor, subs)))
  {
    var items := SubItems(k, subs, anchor + 1);
    var attrs := SectionAttrs(anchor, k, title);
    SectionAttrsPlain(anchor, k, title);
    ListLinesWhole(attrs);
    SubItemsWhole(k, subs, anchor + 1);
    TagWhole("ol", TocClass, items);
    TagWhole("li", attrs, [Tag("ol", TocClass, items)]);
  }

  lemma {:induction false} SectionAttrsPlain(anchor: nat, k: nat, title: string)
    requires '\n' !in title
    ensures '\n' !in SectionAttrs(anchor, k, title)
  {
    NoDigitIn(Decimal(k), '\n');
    if anchor > 0 {
      NoDigitIn(Decimal(anchor), '\n');
    }
  }

  lemma {:induction false} SubItemsWhole(k: nat, subs: seq<string>, first: nat)
    requires forall i :: 0 <= i < |subs| ==> '\n' !in subs[i]
    ensures forall j :: 0 <= j < |subs| ==> AllWhole(Strs(SubItems(k, subs, first)[j]))
  {
    forall j | 0 <= j < |subs| ensures AllWhole(Strs(SubItems(k, subs, first)[j])) {
      SubLineDisplayed(first + j, k, j + 1, subs[j]);
    }
  }

  /** Every line of the table of contents is whole when no title holds a
      newline. */
  lemma {:induction false} TocWhole(outline: Outline)
    requires OneLineTitles(outline)
    ensures AllWhole(Strs(TocTree(outline)))
  {
    var items := TocItems(outline);
    forall j | 0 <= j < |items| ensures AllWhole(Strs(items[j])) {
      assert items[j] == TocItem(outline, j);
      SectionItemWhole(j + 1, outline[j].0, Offset(outline, j), outline[j].1);
    }
    ListLinesWhole("");
    TagWhole("ol", TocClass, items);
  }

  /** The displayed table of contents, split at newlines and each subsection's
      continuation glued back, is exactly the printed lines, and links every
      title in document order to 0, 1, 2, … */
  lemma {:induction false} TocDisplayed(outline: Outline)
    requires OneLineTitles(outline)
    ensures Rejoined(SplitOn(ToString(TocTree(outline)), '\n')) == Strs(TocTree(outline))
    ensures DisplayedLinks(ToString(TocTree(outline))) == Consecutive(FlatTitles(outline), 0)
  {
    TocWhole(outline);
    DisplayedRejoined(TocTree(outline));
    TocAnchorsConsecutive(outline);
  }
}
