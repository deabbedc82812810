/** Reading a printed page back: the anchors its headings carry
    (`<h2><a name="TOC--label"></a>title</h2>`, and `h3` alike) and the links
    its table of contents holds (`<li class="goog-toc"><a href="#TOC--label">`).
    An anchor is named by its label, which is empty for anchor 0 and the
    decimal digits of the number otherwise; a link reaches an anchor exactly
    when their labels are equal. */
module Anchors {
  import opened Text
  import opened Indented

  datatype Option<T> = None | Some(value: T)

  /** A title and the number of the anchor it is tied to. */
  datatype Heading = Heading(title: string, anchor: nat)

  /** How anchor `n` is named after `TOC--`. */
  function AnchorLabel(n: nat): string {
    if n == 0 then "" else Decimal(n)
  }

  /** The anchor a label names: the empty label is 0, a decimal numeral
      without a leading zero is its value, anything else names no number. */
  function LabelValue(mark: string): Option<nat> {
    if mark == "" then Some(0)
    else if AllDigits(mark) && mark[0] != '0' then Some(ParseDecimal(mark))
    else None
  }

  lemma {:induction false} DecimalLeading(n: nat)
    requires n >= 1
    ensures Decimal(n)[0] != '0'
  {
  }

  /** Every anchor number is read back from its label. */
  lemma {:induction false} LabelRoundTrip(n: nat)
    ensures LabelValue(AnchorLabel(n)) == Some(n)
  {
    if n > 0 {
      DecimalLeading(n);
      DecimalRoundTrip(n);
    }
  }

  /** A label that names a number is that number's label: equal numbers mean
      equal anchor names. */
  lemma {:induction false} LabelUnique(mark: string, n: nat)
    requires LabelValue(mark) == Some(n)
    ensures mark == AnchorLabel(n)
  {
    if mark != "" {
      CanonicalDecimal(mark);
    }
  }

  lemma {:induction false} CanonicalDecimal(s: string)
    requires s != [] && AllDigits(s) && s[0] != '0'
    ensures ParseDecimal(s) >= 1 && Decimal(ParseDecimal(s)) == s
    decreases |s|
  {
    var k := |s| - 1;
    var d := DigitValue(s[k]);
    assert DigitChar(d) == s[k];
    if k > 0 {
      var init := s[..k];
      assert init[0] == s[0];
      CanonicalDecimal(init);
      var n := ParseDecimal(s);
      assert n == ParseDecimal(init) * 10 + d;
      assert n / 10 == ParseDecimal(init) && n % 10 == d;
      assert init + [s[k]] == s;
    }
  }

  lemma {:induction false} NoDigitIn(s: string, c: char)
    requires AllDigits(s) && !IsDigit(c)
    ensures c !in s
  {
  }

  /** A line that starts with `<` has no indentation to drop. */
  lemma {:induction false} UnindentedTag(s: string)
    requires s != [] && s[0] == '<'
    ensures Unindented(s) == s
  {
  }

  /** The position of the first `c` in `s`, or `|s|` when there is none. */
  function IndexOf(s: string, c: char): (i: nat)
    ensures i <= |s| && c !in s[..i] && (i < |s| ==> s[i] == c)
    decreases |s|
  {
    if s == [] || s[0] == c then 0
    else
      var i := 1 + IndexOf(s[1..], c);
      assert s[..i] == [s[0]] + s[1..][..i - 1];
      i
  }

  lemma {:induction false} IndexOfAfter(a: string, c: char, b: string)
    requires c !in a && b != [] && b[0] == c
    ensures IndexOf(a + b, c) == |a|
  {
    var s := a + b;
    assert s[..|a|] == a && s[|a|] == c;
  }

  /** `s` without its leading spaces (its indentation on the page). */
  function Unindented(s: string): (r: string)
    ensures |r| <= |s|
    decreases |s|
  {
    if s != [] && s[0] == ' ' then Unindented(s[1..]) else s
  }

  lemma {:induction false} UnindentedPad(s: string)
    ensures Unindented("  " + s) == Unindented(s)
  {
    assert ("  " + s)[1..] == " " + s;
    assert (" " + s)[1..] == s;
  }

  function AfterPrefix(p: string, s: string): Option<string> {
    if |p| <= |s| && s[..|p|] == p then Some(s[|p|..]) else None
  }

  function BeforeSuffix(s: string, q: string): Option<string> {
    if |q| <= |s| && s[|s| - |q|..] == q then Some(s[..|s| - |q|]) else None
  }

  lemma {:induction false} AfterPrefixOf(p: string, x: string)
    ensures AfterPrefix(p, p + x) == Some(x)
  {
    assert (p + x)[..|p|] == p && (p + x)[|p|..] == x;
  }

  lemma {:induction false} BeforeSuffixOf(x: string, q: string)
    ensures BeforeSuffix(x + q, q) == Some(x)
  {
    assert (x + q)[|x|..] == q && (x + q)[..|x|] == x;
  }

  // ---------------------------------------------------------------------------
  // Anchored headings

  const NameOpen: string := "<a name=\"TOC--"
  const NameClose: string := "\"></a>"

  /** The anchored heading a line (without indentation) carries, if any: an
      `h2` or `h3` whose text opens with an anchor whose label names a number;
      the title is what stands between the anchor and the closing tag. */
  function AnchorIn(s: string): Option<Heading> {
    if |s| >= 4 && s[0] == '<' && s[1] == 'h' && (s[2] == '2' || s[2] == '3') && s[3] == '>'
    then TitleAfterAnchor(s[4..], "</h" + [s[2]] + ">")
    else None
  }

  function TitleAfterAnchor(s: string, close: string): Option<Heading> {
    match AfterPrefix(NameOpen, s)
    case None => None
    case Some(rest) =>
      var i := IndexOf(rest, '"');
      match LabelValue(rest[..i])
      case None => None
      case Some(n) =>
        match AfterPrefix(NameClose, rest[i..])
        case None => None
        case Some(titled) =>
          match BeforeSuffix(titled, close)
          case None => None
          case Some(t) => Some(Heading(t, n))
  }

  lemma {:induction false} TitleAfterAnchorOf(mark: string, t: string, close: string, n: nat)
    requires '"' !in mark && LabelValue(mark) == Some(n)
    ensures TitleAfterAnchor(NameOpen + (mark + (NameClose + (t + close))), close) == Some(Heading(t, n))
  {
    var rest := mark + (NameClose + (t + close));
    AfterPrefixOf(NameOpen, rest);
    IndexOfAfter(mark, '"', NameClose + (t + close));
    assert rest[..|mark|] == mark && rest[|mark|..] == NameClose + (t + close);
    AfterPrefixOf(NameClose, t + close);
    BeforeSuffixOf(t, close);
  }

  /** The line `with_toc` prints for an `h2` or `h3` is read back as its title
      tied to its number. */
  lemma {:induction false} WithTocRead(name: string, n: nat, t: string)
    requires name == "h2" || name == "h3"
    requires n >= 1
    ensures AnchorIn(WithToc(name, n, t).text) == Some(Heading(t, n))
  {
    var close := "</" + name + ">";
    var body := NameOpen + (Decimal(n) + (NameClose + (t + close)));
    WithTocText(name, n, t);
    assert '"' !in Decimal(n) by {
      assert AllDigits(Decimal(n));
    }
    LabelRoundTrip(n);
    TitleAfterAnchorOf(Decimal(n), t, close, n);
    HeadingOpened(name, body);
  }

  lemma {:induction false} HeadingOpened(name: string, body: string)
    requires name == "h2" || name == "h3"
    ensures AnchorIn(("<" + name + ">") + body) == TitleAfterAnchor(body, "</" + name + ">")
  {
    var s := ("<" + name + ">") + body;
    assert s[..4] == "<" + name + ">" && s[4..] == body;
    assert "</" + name + ">" == "</h" + [s[2]] + ">";
  }

  lemma {:induction false} WithTocText(name: string, n: nat, t: string)
    requires name == "h2" || name == "h3"
    ensures WithToc(name, n, t).text
         == ("<" + name + ">") + (NameOpen + (Decimal(n) + (NameClose + (t + ("</" + name + ">")))))
  {
    var head, d := "<" + name, Decimal(n);
    Regroup(head, "><a name=\"TOC--", d, NameClose, t, "</", name, ">");
    assert "><a name=\"TOC--" == ">" + NameOpen;
    Associative(">", NameOpen, d + (NameClose + (t + ("</" + name + ">"))));
    Associative(head, ">", NameOpen + (d + (NameClose + (t + ("</" + name + ">")))));
  }

  lemma {:induction false} Regroup(a: string, b: string, c: string, d: string, e: string, f: string, g: string, h: string)
    ensures a + b + c + d + e + f + g + h == a + (b + (c + (d + (e + (f + g + h)))))
  {
  }

  /** A line that opens a tag other than `h…`, or closes one, carries no
      anchor. */
  lemma {:induction false} NoAnchor(s: string)
    requires |s| >= 2 && s[0] == '<' && s[1] != 'h'
    ensures AnchorIn(s) == None
  {
  }

  // ---------------------------------------------------------------------------
  // Table-of-contents links

  /** What follows `<li` in every line of the table of contents, up to the
      label. */
  const LinkAttrs: string := " class=\"goog-toc\"><a href=\"#TOC--"
  const LinkOpen: string := "<li" + LinkAttrs
  const LinkMid: string := "\"><strong>"
  const StrongClose: string := "</strong>"

  /** The link a line (without indentation) of the table of contents holds, if
      any: the label after `#TOC--` names the anchor; the title stands between
      the `</strong>` that ends the section number and the closing `</a>` (of
      a section) or `</a></li>` (of a subsection). */
  function LinkIn(s: string): Option<Heading> {
    match AfterPrefix(LinkOpen, s)
    case None => None
    case Some(rest) =>
      var i := IndexOf(rest, '"');
      match LabelValue(rest[..i])
      case None => None
      case Some(n) =>
        match AfterPrefix(LinkMid, rest[i..])
        case None => None
        case Some(numbered) =>
          var j := IndexOf(numbered, '<');
          match AfterPrefix(StrongClose, numbered[j..])
          case None => None
          case Some(titled) =>
            match LinkTitle(titled)
            case None => None
            case Some(t) => Some(Heading(t, n))
  }

  function LinkTitle(titled: string): Option<string> {
    match BeforeSuffix(titled, "</a>")
    case Some(t) => Some(t)
    case None => BeforeSuffix(titled, "</a></li>")
  }

  lemma {:induction false} LinkTitleOf(t: string, tail: string)
    requires tail == "</a>" || tail == "</a></li>"
    ensures LinkTitle(t + tail) == Some(t)
  {
    var s := t + tail;
    if tail == "</a>" {
      BeforeSuffixOf(t, tail);
    } else {
      assert s[|s| - 4] == '/';
      assert BeforeSuffix(s, "</a>") == None by {
        assert s[|s| - 4..][0] == s[|s| - 4] != "</a>"[0];
      }
      BeforeSuffixOf(t, tail);
    }
  }

  lemma {:induction false} LinkInOf(mark: string, num: string, t: string, tail: string, n: nat)
    requires '"' !in mark && LabelValue(mark) == Some(n)
    requires '<' !in num
    requires tail == "</a>" || tail == "</a></li>"
    ensures LinkIn(LinkOpen + (mark + (LinkMid + (num + (StrongClose + (t + tail)))))) == Some(Heading(t, n))
  {
    var titled := t + tail;
    var numbered := num + (StrongClose + titled);
    var rest := mark + (LinkMid + numbered);
    AfterPrefixOf(LinkOpen, rest);
    IndexOfAfter(mark, '"', LinkMid + numbered);
    assert rest[..|mark|] == mark && rest[|mark|..] == LinkMid + numbered;
    AfterPrefixOf(LinkMid, numbered);
    IndexOfAfter(num, '<', StrongClose + titled);
    assert numbered[|num|..] == StrongClose + titled;
    AfterPrefixOf(StrongClose, titled);
    LinkTitleOf(t, tail);
  }

  /** A tag line that is not an `h…` heading carries no anchor, indented or
      not. */
  lemma {:induction false} LineNoAnchor(s: string)
    requires |s| >= 2 && s[0] == '<' && s[1] != 'h'
    ensures AnchorIn(Unindented(s)) == None
  {
    UnindentedTag(s);
    NoAnchor(s);
  }

  /** The line `with_toc` prints carries its title tied to its number. */
  lemma {:induction false} WithTocFound(name: string, n: nat, t: string)
    requires name == "h2" || name == "h3"
    requires n >= 1
    ensures NodesFound([WithToc(name, n, t)], AnchorIn) == [Heading(t, n)]
  {
    var line := WithToc(name, n, t).text;
    WithTocText(name, n, t);
    UnindentedTag(line);
    WithTocRead(name, n, t);
    NodesFoundLine(line, AnchorIn);
  }

  /** A line whose second character is not the `l` of `<li` holds no link. */
  lemma {:induction false} NoLink(s: string)
    requires |s| >= 2 && s[1] != 'l'
    ensures LinkIn(s) == None
  {
    if |LinkOpen| <= |s| {
      assert s[..|LinkOpen|][1] == s[1];
    }
  }

  // ---------------------------------------------------------------------------
  // Everything a page carries, in printed order

  function Listed(o: Option<Heading>): seq<Heading> {
    if o.Some? then [o.value] else []
  }

  /** What `read` finds on the printed lines, line after line, each read
      without its indentation. */
  function Found(lines: seq<string>, read: string -> Option<Heading>): seq<Heading>
    decreases |lines|
  {
    if lines == [] then []
    else Found(lines[..|lines| - 1], read) + Listed(read(Unindented(lines[|lines| - 1])))
  }

  /** The anchored headings a printed tree carries, in order. */
  function PrintedAnchors(t: IndentedStr): seq<Heading> {
    Found(Strs(t), AnchorIn)
  }

  /** The links a printed tree holds, in order. */
  function PrintedLinks(t: IndentedStr): seq<Heading> {
    Found(Strs(t), LinkIn)
  }

  /** No printed line of the tree holds a newline of its own, so the text it
      displays splits back into exactly its lines. */
  predicate SingleLines(t: IndentedStr) {
    forall i :: 0 <= i < |Strs(t)| ==> '\n' !in Strs(t)[i]
  }

  /** Reading the displayed text line by line finds the tree's anchors and
      links. */
  lemma {:induction false} DisplayedFound(t: IndentedStr)
    requires SingleLines(t)
    ensures Found(SplitOn(ToString(t), '\n'), AnchorIn) == PrintedAnchors(t)
    ensures Found(SplitOn(ToString(t), '\n'), LinkIn) == PrintedLinks(t)
  {
    ToStringLines(t);
  }

  /** Sibling nodes none of whose printed lines holds a newline. */
  predicate AllSingle(nodes: seq<IndentedStr>) {
    forall j :: 0 <= j < |nodes| ==> SingleLines(nodes[j])
  }

  lemma {:induction false} AllSingleAppend(a: seq<IndentedStr>, b: seq<IndentedStr>)
    requires AllSingle(a) && AllSingle(b)
    ensures AllSingle(a + b)
  {
    forall j | 0 <= j < |a + b| ensures SingleLines((a + b)[j]) {
      if j >= |a| {
        assert (a + b)[j] == b[j - |a|];
      }
    }
  }

  /** The lines of siblings none of which prints a newline hold none. */
  lemma {:induction false} ChildStrsSingle(children: seq<IndentedStr>)
    requires AllSingle(children)
    ensures forall i :: 0 <= i < |ChildStrs(children)| ==> '\n' !in ChildStrs(children)[i]
    decreases |children|
  {
    if children != [] {
      var k := |children| - 1;
      var a, b := ChildStrs(children[..k]), Strs(children[k]);
      ChildStrsSingle(children[..k]);
      forall i | 0 <= i < |a + b| ensures '\n' !in (a + b)[i] {
        if i >= |a| {
          assert (a + b)[i] == b[i - |a|];
        }
      }
    }
  }

  /** A tag whose name and attributes hold no newline, around children none
      of which prints one, prints none. */
  lemma {:induction false} TagSingle(name: string, rest: string, children: seq<IndentedStr>)
    requires '\n' !in name && '\n' !in rest && AllSingle(children)
    ensures SingleLines(Tag(name, rest, children))
  {
    var inner := ChildStrs(children);
    var r := Strs(Tag(name, rest, children));
    assert r == ["<" + name + rest] + Prefixed("  ", inner) + ["</" + name + ">"];
    ChildStrsSingle(children);
    forall i | 0 <= i < |r| ensures '\n' !in r[i] {
      if 0 < i < |r| - 1 {
        assert r[i] == "  " + inner[i - 1];
      }
    }
  }

  /** A displayed line continues the one before it when, after its
      indentation, it closes the `<strong>` of a section number: the line
      break `generate_toc` writes inside a subsection's link. */
  predicate Continues(s: string) {
    AfterPrefix(StrongClose, Unindented(s)).Some?
  }

  /** The displayed lines, each continuation glued back onto the line it
      continues. */
  function Rejoined(parts: seq<string>): seq<string>
    decreases |parts|
  {
    if parts == [] then []
    else if |parts| >= 2 && Continues(parts[1]) then [parts[0] + "\n" + parts[1]] + Rejoined(parts[2..])
    else [parts[0]] + Rejoined(parts[1..])
  }

  /** A printed line that displays as one line, or as one line and a single
      continuation; its first displayed line continues nothing. */
  predicate Whole(s: string) {
    var parts := SplitOn(s, '\n');
    && !Continues(parts[0])
    && (|parts| == 1 || (|parts| == 2 && Continues(parts[1])))
  }

  predicate AllWhole(lines: seq<string>) {
    forall i :: 0 <= i < |lines| ==> Whole(lines[i])
  }

  /** Gluing the displayed pieces of whole lines gives the lines back. */
  lemma {:induction false} RejoinedPieces(lines: seq<string>)
    requires AllWhole(lines)
    ensures Rejoined(Pieces(lines, '\n')) == lines
    decreases |lines|
  {
    if lines != [] {
      var rest := lines[1..];
      AllWholeTail(lines);
      RejoinedPieces(rest);
      PiecesHead(rest);
      RejoinedFirst(lines[0], Pieces(rest, '\n'), rest);
    }
  }

  lemma {:induction false} AllWholeTail(lines: seq<string>)
    requires lines != [] && AllWhole(lines)
    ensures Whole(lines[0]) && AllWhole(lines[1..])
  {
    forall i | 0 <= i < |lines| - 1 ensures Whole(lines[1..][i]) {
      assert lines[1..][i] == lines[i + 1];
    }
  }

  /** The first displayed line of whole lines continues nothing. */
  lemma {:induction false} PiecesHead(lines: seq<string>)
    requires AllWhole(lines)
    ensures Pieces(lines, '\n') != [] ==> !Continues(Pieces(lines, '\n')[0])
  {
    if lines != [] {
      assert Whole(lines[0]);
      var parts := SplitOn(lines[0], '\n');
      assert Pieces(lines, '\n') == parts + Pieces(lines[1..], '\n');
    }
  }

  /** A whole line's pieces, before pieces that start with no continuation,
      glue back into the line. */
  lemma {:induction false} RejoinedFirst(s: string, more: seq<string>, rest: seq<string>)
    requires Whole(s) && Rejoined(more) == rest
    requires more != [] ==> !Continues(more[0])
    ensures Rejoined(SplitOn(s, '\n') + more) == [s] + rest
  {
    var parts := SplitOn(s, '\n');
    JoinSplit(s, '\n');
    if |parts| == 1 {
      assert ([parts[0]] + more)[1..] == more;
    } else {
      assert parts == [parts[0], parts[1]];
      assert Join(parts, "\n") == parts[0] + "\n" + Join(parts[1..], "\n");
      assert ([parts[0], parts[1]] + more)[2..] == more;
    }
  }

  /** The displayed text of a tree whose lines are whole, split at newlines
      and rejoined, is the tree's printed lines. */
  lemma {:induction false} DisplayedRejoined(t: IndentedStr)
    requires AllWhole(Strs(t))
    ensures Rejoined(SplitOn(ToString(t), '\n')) == Strs(t)
  {
    SplitJoinPieces(Strs(t), '\n');
    RejoinedPieces(Strs(t));
  }

  /** A line without a newline that continues nothing is whole. */
  lemma {:induction false} PlainWhole(s: string)
    requires '\n' !in s && !Continues(s)
    ensures Whole(s) && SplitOn(s, '\n') == [s]
  {
    SplitOnFree(s, '\n', "");
    assert s + "" == s;
  }

  /** A line made of a head and a continuation displays as those two. */
  lemma {:induction false} BrokenWhole(head: string, tail: string)
    requires '\n' !in head && '\n' !in tail
    requires !Continues(head) && Continues(tail)
    ensures SplitOn(head + "\n" + tail, '\n') == [head, tail]
    ensures Whole(head + "\n" + tail)
  {
    SplitOnAt(head, '\n', tail);
    PlainWhole(head);
    SplitOnFree(tail, '\n', "");
    assert tail + "" == tail;
  }

  /** Ten spaces, then `</strong>`: a continuation. */
  lemma {:induction false} StrongContinues(x: string)
    ensures Continues("          " + (StrongClose + x))
  {
    var y := StrongClose + x;
    assert "          " + y == "  " + ("  " + ("  " + ("  " + ("  " + y))));
    UnindentedPad("  " + ("  " + ("  " + ("  " + y))));
    UnindentedPad("  " + ("  " + ("  " + y)));
    UnindentedPad("  " + ("  " + y));
    UnindentedPad("  " + y);
    UnindentedPad(y);
    UnindentedTag(y);
    AfterPrefixOf(StrongClose, x);
  }

  /** A line starting with `<`, not followed by `/`, continues nothing. */
  lemma {:induction false} OpeningContinuesNothing(s: string)
    requires |s| >= 2 && s[0] == '<' && s[1] != '/'
    ensures !Continues(s)
  {
    UnindentedTag(s);
    if |StrongClose| <= |s| {
      assert s[..|StrongClose|][1] == s[1];
    }
  }

  /** Indentation keeps a line whole. */
  lemma {:induction false} WholePad(s: string)
    requires Whole(s)
    ensures Whole("  " + s)
  {
    var parts := SplitOn(s, '\n');
    SplitOnFree("  ", '\n', s);
    UnindentedPad(parts[0]);
  }

  lemma {:induction false} AllWholePad(lines: seq<string>)
    requires AllWhole(lines)
    ensures AllWhole(Prefixed("  ", lines))
  {
    forall i | 0 <= i < |lines| ensures Whole(Prefixed("  ", lines)[i]) {
      WholePad(lines[i]);
    }
  }

  /** The lines of siblings whose lines are whole are whole. */
  lemma {:induction false} ChildStrsWhole(children: seq<IndentedStr>)
    requires forall j :: 0 <= j < |children| ==> AllWhole(Strs(children[j]))
    ensures AllWhole(ChildStrs(children))
    decreases |children|
  {
    if children != [] {
      var k := |children| - 1;
      var a, b := ChildStrs(children[..k]), Strs(children[k]);
      ChildStrsWhole(children[..k]);
      forall i | 0 <= i < |a + b| ensures Whole((a + b)[i]) {
        if i >= |a| {
          assert (a + b)[i] == b[i - |a|];
        }
      }
    }
  }

  /** A tag whose opening and closing lines are whole, around children whose
      lines are whole, prints whole lines. */
  lemma {:induction false} TagWhole(name: string, rest: string, children: seq<IndentedStr>)
    requires Whole("<" + name + rest) && Whole("</" + name + ">")
    requires forall j :: 0 <= j < |children| ==> AllWhole(Strs(children[j]))
    ensures AllWhole(Strs(Tag(name, rest, children)))
  {
    var open, close, inner := "<" + name + rest, "</" + name + ">", ChildStrs(children);
    var r := Strs(Tag(name, rest, children));
    assert r == [open] + Prefixed("  ", inner) + [close];
    ChildStrsWhole(children);
    AllWholePad(inner);
    forall i | 0 <= i < |r| ensures Whole(r[i]) {
      if 0 < i < |r| - 1 {
        assert r[i] == Prefixed("  ", inner)[i - 1];
      }
    }
  }

  /** What `read` finds on the printed lines of a run of sibling nodes. */
  function NodesFound(nodes: seq<IndentedStr>, read: string -> Option<Heading>): seq<Heading> {
    Found(ChildStrs(nodes), read)
  }

  lemma {:induction false} FoundAppend(a: seq<string>, b: seq<string>, read: string -> Option<Heading>)
    ensures Found(a + b, read) == Found(a, read) + Found(b, read)
    decreases |b|
  {
    if b == [] {
      assert a + b == a;
    } else {
      var k := |b| - 1;
      assert (a + b)[..|a + b| - 1] == a + b[..k];
      FoundAppend(a, b[..k], read);
    }
  }

  /** Indentation does not change what a line is read as. */
  lemma {:induction false} FoundPadded(lines: seq<string>, read: string -> Option<Heading>)
    ensures Found(Prefixed("  ", lines), read) == Found(lines, read)
    decreases |lines|
  {
    if lines != [] {
      var k := |lines| - 1;
      assert Prefixed("  ", lines)[..k] == Prefixed("  ", lines[..k]);
      UnindentedPad(lines[k]);
      FoundPadded(lines[..k], read);
    }
  }

  /** A line that starts with `<` is read as it stands. */
  lemma {:induction false} FoundLine(s: string, read: string -> Option<Heading>)
    requires s != [] && s[0] == '<'
    ensures Found([s], read) == Listed(read(s))
  {
    assert [s][..0] == [];
  }

  /** What a tag carries: what its opening line, its children and its closing
      line carry, in that order. */
  lemma {:induction false} FoundTag(name: string, rest: string, children: seq<IndentedStr>, read: string -> Option<Heading>)
    ensures Found(Strs(Tag(name, rest, children)), read)
         == Listed(read("<" + name + rest)) + NodesFound(children, read) + Listed(read("</" + name + ">"))
  {
    var open, close, inner := "<" + name + rest, "</" + name + ">", ChildStrs(children);
    assert Strs(Tag(name, rest, children)) == [open] + Prefixed("  ", inner) + [close];
    FoundAppend([open] + Prefixed("  ", inner), [close], read);
    FoundAppend([open], Prefixed("  ", inner), read);
    FoundPadded(inner, read);
    FoundLine(open, read);
    FoundLine(close, read);
  }

  /** A tag whose opening and closing lines carry nothing carries what its
      children carry. */
  lemma {:induction false} FoundWrapped(name: string, rest: string, children: seq<IndentedStr>, read: string -> Option<Heading>)
    requires read("<" + name + rest).None? && read("</" + name + ">").None?
    ensures Found(Strs(Tag(name, rest, children)), read) == NodesFound(children, read)
  {
    FoundTag(name, rest, children, read);
  }

  /** A tag whose opening line carries `h` and whose closing line carries
      nothing carries `h`, then what its children carry. */
  lemma {:induction false} FoundHeaded(name: string, rest: string, children: seq<IndentedStr>,
                                       read: string -> Option<Heading>, h: Heading)
    requires read("<" + name + rest) == Some(h) && read("</" + name + ">").None?
    ensures Found(Strs(Tag(name, rest, children)), read) == [h] + NodesFound(children, read)
  {
    FoundTag(name, rest, children, read);
  }

  lemma {:induction false} NodesFoundAppend(a: seq<IndentedStr>, b: seq<IndentedStr>, read: string -> Option<Heading>)
    ensures NodesFound(a + b, read) == NodesFound(a, read) + NodesFound(b, read)
  {
    ChildStrsAppend(a, b);
    FoundAppend(ChildStrs(a), ChildStrs(b), read);
  }

  lemma {:induction false} NodesFoundOne(t: IndentedStr, read: string -> Option<Heading>)
    ensures NodesFound([t], read) == Found(Strs(t), read)
  {
    SingleChild(t);
  }

  /** Literal lines each read as nothing carry nothing. */
  lemma {:induction false} FoundNone(lines: seq<string>, read: string -> Option<Heading>)
    requires forall i :: 0 <= i < |lines| ==> read(Unindented(lines[i])).None?
    ensures Found(lines, read) == []
    decreases |lines|
  {
    if lines != [] {
      var k := |lines| - 1;
      assert forall i :: 0 <= i < k ==> lines[..k][i] == lines[i];
      FoundNone(lines[..k], read);
    }
  }

  /** A literal line carries what it is read as. */
  lemma {:induction false} NodesFoundLine(s: string, read: string -> Option<Heading>)
    ensures NodesFound([Line(s)], read) == Listed(read(Unindented(s)))
  {
    SingleChild(Line(s));
    assert Strs(Line(s)) == [s];
    assert [s][..0] == [];
    assert Found([s], read) == Found([], read) + Listed(read(Unindented(s)));
  }

  /** One more literal line read as `h` adds `h` behind what came before. */
  lemma {:induction false} NodesFoundSnoc(front: seq<IndentedStr>, s: string, read: string -> Option<Heading>,
                                          hs: seq<Heading>, h: Heading)
    requires NodesFound(front, read) == hs
    requires Unindented(s) == s
    requires read(s) == Some(h)
    ensures NodesFound(front + [Line(s)], read) == hs + [h]
  {
    NodesFoundAppend(front, [Line(s)], read);
    SingleChild(Line(s));
    assert [s][..0] == [];
  }

  /** One more node adds what it carries behind what came before. */
  lemma {:induction false} NodesFoundSnocNode(front: seq<IndentedStr>, t: IndentedStr, read: string -> Option<Heading>,
                                              hs: seq<Heading>, more: seq<Heading>)
    requires NodesFound(front, read) == hs
    requires Found(Strs(t), read) == more
    ensures NodesFound(front + [t], read) == hs + more
  {
    NodesFoundAppend(front, [t], read);
    NodesFoundOne(t, read);
  }

  /** Nodes that carry nothing leave what came before them as it was. */
  lemma {:induction false} NodesFoundEmpty(read: string -> Option<Heading>)
    ensures NodesFound([], read) == []
  {
  }

  lemma {:induction false} NodesFoundQuiet(front: seq<IndentedStr>, body: seq<IndentedStr>, read: string -> Option<Heading>,
                                           hs: seq<Heading>)
    requires NodesFound(front, read) == hs
    requires NodesFound(body, read) == []
    ensures NodesFound(front + body, read) == hs
  {
    NodesFoundAppend(front, body, read);
    assert hs + [] == hs;
  }

  /** Two runs of nodes carry what each carries, one after the other. */
  lemma {:induction false} NodesFoundJoin(front: seq<IndentedStr>, back: seq<IndentedStr>, read: string -> Option<Heading>,
                                          hs: seq<Heading>, more: seq<Heading>)
    requires NodesFound(front, read) == hs
    requires NodesFound(back, read) == more
    ensures NodesFound(front + back, read) == hs + more
  {
    NodesFoundAppend(front, back, read);
  }

  /** A node followed by one that carries nothing. */
  lemma {:induction false} NodesFoundPairQuiet(x: IndentedStr, y: IndentedStr, read: string -> Option<Heading>, hs: seq<Heading>)
    requires NodesFound([x], read) == hs
    requires NodesFound([y], read) == []
    ensures NodesFound([x, y], read) == hs
  {
    assert [x, y] == [x] + [y];
    NodesFoundQuiet([x], [y], read, hs);
  }

  /** Literal lines each read as nothing carry nothing. */
  lemma {:induction false} NodesFoundNone(ls: seq<IndentedStr>, read: string -> Option<Heading>)
    requires forall i :: 0 <= i < |ls| ==> ls[i].Line? && read(Unindented(ls[i].text)).None?
    ensures NodesFound(ls, read) == []
  {
    ChildStrsOfLines(ls);
    FoundNone(ChildStrs(ls), read);
  }

  /** A heading node between two runs: what comes before, what the heading
      carries, and nothing from the run behind it. */
  lemma {:induction false} NodesFoundBlock(front: seq<IndentedStr>, heading: IndentedStr, body: seq<IndentedStr>,
                                           read: string -> Option<Heading>, hs: seq<Heading>, more: seq<Heading>)
    requires NodesFound(front, read) == hs
    requires NodesFound([heading], read) == more
    requires NodesFound(body, read) == []
    ensures NodesFound(front + [heading] + body, read) == hs + more
  {
    NodesFoundAppend(front + [heading], body, read);
    NodesFoundAppend(front, [heading], read);
  }
}
