/** The render-time document tree (`IndentedStr` in src/markup.rs; its older
    twin `Foo` in src/bar.rs has the same shape and is modelled by the same
    type): a literal line, or a tag whose children are printed two spaces
    deeper than its opening and closing lines. */
module Indented {
  import opened Text

  datatype IndentedStr =
    | Line(text: string)
    | Tag(name: string, rest: string, children: seq<IndentedStr>)

  /** `IndentedStr::ls`. */
  function Ls(s: string): IndentedStr {
    Line(s)
  }

  /** `IndentedStr::c`: a tag with nothing after its name but `>`. */
  function C(name: string, children: seq<IndentedStr>): IndentedStr {
    Tag(name, ">", children)
  }

  /** `IndentedStr::c1`: a plain tag with a single child. */
  function C1(name: string, child: IndentedStr): IndentedStr {
    Tag(name, ">", [child])
  }

  /** `IndentedStr::with_toc`: a heading that carries the anchor `TOC--ind`. */
  function WithToc(name: string, ind: nat, t: string): IndentedStr {
    Line("<" + name + "><a name=\"TOC--" + Decimal(ind) + "\"></a>" + t + "</" + name + ">")
  }

  /** Every line preceded by `pad`. */
  function Prefixed(pad: string, lines: seq<string>): (r: seq<string>)
    ensures |r| == |lines|
    ensures forall i :: 0 <= i < |lines| ==> r[i] == pad + lines[i]
  {
    seq(|lines|, i requires 0 <= i < |lines| => pad + lines[i])
  }

  /** `strs`: the opening line, every child's lines indented by two spaces, the
      closing line. */
  function Strs(t: IndentedStr): (r: seq<string>)
    ensures t.Line? ==> r == [t.text]
    ensures t.Tag? ==> 2 <= |r| && r[0] == "<" + t.name + t.rest && r[|r| - 1] == "</" + t.name + ">"
    decreases t, 1
  {
    match t
    case Line(s) => [s]
    case Tag(name, rest, children) =>
      ["<" + name + rest] + Prefixed("  ", ChildStrs(children)) + ["</" + name + ">"]
  }

  /** Every line strictly between a tag's opening and closing line starts
      with two spaces. */
  lemma {:induction false} StrsIndented(t: IndentedStr)
    requires t.Tag?
    ensures forall i :: 0 < i < |Strs(t)| - 1 ==> 2 <= |Strs(t)[i]| && Strs(t)[i][..2] == "  "
  {
    var inner := ChildStrs(t.children);
    var r := Strs(t);
    assert r == ["<" + t.name + t.rest] + Prefixed("  ", inner) + ["</" + t.name + ">"];
    forall i | 0 < i < |r| - 1
      ensures 2 <= |r[i]| && r[i][..2] == "  "
    {
      assert r[i] == "  " + inner[i - 1];
    }
  }

  /** The lines of the children, one after the other. */
  function ChildStrs(children: seq<IndentedStr>): seq<string>
    decreases children, 0
  {
    if children == [] then []
    else ChildStrs(children[..|children| - 1]) + Strs(children[|children| - 1])
  }

  /** `strs` as written: the children's lines are re-indented and appended one
      child at a time. */
  method StrsOf(t: IndentedStr) returns (ans: seq<string>)
    ensures ans == Strs(t)
    decreases t
  {
    match t {
      case Line(s) =>
        ans := [s];
      case Tag(name, rest, children) =>
        ghost var open := "<" + name + rest;
        ans := ["<" + name + rest];
        for i := 0 to |children|
          invariant ans == [open] + Prefixed("  ", ChildStrs(children[..i]))
        {
          assert children[i] in children;
          var k := StrsOf(children[i]);
          ChildAppended(open, children, i, ans, k);
          ans := ans + Prefixed("  ", k);
        }
        assert children[..|children|] == children;
        ans := ans + ["</" + name + ">"];
    }
  }

  /** One more child's lines, indented, appended behind the lines of the
      children before it. */
  lemma {:induction false} ChildAppended(open: string, children: seq<IndentedStr>, i: nat, ans: seq<string>, k: seq<string>)
    requires i < |children|
    requires ans == [open] + Prefixed("  ", ChildStrs(children[..i]))
    requires k == Strs(children[i])
    ensures ans + Prefixed("  ", k) == [open] + Prefixed("  ", ChildStrs(children[..i + 1]))
  {
    assert children[..i + 1][..i] == children[..i];
    PrefixedAppend("  ", ChildStrs(children[..i]), k);
    Associative([open], Prefixed("  ", ChildStrs(children[..i])), Prefixed("  ", k));
  }

  /** The lines of a list tag around its indented items. */
  lemma {:induction false} ListLines(tag: string, content: seq<string>, inner: seq<string>, r: seq<string>)
    requires |inner| == |content|
    requires forall i :: 0 <= i < |content| ==> inner[i] == "<li>" + content[i] + "</li>"
    requires r == ["<" + tag + ">"] + Prefixed("  ", inner) + ["</" + tag + ">"]
    ensures |r| == |content| + 2 && r[0] == "<" + tag + ">" && r[|r| - 1] == "</" + tag + ">"
    ensures forall i :: 0 <= i < |content| ==> r[i + 1] == "  <li>" + content[i] + "</li>"
  {
    forall i | 0 <= i < |content|
      ensures r[i + 1] == "  <li>" + content[i] + "</li>"
    {
      assert r[i + 1] == "  " + inner[i];
      IndentLi(content[i]);
    }
  }

  lemma {:induction false} IndentLi(c: string)
    ensures "  " + ("<li>" + c + "</li>") == "  <li>" + c + "</li>"
  {
    assert "  " + "<li>" == "  <li>";
    Associative("  ", "<li>" + c, "</li>");
    Associative("  ", "<li>", c);
  }

  /** The lines of two runs of siblings, one run after the other. */
  lemma {:induction false} ChildStrsAppend(a: seq<IndentedStr>, b: seq<IndentedStr>)
    ensures ChildStrs(a + b) == ChildStrs(a) + ChildStrs(b)
    decreases |b|
  {
    if b == [] {
      assert a + b == a;
    } else {
      var k := |b| - 1;
      var init, last := b[..k], b[k];
      assert (a + b)[..|a + b| - 1] == a + init;
      assert (a + b)[|a + b| - 1] == last;
      assert ChildStrs(a + b) == ChildStrs(a + init) + Strs(last);
      ChildStrsAppend(a, init);
      Associative(ChildStrs(a), ChildStrs(init), Strs(last));
    }
  }

  lemma {:induction false} SingleChild(t: IndentedStr)
    ensures ChildStrs([t]) == Strs(t)
  {
    assert [t][..0] == [];
    assert ChildStrs([t]) == ChildStrs([]) + Strs(t);
  }

  /** The `Display` impl: the lines joined with newlines. */
  function ToString(t: IndentedStr): string {
    Join(Strs(t), "\n")
  }

  // ---------------------------------------------------------------------------
  // Independent descriptions of the output

  /** Number of lines a tree prints: one per literal line, two per tag. */
  function LineCount(t: IndentedStr): nat
    decreases t, 1
  {
    match t
    case Line(_) => 1
    case Tag(_, _, children) => 2 + LineCounts(children)
  }

  function LineCounts(children: seq<IndentedStr>): nat
    decreases children, 0
  {
    if children == [] then 0
    else LineCounts(children[..|children| - 1]) + LineCount(children[|children| - 1])
  }

  lemma {:induction false} StrsLength(t: IndentedStr)
    ensures |Strs(t)| == LineCount(t)
    decreases t, 1
  {
    match t {
      case Line(_) =>
      case Tag(_, _, children) => ChildStrsLength(children);
    }
  }

  lemma {:induction false} ChildStrsLength(children: seq<IndentedStr>)
    ensures |ChildStrs(children)| == LineCounts(children)
    decreases children, 0
  {
    if children != [] {
      ChildStrsLength(children[..|children| - 1]);
      StrsLength(children[|children| - 1]);
    }
  }

  /** Printing top-down: a node at nesting depth `d` is printed behind `pad`,
      which is `d` times two spaces; its children behind `pad + "  "`. */
  function Emit(t: IndentedStr, pad: string): seq<string>
    decreases t, 1
  {
    match t
    case Line(s) => [pad + s]
    case Tag(name, rest, children) =>
      [pad + "<" + name + rest] + EmitAll(children, pad + "  ") + [pad + "</" + name + ">"]
  }

  function EmitAll(children: seq<IndentedStr>, pad: string): seq<string>
    decreases children, 0
  {
    if children == [] then []
    else EmitAll(children[..|children| - 1], pad) + Emit(children[|children| - 1], pad)
  }

  lemma {:induction false} PrefixedAppend(pad: string, a: seq<string>, b: seq<string>)
    ensures Prefixed(pad, a + b) == Prefixed(pad, a) + Prefixed(pad, b)
  {
  }

  lemma {:induction false} PrefixedTwice(p: string, q: string, lines: seq<string>)
    ensures Prefixed(p, Prefixed(q, lines)) == Prefixed(p + q, lines)
  {
    forall i | 0 <= i < |lines| ensures p + (q + lines[i]) == (p + q) + lines[i] { }
  }

  /** The bottom-up re-indentation of `strs` agrees with top-down printing:
      the tree's lines behind `pad` are exactly what `Emit` prints at `pad`. */
  lemma {:induction false} StrsIsEmit(t: IndentedStr, pad: string)
    ensures Prefixed(pad, Strs(t)) == Emit(t, pad)
    decreases t, 1
  {
    match t {
      case Line(s) =>
      case Tag(name, rest, children) =>
        var inner := ChildStrs(children);
        var open, close := "<" + name + rest, "</" + name + ">";
        PrefixedAppend(pad, [open] + Prefixed("  ", inner), [close]);
        PrefixedAppend(pad, [open], Prefixed("  ", inner));
        PrefixedTwice(pad, "  ", inner);
        ChildStrsIsEmitAll(children, pad + "  ");
        assert pad + open == pad + "<" + name + rest;
        assert pad + close == pad + "</" + name + ">";
    }
  }

  lemma {:induction false} ChildStrsIsEmitAll(children: seq<IndentedStr>, pad: string)
    ensures Prefixed(pad, ChildStrs(children)) == EmitAll(children, pad)
    decreases children, 0
  {
    if children != [] {
      var init, last := children[..|children| - 1], children[|children| - 1];
      PrefixedAppend(pad, ChildStrs(init), Strs(last));
      ChildStrsIsEmitAll(init, pad);
      StrsIsEmit(last, pad);
    }
  }

  /** `strs` is top-down printing from depth zero. */
  lemma {:induction false} StrsAtTop(t: IndentedStr)
    ensures Strs(t) == Emit(t, "")
  {
    StrsIsEmit(t, "");
    forall i | 0 <= i < |Strs(t)| ensures "" + Strs(t)[i] == Strs(t)[i] { }
  }

  /** Displaying and splitting at newlines gives the lines back, when no line
      holds a newline of its own. */
  lemma {:induction false} ToStringLines(t: IndentedStr)
    requires forall i :: 0 <= i < |Strs(t)| ==> '\n' !in Strs(t)[i]
    ensures SplitOn(ToString(t), '\n') == Strs(t)
  {
    SplitJoin(Strs(t), '\n');
  }

  /** A run of literal lines prints as their texts, one line each. */
  lemma {:induction false} ChildStrsOfLines(ls: seq<IndentedStr>)
    requires forall i :: 0 <= i < |ls| ==> ls[i].Line?
    ensures |ChildStrs(ls)| == |ls|
    ensures forall i :: 0 <= i < |ls| ==> ChildStrs(ls)[i] == ls[i].text
    decreases |ls|
  {
    if ls != [] {
      var init := ls[..|ls| - 1];
      assert forall i :: 0 <= i < |init| ==> init[i] == ls[i];
      ChildStrsOfLines(init);
    }
  }
}
