/** The lenticular-bracket pass: every character written between `【` and `】`
    becomes a link to that character's dictionary page. Strings are scanned with
    a two-state machine; pairs and sequences are rewritten part by part and
    report the errors of every failing part, left to right. */
module Lenticular {
  import opened Text

  const Open: char := '【'
  const Close: char := '】'

  /** The three ways a string can be malformed; each carries the whole input. */
  datatype Error =
    | MismatchedRightLenticular(source: string)
    | MismatchedLeftLenticular(source: string)
    | LenticularInsideLenticular(source: string)

  datatype Result<T> = Ok(value: T) | Err(errors: seq<Error>)

  /** The errors a result carries; none for a success. */
  function Errors<T>(r: Result<T>): seq<Error> {
    if r.Ok? then [] else r.errors
  }

  /** The link that replaces a bracketed character `c`. */
  function Link(c: char): string {
    "<a href=\"" + [c] + "%20-%20燐字海.html\">" + [c] + "</a>"
  }

  // ---------------------------------------------------------------------------
  // Strings: the scanner

  /** Which fatal condition stopped the scan. */
  datatype Fault = StrayClose | NestedOpen | Unclosed

  /** Outcome of scanning the rest of a string: its rewritten text, or a fault. */
  datatype Scan = Done(out: string) | Halt(fault: Fault)

  function Prepend(p: string, r: Scan): Scan {
    match r
    case Done(o) => Done(p + o)
    case Halt(f) => Halt(f)
  }

  lemma {:induction false} PrependTwice(p: string, q: string, r: Scan)
    ensures Prepend(p, Prepend(q, r)) == Prepend(p + q, r)
  {
    if r.Done? {
      assert p + (q + r.out) == (p + q) + r.out;
    }
  }

  lemma {:induction false} PrependNothing(r: Scan)
    ensures Prepend("", r) == r
  {
    if r.Done? {
      assert "" + r.out == r.out;
    }
  }

  /** The scanner, character by character, in state `inside`. */
  function Run(s: string, inside: bool): Scan
    decreases |s|
  {
    if s == [] then
      if inside then Halt(Unclosed) else Done("")
    else if inside then
      if s[0] == Open then Halt(NestedOpen)
      else if s[0] == Close then Run(s[1..], false)
      else Prepend(Link(s[0]), Run(s[1..], true))
    else
      if s[0] == Open then Run(s[1..], true)
      else if s[0] == Close then Halt(StrayClose)
      else Prepend([s[0]], Run(s[1..], false))
  }

  /** One step of the scanner on a string that starts with `c`. */
  lemma {:induction false} RunCons(c: char, t: string, inside: bool)
    ensures Run([c] + t, inside)
         == if inside then
              if c == Open then Halt(NestedOpen)
              else if c == Close then Run(t, false)
              else Prepend(Link(c), Run(t, true))
            else
              if c == Open then Run(t, true)
              else if c == Close then Halt(StrayClose)
              else Prepend([c], Run(t, false))
  {
    assert ([c] + t)[0] == c && ([c] + t)[1..] == t;
  }

  function Report(f: Fault, s: string): Error {
    match f
    case StrayClose => MismatchedRightLenticular(s)
    case NestedOpen => LenticularInsideLenticular(s)
    case Unclosed => MismatchedLeftLenticular(s)
  }

  /** `lenticular_to_link` on a `String`. A failure is always a single error
      that carries the input unchanged. */
  function Linkify(s: string): (r: Result<string>)
    ensures r.Err? ==> |r.errors| == 1 && r.errors[0].source == s
  {
    match Run(s, false)
    case Done(o) => Ok(o)
    case Halt(f) => Err([Report(f, s)])
  }

  /** The scanning loop itself, with its early returns. */
  method LenticularToLink(s: string) returns (r: Result<string>)
    ensures r == Linkify(s)
  {
    var inside := false;
    var ans := "";
    for i := 0 to |s|
      invariant Run(s, false) == Prepend(ans, Run(s[i..], inside))
    {
      assert s[i..][1..] == s[i + 1..];
      var c := s[i];
      if inside {
        if c == Open {
          return Err([LenticularInsideLenticular(s)]);
        } else if c == Close {
          inside := false;
        } else {
          PrependTwice(ans, Link(c), Run(s[i + 1..], true));
          ans := ans + Link(c);
        }
      } else {
        if c == Open {
          inside := true;
        } else if c == Close {
          return Err([MismatchedRightLenticular(s)]);
        } else {
          PrependTwice(ans, [c], Run(s[i + 1..], false));
          ans := ans + [c];
        }
      }
    }
    assert s[|s|..] == [];
    if inside {
      return Err([MismatchedLeftLenticular(s)]);
    }
    assert ans + "" == ans;
    r := Ok(ans);
  }

  // ---------------------------------------------------------------------------
  // Strings: what a successful rewrite means

  predicate Plain(c: char) {
    c != Open && c != Close
  }

  predicate BracketFree(s: string) {
    forall i :: 0 <= i < |s| ==> Plain(s[i])
  }

  /** A reading of a well-formed string: single characters outside brackets,
      and bracketed runs. */
  datatype Segment = Verbatim(c: char) | Bracketed(body: string)

  predicate ValidSegments(gs: seq<Segment>) {
    forall i :: 0 <= i < |gs| ==>
      match gs[i]
      case Verbatim(c) => Plain(c)
      case Bracketed(b) => BracketFree(b)
  }

  /** The source text of one segment. */
  function SegmentSource(g: Segment): string {
    match g
    case Verbatim(c) => [c]
    case Bracketed(b) => [Open] + b + [Close]
  }

  /** The source text of a segment sequence. */
  function Source(gs: seq<Segment>): string
    decreases |gs|
  {
    if gs == [] then "" else SegmentSource(gs[0]) + Source(gs[1..])
  }

  /** Each character of `b` as a link, in order. */
  function Links(b: string): string
    decreases |b|
  {
    if b == [] then "" else Link(b[0]) + Links(b[1..])
  }

  /** The intended rewrite of one segment: a verbatim character is copied,
      the brackets are dropped and every bracketed character is linked. */
  function SegmentRendered(g: Segment): string {
    match g
    case Verbatim(c) => [c]
    case Bracketed(b) => Links(b)
  }

  function Rendered(gs: seq<Segment>): string
    decreases |gs|
  {
    if gs == [] then "" else SegmentRendered(gs[0]) + Rendered(gs[1..])
  }

  lemma {:induction false} RunBracketFree(b: string, rest: string, inside: bool)
    requires BracketFree(b)
    ensures Run(b + rest, inside) == Prepend(if inside then Links(b) else b, Run(rest, inside))
    decreases |b|
  {
    if b == [] {
      assert b + rest == rest;
      PrependNothing(Run(rest, inside));
    } else {
      var c, b' := b[0], b[1..];
      assert Plain(c) && BracketFree(b');
      assert b + rest == [c] + (b' + rest);
      RunCons(c, b' + rest, inside);
      RunBracketFree(b', rest, inside);
      var x := if inside then Link(c) else [c];
      PrependTwice(x, if inside then Links(b') else b', Run(rest, inside));
      assert b == [c] + b';
    }
  }

  lemma {:induction false} RunSegment(g: Segment, rest: string)
    requires match g case Verbatim(c) => Plain(c) case Bracketed(b) => BracketFree(b)
    ensures Run(SegmentSource(g) + rest, false) == Prepend(SegmentRendered(g), Run(rest, false))
  {
    match g {
      case Verbatim(c) =>
        assert ([c] + rest)[1..] == rest;
      case Bracketed(b) =>
        assert [Open] + b + [Close] + rest == [Open] + (b + ([Close] + rest));
        assert ([Open] + (b + ([Close] + rest)))[1..] == b + ([Close] + rest);
        RunBracketFree(b, [Close] + rest, true);
        assert ([Close] + rest)[1..] == rest;
    }
  }

  lemma {:induction false} RunSegments(gs: seq<Segment>, rest: string)
    requires ValidSegments(gs)
    ensures Run(Source(gs) + rest, false) == Prepend(Rendered(gs), Run(rest, false))
    decreases |gs|
  {
    if gs == [] {
      assert Source(gs) + rest == rest;
      PrependNothing(Run(rest, false));
    } else {
      assert ValidSegments(gs[1..]) by {
        forall i | 0 <= i < |gs| - 1 ensures gs[1..][i] == gs[i + 1] { }
      }
      RunSegments(gs[1..], rest);
      assert Source(gs) + rest == SegmentSource(gs[0]) + (Source(gs[1..]) + rest);
      RunSegment(gs[0], Source(gs[1..]) + rest);
      PrependTwice(SegmentRendered(gs[0]), Rendered(gs[1..]), Run(rest, false));
    }
  }

  /** Well-formed input succeeds and yields exactly the intended rewrite;
      `【】` contributes nothing. */
  lemma {:induction false} LinkifyWellFormed(gs: seq<Segment>)
    requires ValidSegments(gs)
    ensures Linkify(Source(gs)) == Ok(Rendered(gs))
  {
    RunSegments(gs, "");
    assert Source(gs) + "" == Source(gs);
    assert Rendered(gs) + "" == Rendered(gs);
  }

  /** A string without brackets comes back unchanged. */
  lemma {:induction false} LinkifyBracketFree(s: string)
    requires BracketFree(s)
    ensures Linkify(s) == Ok(s)
  {
    RunBracketFree(s, "", false);
    assert s + "" == s;
  }

  /** A `】` met outside brackets is reported, and only it. */
  lemma {:induction false} LinkifyStrayClose(gs: seq<Segment>, rest: string)
    requires ValidSegments(gs)
    ensures Linkify(Source(gs) + [Close] + rest)
         == Err([MismatchedRightLenticular(Source(gs) + [Close] + rest)])
  {
    Associative(Source(gs), [Close], rest);
    RunSegments(gs, [Close] + rest);
  }

  /** A `【` met inside brackets is reported, whatever follows it. */
  lemma {:induction false} LinkifyNestedOpen(gs: seq<Segment>, b: string, rest: string)
    requires ValidSegments(gs) && BracketFree(b)
    ensures Linkify(Source(gs) + [Open] + b + [Open] + rest)
         == Err([LenticularInsideLenticular(Source(gs) + [Open] + b + [Open] + rest)])
  {
    RegroupRight(Source(gs), [Open], b, [Open], rest);
    RunNestedOpen(gs, b, rest);
  }

  lemma {:induction false} RunNestedOpen(gs: seq<Segment>, b: string, rest: string)
    requires ValidSegments(gs) && BracketFree(b)
    ensures Run(Source(gs) + ([Open] + (b + ([Open] + rest))), false) == Halt(NestedOpen)
  {
    RunSegments(gs, [Open] + (b + ([Open] + rest)));
    RunCons(Open, b + ([Open] + rest), false);
    RunBracketFree(b, [Open] + rest, true);
    RunCons(Open, rest, true);
  }

  /** A `【` still open at the end of the input is reported. */
  lemma {:induction false} LinkifyUnclosed(gs: seq<Segment>, b: string)
    requires ValidSegments(gs) && BracketFree(b)
    ensures Linkify(Source(gs) + [Open] + b)
         == Err([MismatchedLeftLenticular(Source(gs) + [Open] + b)])
  {
    var tail := [Open] + b;
    Associative(Source(gs), [Open], b);
    RunSegments(gs, tail);
    RunCons(Open, b, false);
    assert b + [] == b;
    RunBracketFree(b, "", true);
  }

  /** Scanning inside brackets successfully means a bracket-free run, its `】`,
      and a successful scan of the rest outside. */
  lemma {:induction false} InsideDone(t: string) returns (b: string, rest: string)
    requires Run(t, true).Done?
    ensures BracketFree(b) && t == b + [Close] + rest && |rest| < |t|
    ensures Run(rest, false).Done? && Run(t, true).out == Links(b) + Run(rest, false).out
    decreases |t|
  {
    if t[0] == Close {
      b, rest := InsideClose(t);
    } else {
      var b', rest' := InsideDone(t[1..]);
      b, rest := InsideStep(t, b', rest');
    }
  }

  /** The bracket closes at the first character. */
  lemma {:induction false} InsideClose(t: string) returns (b: string, rest: string)
    requires t != [] && t[0] == Close
    ensures b == [] && rest == t[1..] && t == b + [Close] + rest
    ensures Run(t, true) == Run(rest, false)
  {
    b, rest := "", t[1..];
    assert t == [Close] + t[1..];
    RunCons(Close, t[1..], true);
  }

  /** A plain character joins the bracketed run. */
  lemma {:induction false} InsideStep(t: string, b': string, rest': string) returns (b: string, rest: string)
    requires Run(t, true).Done? && t[0] != Close
    requires BracketFree(b') && t[1..] == b' + [Close] + rest'
    requires Run(rest', false).Done? && Run(t[1..], true).out == Links(b') + Run(rest', false).out
    ensures b == [t[0]] + b' && rest == rest'
    ensures BracketFree(b) && t == b + [Close] + rest
    ensures Run(t, true).out == Links(b) + Run(rest, false).out
  {
    var c := t[0];
    assert t == [c] + t[1..];
    RunCons(c, t[1..], true);
    b, rest := [c] + b', rest';
    Regroup(c, b', rest');
    LinksCons(c, b');
    BracketFreeCons(c, b');
    Associative(Link(c), Links(b'), Run(rest, false).out);
  }

  lemma {:induction false} BracketFreeCons(c: char, b: string)
    requires Plain(c) && BracketFree(b)
    ensures BracketFree([c] + b)
  {
  }

  lemma {:induction false} Regroup(c: char, b: string, rest: string)
    ensures [c] + (b + [Close] + rest) == ([c] + b) + [Close] + rest
  {
  }

  lemma {:induction false} LinksCons(c: char, b: string)
    ensures Links([c] + b) == Link(c) + Links(b)
  {
    assert ([c] + b)[0] == c && ([c] + b)[1..] == b;
  }

  lemma {:induction false} ConsSegments(g: Segment, gs: seq<Segment>)
    requires match g case Verbatim(c) => Plain(c) case Bracketed(b) => BracketFree(b)
    requires ValidSegments(gs)
    ensures ValidSegments([g] + gs)
    ensures Source([g] + gs) == SegmentSource(g) + Source(gs)
    ensures Rendered([g] + gs) == SegmentRendered(g) + Rendered(gs)
  {
    assert ([g] + gs)[1..] == gs;
    forall i | 1 <= i < |gs| + 1 ensures ([g] + gs)[i] == gs[i - 1] { }
  }

  lemma {:induction false} RunDone(s: string) returns (gs: seq<Segment>)
    requires Run(s, false).Done?
    ensures ValidSegments(gs) && Source(gs) == s && Rendered(gs) == Run(s, false).out
    decreases |s|
  {
    if s == [] {
      gs := [];
    } else if s[0] == Open {
      var b, rest := InsideDone(s[1..]);
      var gs' := RunDone(rest);
      gs := BracketedStep(s, b, rest, gs');
    } else {
      var gs' := RunDone(s[1..]);
      gs := VerbatimStep(s, gs');
    }
  }

  lemma {:induction false} BracketedStep(s: string, b: string, rest: string, gs': seq<Segment>) returns (gs: seq<Segment>)
    requires s != [] && s[0] == Open && Run(s[1..], true).Done?
    requires BracketFree(b) && s[1..] == b + [Close] + rest
    requires Run(rest, false).Done? && Run(s[1..], true).out == Links(b) + Run(rest, false).out
    requires ValidSegments(gs') && Source(gs') == rest && Rendered(gs') == Run(rest, false).out
    ensures ValidSegments(gs) && Source(gs) == s && Rendered(gs) == Run(s, false).out
  {
    gs := [Bracketed(b)] + gs';
    ConsSegments(Bracketed(b), gs');
    BracketedSource(s, b, rest);
    assert s == [Open] + s[1..];
    RunCons(Open, s[1..], false);
  }

  lemma {:induction false} BracketedSource(s: string, b: string, rest: string)
    requires s != [] && s[0] == Open && s[1..] == b + [Close] + rest
    ensures SegmentSource(Bracketed(b)) + rest == s
  {
    assert [Open] + b + [Close] + rest == [Open] + (b + [Close] + rest);
    assert s == [Open] + s[1..];
  }

  lemma {:induction false} VerbatimStep(s: string, gs': seq<Segment>) returns (gs: seq<Segment>)
    requires s != [] && s[0] != Open && Run(s, false).Done?
    requires ValidSegments(gs') && Source(gs') == s[1..] && Rendered(gs') == Run(s[1..], false).out
    ensures ValidSegments(gs) && Source(gs) == s && Rendered(gs) == Run(s, false).out
  {
    gs := [Verbatim(s[0])] + gs';
    ConsSegments(Verbatim(s[0]), gs');
    assert s == [s[0]] + s[1..];
  }

  /** Conversely, every successful rewrite comes from a well-formed reading of
      the input and is that reading's intended rewrite. */
  lemma {:induction false} LinkifySucceeds(s: string) returns (gs: seq<Segment>)
    requires Linkify(s).Ok?
    ensures ValidSegments(gs) && Source(gs) == s && Rendered(gs) == Linkify(s).value
  {
    gs := RunDone(s);
  }

  // ---------------------------------------------------------------------------
  // Pairs

  /** `lenticular_to_link` on a pair: both sides are rewritten; it succeeds
      exactly when both do, and otherwise reports the left side's errors
      followed by the right side's. */
  function LinkifyPair<A, B>(a: A, b: B, fa: A -> Result<A>, fb: B -> Result<B>): (r: Result<(A, B)>)
    ensures r.Ok? <==> fa(a).Ok? && fb(b).Ok?
    ensures r.Ok? ==> r.value == (fa(a).value, fb(b).value)
    ensures Errors(r) == Errors(fa(a)) + Errors(fb(b))
  {
    match (fa(a), fb(b))
    case (Ok(a'), Ok(b')) => Ok((a', b'))
    case (Ok(_), Err(e)) => Err(e)
    case (Err(e), Ok(_)) => Err(e)
    case (Err(e), Err(e')) => Err(e + e')
  }

  // ---------------------------------------------------------------------------
  // Sequences

  /** Errors of every element, in index order. */
  function AllErrors<T>(xs: seq<T>, f: T -> Result<T>): seq<Error>
    decreases |xs|
  {
    if xs == [] then [] else AllErrors(xs[..|xs| - 1], f) + Errors(f(xs[|xs| - 1]))
  }

  /** Rewritten values of the elements that succeeded, in index order. */
  function Successes<T>(xs: seq<T>, f: T -> Result<T>): seq<T>
    decreases |xs|
  {
    if xs == [] then []
    else
      var r := f(xs[|xs| - 1]);
      Successes(xs[..|xs| - 1], f) + (if r.Ok? then [r.value] else [])
  }

  /** `lenticular_to_link` on a `Vec`. */
  function LinkifySeq<T>(xs: seq<T>, f: T -> Result<T>): Result<seq<T>> {
    var errors := AllErrors(xs, f);
    if errors == [] then Ok(Successes(xs, f)) else Err(errors)
  }

  /** The loop of the `Vec` implementation. */
  method LenticularToLinkSeq<T>(xs: seq<T>, f: T -> Result<T>) returns (r: Result<seq<T>>)
    ensures r == LinkifySeq(xs, f)
  {
    var ans := [];
    var errors := [];
    for i := 0 to |xs|
      invariant ans == Successes(xs[..i], f)
      invariant errors == AllErrors(xs[..i], f)
    {
      assert xs[..i + 1][..i] == xs[..i];
      match f(xs[i]) {
        case Ok(l) => ans := ans + [l];
        case Err(e) => errors := errors + e;
      }
    }
    assert xs[..|xs|] == xs;
    if errors == [] {
      r := Ok(ans);
    } else {
      r := Err(errors);
    }
  }

  /** Every failure `f` produces on `xs` reports at least one error (true of
      every rewrite in this module). */
  predicate ReportsFailures<T>(xs: seq<T>, f: T -> Result<T>) {
    forall i :: 0 <= i < |xs| ==> (f(xs[i]).Err? ==> f(xs[i]).errors != [])
  }

  lemma {:induction false} AllErrorsEmpty<T>(xs: seq<T>, f: T -> Result<T>)
    requires ReportsFailures(xs, f)
    ensures AllErrors(xs, f) == [] <==> forall i :: 0 <= i < |xs| ==> f(xs[i]).Ok?
    decreases |xs|
  {
    if xs != [] {
      var init := xs[..|xs| - 1];
      assert ReportsFailures(init, f) by {
        forall i | 0 <= i < |init| ensures init[i] == xs[i] { }
      }
      AllErrorsEmpty(init, f);
      assert forall i :: 0 <= i < |init| ==> init[i] == xs[i];
    }
  }

  lemma {:induction false} SuccessesAll<T>(xs: seq<T>, f: T -> Result<T>)
    requires forall i :: 0 <= i < |xs| ==> f(xs[i]).Ok?
    ensures |Successes(xs, f)| == |xs|
    ensures forall i :: 0 <= i < |xs| ==> Successes(xs, f)[i] == f(xs[i]).value
    decreases |xs|
  {
    if xs != [] {
      var init := xs[..|xs| - 1];
      assert forall i :: 0 <= i < |init| ==> init[i] == xs[i];
      SuccessesAll(init, f);
    }
  }

  /** A sequence succeeds exactly when every element does, and then element
      `i` of the result is the rewrite of element `i`. */
  lemma {:induction false} LinkifySeqOk<T>(xs: seq<T>, f: T -> Result<T>)
    requires ReportsFailures(xs, f)
    ensures LinkifySeq(xs, f).Ok? <==> forall i :: 0 <= i < |xs| ==> f(xs[i]).Ok?
    ensures LinkifySeq(xs, f).Ok? ==>
              |LinkifySeq(xs, f).value| == |xs| &&
              forall i :: 0 <= i < |xs| ==> LinkifySeq(xs, f).value[i] == f(xs[i]).value
  {
    AllErrorsEmpty(xs, f);
    if forall i :: 0 <= i < |xs| ==> f(xs[i]).Ok? {
      SuccessesAll(xs, f);
    }
  }

  /** The strings of `xs` that fail, in order. */
  function Failing(xs: seq<string>): seq<string>
    decreases |xs|
  {
    if xs == [] then []
    else Failing(xs[..|xs| - 1]) + (if Linkify(xs[|xs| - 1]).Err? then [xs[|xs| - 1]] else [])
  }

  function Sources(es: seq<Error>): seq<string>
    decreases |es|
  {
    if es == [] then [] else Sources(es[..|es| - 1]) + [es[|es| - 1].source]
  }

  lemma {:induction false} SourcesAppend(a: seq<Error>, b: seq<Error>)
    ensures Sources(a + b) == Sources(a) + Sources(b)
    decreases |b|
  {
    if b == [] {
      assert a + b == a;
    } else {
      assert (a + b)[..|a + b| - 1] == a + b[..|b| - 1];
      SourcesAppend(a, b[..|b| - 1]);
    }
  }

  /** For a `Vec<String>`, the errors name the failing strings, one error per
      failing string, in index order. */
  lemma {:induction false} LinkifySeqOfStrings(xs: seq<string>)
    ensures Sources(AllErrors(xs, Linkify)) == Failing(xs)
    ensures |AllErrors(xs, Linkify)| == |Failing(xs)|
    decreases |xs|
  {
    if xs != [] {
      var init := xs[..|xs| - 1];
      var last := Linkify(xs[|xs| - 1]);
      LinkifySeqOfStrings(init);
      SourcesAppend(AllErrors(init, Linkify), Errors(last));
      if last.Err? {
        assert Sources(last.errors) == Sources([]) + [last.errors[0].source];
      }
    }
  }

  lemma {:induction false} AllErrorsAppend<T>(xs: seq<T>, ys: seq<T>, f: T -> Result<T>)
    ensures AllErrors(xs + ys, f) == AllErrors(xs, f) + AllErrors(ys, f)
    ensures Successes(xs + ys, f) == Successes(xs, f) + Successes(ys, f)
    decreases |ys|
  {
    if ys == [] {
      assert xs + ys == xs;
    } else {
      var ys', r := ys[..|ys| - 1], f(ys[|ys| - 1]);
      assert (xs + ys)[..|xs + ys| - 1] == xs + ys';
      assert (xs + ys)[|xs + ys| - 1] == ys[|ys| - 1];
      AllErrorsAppend(xs, ys', f);
      Associative(AllErrors(xs, f), AllErrors(ys', f), Errors(r));
      Associative(Successes(xs, f), Successes(ys', f), if r.Ok? then [r.value] else []);
    }
  }

  // ---------------------------------------------------------------------------
  // Structures: what rewriting a whole structure means

  /** A string after a successful rewrite (left as it is otherwise). */
  function Rewritten(s: string): string {
    match Linkify(s)
    case Ok(v) => v
    case Err(_) => s
  }

  /** The outcome of rewriting a structure whose strings, in traversal order,
      are `strs` and whose every string rewritten gives `rewritten`: success
      exactly when every string succeeds, else every string's errors in order. */
  function Expected<T>(strs: seq<string>, rewritten: T): Result<T> {
    var errors := AllErrors(strs, Linkify);
    if errors == [] then Ok(rewritten) else Err(errors)
  }

  /** The strings of every element, in index order. */
  function StringsOf<T>(xs: seq<T>, strs: T -> seq<string>): seq<string>
    decreases |xs|
  {
    if xs == [] then [] else StringsOf(xs[..|xs| - 1], strs) + strs(xs[|xs| - 1])
  }

  function MapSeq<T>(xs: seq<T>, rw: T -> T): (r: seq<T>)
    ensures |r| == |xs| && forall i :: 0 <= i < |xs| ==> r[i] == rw(xs[i])
  {
    seq(|xs|, i requires 0 <= i < |xs| => rw(xs[i]))
  }

  lemma {:induction false} MapSeqSnoc<T>(xs: seq<T>, rw: T -> T)
    requires xs != []
    ensures MapSeq(xs, rw) == MapSeq(xs[..|xs| - 1], rw) + [rw(xs[|xs| - 1])]
  {
  }

  function Single(s: string): seq<string> {
    [s]
  }

  /** `?` followed by `Ok(..)`: the errors pass through unchanged, a success
      is rebuilt with `wrap`. */
  function Rebuild<A, B>(r: Result<A>, wrap: A -> B): Result<B> {
    match r
    case Ok(v) => Ok(wrap(v))
    case Err(e) => Err(e)
  }

  lemma {:induction false} RebuildExpected<A, B>(r: Result<A>, wrap: A -> B, strs: seq<string>, m: A)
    requires r == Expected(strs, m)
    ensures Rebuild(r, wrap) == Expected(strs, wrap(m))
  {
  }

  lemma {:induction false} LinkifyExpected(s: string)
    ensures Linkify(s) == Expected([s], Rewritten(s))
  {
    assert [s][..0] == [];
    assert AllErrors([s], Linkify) == Errors(Linkify(s));
  }

  /** A pair of structures rewrites like the structure whose strings are the
      left side's followed by the right side's. */
  lemma {:induction false} PairExpected<A, B>(a: A, b: B, fa: A -> Result<A>, fb: B -> Result<B>,
                           sa: seq<string>, sb: seq<string>, ma: A, mb: B)
    requires fa(a) == Expected(sa, ma) && fb(b) == Expected(sb, mb)
    ensures LinkifyPair(a, b, fa, fb) == Expected(sa + sb, (ma, mb))
  {
    AllErrorsAppend(sa, sb, Linkify);
  }

  lemma {:induction false} SeqExpectedAux<T>(xs: seq<T>, f: T -> Result<T>, strs: T -> seq<string>, rw: T -> T)
    requires forall i :: 0 <= i < |xs| ==> f(xs[i]) == Expected(strs(xs[i]), rw(xs[i]))
    ensures AllErrors(xs, f) == AllErrors(StringsOf(xs, strs), Linkify)
    ensures AllErrors(xs, f) == [] ==> Successes(xs, f) == MapSeq(xs, rw)
    decreases |xs|
  {
    if xs != [] {
      var init, last := xs[..|xs| - 1], xs[|xs| - 1];
      assert forall i :: 0 <= i < |init| ==> init[i] == xs[i];
      SeqExpectedAux(init, f, strs, rw);
      AllErrorsAppend(StringsOf(init, strs), strs(last), Linkify);
      if AllErrors(xs, f) == [] {
        MapSeqSnoc(xs, rw);
      }
    }
  }

  /** A sequence of structures rewrites like the structure whose strings are
      the elements' strings in index order. */
  lemma {:induction false} SeqExpected<T>(xs: seq<T>, f: T -> Result<T>, strs: T -> seq<string>, rw: T -> T)
    requires forall i :: 0 <= i < |xs| ==> f(xs[i]) == Expected(strs(xs[i]), rw(xs[i]))
    ensures LinkifySeq(xs, f) == Expected(StringsOf(xs, strs), MapSeq(xs, rw))
  {
    SeqExpectedAux(xs, f, strs, rw);
  }

  lemma {:induction false} StringsOfSingle(ss: seq<string>)
    ensures StringsOf(ss, Single) == ss
    decreases |ss|
  {
    if ss != [] {
      StringsOfSingle(ss[..|ss| - 1]);
    }
  }

  /** A `Vec<String>` rewrites string by string. */
  lemma {:induction false} LinkifyStrings(ss: seq<string>)
    ensures LinkifySeq(ss, Linkify) == Expected(ss, MapSeq(ss, Rewritten))
  {
    forall i | 0 <= i < |ss| ensures Linkify(ss[i]) == Expected(Single(ss[i]), Rewritten(ss[i])) {
      LinkifyExpected(ss[i]);
    }
    SeqExpected(ss, Linkify, Single, Rewritten);
    StringsOfSingle(ss);
  }

  /** What an `Expected` outcome says: success exactly when every string
      succeeds, with the rewritten structure; otherwise one error per failing
      string, naming the failing strings in order. */
  lemma {:induction false} ExpectedMeaning<T>(strs: seq<string>, rewritten: T)
    ensures Expected(strs, rewritten).Ok? <==> forall i :: 0 <= i < |strs| ==> Linkify(strs[i]).Ok?
    ensures Expected(strs, rewritten).Ok? ==> Expected(strs, rewritten).value == rewritten
    ensures Expected(strs, rewritten).Err? ==> Sources(Expected(strs, rewritten).errors) == Failing(strs)
  {
    AllErrorsEmpty(strs, Linkify);
    LinkifySeqOfStrings(strs);
  }
}
