/** Small text utilities the renderer relies on: the decimal rendering that
    `format!("{}", n)` performs on a `usize`, and joining lines with a separator
    (`Vec<String>::join`). */
module Text {

  predicate IsDigit(c: char) {
    '0' <= c <= '9'
  }

  predicate AllDigits(s: string) {
    forall i :: 0 <= i < |s| ==> IsDigit(s[i])
  }

  function DigitChar(d: nat): (c: char)
    requires d < 10
    ensures IsDigit(c) && c as int - '0' as int == d
  {
    "0123456789"[d]
  }

  function DigitValue(c: char): (d: nat)
    requires IsDigit(c)
    ensures d < 10
  {
    c as int - '0' as int
  }

  /** Prepending nothing leaves a sequence as it is. */
  lemma {:induction false} AppendEmpty<T>(s: seq<T>)
    ensures [] + s == s
  {
  }

  /** Concatenation regroups freely. */
  lemma {:induction false} Associative<T>(x: seq<T>, y: seq<T>, z: seq<T>)
    ensures x + (y + z) == (x + y) + z
  {
  }

  /** A non-empty sequence is its first element followed by the rest. */
  lemma {:induction false} ConsOf<T>(s: seq<T>, head: T, rest: seq<T>)
    requires |s| >= 1 && s[0] == head && s[1..] == rest
    ensures s == [head] + rest
  {
    assert s == [s[0]] + s[1..];
  }

  /** A five-part concatenation, regrouped to the right. */
  lemma {:induction false} RegroupRight<T>(a: seq<T>, b: seq<T>, c: seq<T>, d: seq<T>, e: seq<T>)
    ensures a + b + c + d + e == a + (b + (c + (d + e)))
  {
    Associative(c, d, e);
    Associative(b, c, d + e);
    Associative(a, b, c + (d + e));
    Associative(a + b, c, d + e);
    Associative(a + b + c, d, e);
  }

  /** The decimal digits of `n`, most significant first, without leading zeros. */
  function Decimal(n: nat): (s: string)
    ensures 1 <= |s| && AllDigits(s)
    ensures |s| > 1 ==> s[0] != '0'
    decreases n
  {
    if n < 10 then [DigitChar(n)] else Decimal(n / 10) + [DigitChar(n % 10)]
  }

  /** Reads a string of digits back as a number (the inverse of `Decimal`). */
  function ParseDecimal(s: string): nat
    requires AllDigits(s)
    decreases |s|
  {
    if s == [] then 0 else ParseDecimal(s[..|s| - 1]) * 10 + DigitValue(s[|s| - 1])
  }

  lemma {:induction false} DecimalRoundTrip(n: nat)
    ensures ParseDecimal(Decimal(n)) == n
    decreases n
  {
    if n >= 10 {
      DecimalRoundTrip(n / 10);
      var s := Decimal(n);
      assert s[..|s| - 1] == Decimal(n / 10);
    }
  }

  /** Distinct numbers print as distinct strings. */
  lemma {:induction false} DecimalInjective(m: nat, n: nat)
    requires Decimal(m) == Decimal(n)
    ensures m == n
  {
    DecimalRoundTrip(m);
    DecimalRoundTrip(n);
  }

  /** `lines.join(sep)`: the lines with `sep` between consecutive ones. */
  function Join(lines: seq<string>, sep: string): (s: string)
    ensures |lines| == 1 ==> s == lines[0]
    decreases |lines|
  {
    if |lines| == 0 then ""
    else if |lines| == 1 then lines[0]
    else lines[0] + sep + Join(lines[1..], sep)
  }

  /** Splits `s` at every occurrence of `c`; the partner of `Join`. */
  function SplitOn(s: string, c: char): (parts: seq<string>)
    ensures |parts| >= 1
    decreases |s|
  {
    if s == [] then [""]
    else
      var rest := SplitOn(s[1..], c);
      if s[0] == c then [""] + rest else [[s[0]] + rest[0]] + rest[1..]
  }

  lemma {:induction false} SplitOnFree(a: string, c: char, b: string)
    requires c !in a
    ensures SplitOn(a + b, c) == [a + SplitOn(b, c)[0]] + SplitOn(b, c)[1..]
    decreases |a|
  {
    if a != [] {
      assert (a + b)[1..] == a[1..] + b;
      SplitOnFree(a[1..], c, b);
      assert [a[0]] + (a[1..] + SplitOn(b, c)[0]) == a + SplitOn(b, c)[0];
    } else {
      var parts := SplitOn(b, c);
      assert a + b == b && a + parts[0] == parts[0];
      assert [parts[0]] + parts[1..] == parts;
    }
  }

  /** Splitting a join at the separator gives the lines back, provided no line
      contains the separator itself. */
  lemma {:induction false} SplitJoin(lines: seq<string>, c: char)
    requires |lines| >= 1
    requires forall i :: 0 <= i < |lines| ==> c !in lines[i]
    ensures SplitOn(Join(lines, [c]), c) == lines
    decreases |lines|
  {
    if |lines| == 1 {
      SplitOnFree(lines[0], c, "");
      assert lines[0] + "" == lines[0];
    } else {
      var rest := Join(lines[1..], [c]);
      SplitJoin(lines[1..], c);
      assert lines[0] + [c] + rest == lines[0] + ([c] + rest);
      SplitOnFree(lines[0], c, [c] + rest);
      assert ([c] + rest)[1..] == rest;
      assert SplitOn([c] + rest, c) == [""] + lines[1..];
      assert lines[0] + "" == lines[0];
      assert [lines[0]] + lines[1..] == lines;
    }
  }

  /** Splitting across one occurrence of `c` gives the parts on its left,
      then the parts on its right. */
  lemma {:induction false} SplitOnAt(a: string, c: char, b: string)
    ensures SplitOn(a + [c] + b, c) == SplitOn(a, c) + SplitOn(b, c)
    decreases |a|
  {
    var s := a + [c] + b;
    if a == [] {
      assert s == [c] + b && s[1..] == b;
    } else {
      assert s[0] == a[0] && s[1..] == a[1..] + [c] + b;
      SplitOnAt(a[1..], c, b);
      var left, right := SplitOn(a[1..], c), SplitOn(b, c);
      if a[0] == c {
        assert SplitOn(s, c) == [""] + (left + right);
        Associative([""], left, right);
      } else {
        assert (left + right)[0] == left[0] && (left + right)[1..] == left[1..] + right;
        Associative([[a[0]] + left[0]], left[1..], right);
      }
    }
  }

  /** Joining the parts back at `c` gives the string that was split. */
  lemma {:induction false} JoinSplit(s: string, c: char)
    ensures Join(SplitOn(s, c), [c]) == s
    decreases |s|
  {
    if s != [] {
      var rest := SplitOn(s[1..], c);
      JoinSplit(s[1..], c);
      if s[0] == c {
        assert ([""] + rest)[1..] == rest;
        assert s == [c] + s[1..];
      } else if |rest| == 1 {
        assert s == [s[0]] + s[1..];
      } else {
        var parts := [[s[0]] + rest[0]] + rest[1..];
        assert parts[1..] == rest[1..];
        assert Join(rest, [c]) == rest[0] + [c] + Join(rest[1..], [c]);
        assert s == [s[0]] + s[1..];
      }
    }
  }

  /** The parts of every line, split at `c`, one line after another. */
  function Pieces(lines: seq<string>, c: char): seq<string>
    decreases |lines|
  {
    if lines == [] then [] else SplitOn(lines[0], c) + Pieces(lines[1..], c)
  }

  /** Splitting joined lines at the separator splits every line on its own. */
  lemma {:induction false} SplitJoinPieces(lines: seq<string>, c: char)
    requires |lines| >= 1
    ensures SplitOn(Join(lines, [c]), c) == Pieces(lines, c)
    decreases |lines|
  {
    if |lines| == 1 {
      assert Pieces(lines[1..], c) == [];
    } else {
      SplitJoinPieces(lines[1..], c);
      SplitOnAt(lines[0], c, Join(lines[1..], [c]));
    }
  }
}
