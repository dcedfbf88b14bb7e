/**
 * Character classes and the Python `str` methods the translator relies on.
 *
 * Python's `isspace`, `isdigit`, `lower` and the regular-expression classes `\s`
 * and IGNORECASE are Unicode-aware; this model uses their ASCII behaviour.
 */
module Strings {
  import opened Wrappers

  /** `str.isspace()` restricted to ASCII: space, \t \n \v \f \r and \x1c-\x1f. */
  predicate IsSpace(c: char) {
    c == ' ' || (9 <= c as int <= 13) || (28 <= c as int <= 31)
  }

  /** The line boundaries of `str.splitlines()`. */
  predicate IsLineBreak(c: char) {
    (10 <= c as int <= 13) || (28 <= c as int <= 30) || c as int == 0x85
    || c as int == 0x2028 || c as int == 0x2029
  }

  predicate IsDigit(c: char) { '0' <= c <= '9' }

  predicate IsAlpha(c: char) { ('a' <= c <= 'z') || ('A' <= c <= 'Z') }

  /** `[A-Za-z_]` */
  predicate IsIdentStart(c: char) { IsAlpha(c) || c == '_' }

  /** `[A-Za-z0-9_]` */
  predicate IsIdentChar(c: char) { IsIdentStart(c) || IsDigit(c) }

  function LowerChar(c: char): char {
    if 'A' <= c <= 'Z' then (c as int + 32) as char else c
  }

  /** `str.lower()` on ASCII letters. */
  function Lower(s: string): (r: string)
    ensures |r| == |s|
    ensures forall i :: 0 <= i < |s| ==> r[i] == LowerChar(s[i])
  {
    if s == [] then [] else [LowerChar(s[0])] + Lower(s[1..])
  }

  /** `s.startswith(p)` */
  predicate StartsWith(s: string, p: string)
    ensures StartsWith(s, p) ==> |p| <= |s|
  {
    |p| == 0 || (|s| > 0 && s[0] == p[0] && StartsWith(s[1..], p[1..]))
  }

  /** `s.lower().startswith(p)`, for a lower-case `p`. */
  predicate StartsWithCI(s: string, p: string)
    ensures StartsWithCI(s, p) ==> |p| <= |s|
  {
    |p| == 0 || (|s| > 0 && LowerChar(s[0]) == p[0] && StartsWithCI(s[1..], p[1..]))
  }

  /** `s.endswith(p)` */
  predicate EndsWith(s: string, p: string) {
    |p| <= |s| && s[|s| - |p|..] == p
  }

  lemma {:induction false} StartsWithIsPrefix(s: string, p: string)
    ensures StartsWith(s, p) <==> |p| <= |s| && s[..|p|] == p
  {
    if 0 < |p| && 0 < |s| {
      StartsWithIsPrefix(s[1..], p[1..]);
      if |p| <= |s| {
        assert s[..|p|] == [s[0]] + s[1..][..|p| - 1];
        assert p == [p[0]] + p[1..];
      }
    }
  }

  lemma {:induction false} StartsWithCIIsPrefix(s: string, p: string)
    ensures StartsWithCI(s, p) <==> |p| <= |s| && Lower(s[..|p|]) == p
  {
    if 0 < |p| && 0 < |s| {
      StartsWithCIIsPrefix(s[1..], p[1..]);
      if |p| <= |s| {
        assert s[..|p|] == [s[0]] + s[1..][..|p| - 1];
        assert p == [p[0]] + p[1..];
      }
    }
  }

  /** A prefix that is already present stays present when text is appended. */
  lemma {:induction false} StartsWithAppend(s: string, t: string, p: string)
    requires StartsWith(s, p)
    ensures StartsWith(s + t, p)
  {
    if |p| > 0 {
      assert (s + t)[1..] == s[1..] + t;
      StartsWithAppend(s[1..], t, p[1..]);
    }
  }

  lemma {:induction false} StartsWithCIAppend(s: string, t: string, p: string)
    requires StartsWithCI(s, p)
    ensures StartsWithCI(s + t, p)
  {
    if |p| > 0 {
      assert (s + t)[1..] == s[1..] + t;
      StartsWithCIAppend(s[1..], t, p[1..]);
    }
  }

  /** A lower-case prefix is found case-insensitively at the front of any text that starts with it. */
  lemma {:induction false} StartsWithCIOf(pre: string, t: string)
    requires forall i :: 0 <= i < |pre| ==> LowerChar(pre[i]) == pre[i]
    ensures StartsWithCI(pre + t, pre)
    decreases |pre|
  {
    if pre != [] {
      assert (pre + t)[1..] == pre[1..] + t;
      StartsWithCIOf(pre[1..], t);
    }
  }

  /** A prefix whose lower-case form is `low` is found case-insensitively at the front of any text that starts with it. */
  lemma {:induction false} StartsWithCIFolded(pre: string, low: string, t: string)
    requires |pre| == |low| && forall i :: 0 <= i < |pre| ==> LowerChar(pre[i]) == low[i]
    ensures StartsWithCI(pre + t, low)
    decreases |pre|
  {
    if pre != [] {
      assert (pre + t)[1..] == pre[1..] + t;
      StartsWithCIFolded(pre[1..], low[1..], t);
    }
  }

  /** `str.lstrip()` */
  function LStrip(s: string): (r: string)
    ensures |r| <= |s|
    ensures r == [] || !IsSpace(r[0])
    ensures forall i :: 0 <= i < |s| - |r| ==> IsSpace(s[i])
  {
    if s != [] && IsSpace(s[0]) then LStrip(s[1..]) else s
  }

  /** `str.rstrip()` */
  function RStrip(s: string): (r: string)
    ensures |r| <= |s|
    ensures r == [] || !IsSpace(r[|r| - 1])
    ensures forall i :: |r| <= i < |s| ==> IsSpace(s[i])
  {
    if s != [] && IsSpace(s[|s| - 1]) then RStrip(s[..|s| - 1]) else s
  }

  lemma {:induction false} LStripIsSuffix(s: string)
    ensures LStrip(s) == s[|s| - |LStrip(s)|..]
  {
    if s != [] && IsSpace(s[0]) {
      LStripIsSuffix(s[1..]);
      assert s[1..][|s[1..]| - |LStrip(s[1..])|..] == s[|s| - |LStrip(s)|..];
    }
  }

  lemma {:induction false} RStripIsPrefix(s: string)
    ensures RStrip(s) == s[..|RStrip(s)|]
  {
    if s != [] && IsSpace(s[|s| - 1]) {
      RStripIsPrefix(s[..|s| - 1]);
      assert s[..|s| - 1][..|RStrip(s)|] == s[..|RStrip(s)|];
    }
  }

  /** `str.strip()` */
  function Strip(s: string): string {
    RStrip(LStrip(s))
  }

  /** Stripping only removes characters. */
  lemma StripKeeps(s: string, c: char)
    requires c !in s
    ensures c !in Strip(s)
  {
    var l := LStrip(s);
    LStripIsSuffix(s);
    RStripIsPrefix(l);
    assert forall i :: 0 <= i < |l| ==> l[i] == s[|s| - |l| + i];
  }

  /** Neither end of `s` is whitespace: `s.strip() == s`. */
  predicate Stripped(s: string) {
    s == [] || (!IsSpace(s[0]) && !IsSpace(s[|s| - 1]))
  }

  lemma StripIsStripped(s: string)
    ensures Stripped(Strip(s))
  {
    var l := LStrip(s);
    var r := RStrip(l);
    if r != [] {
      RStripIsPrefix(l);
      assert r[0] == l[0];
    }
  }

  lemma StrippedStrip(s: string)
    requires Stripped(s)
    ensures Strip(s) == s && LStrip(s) == s && RStrip(s) == s
  {
  }

  predicate AllSpace(s: string) {
    forall i :: 0 <= i < |s| ==> IsSpace(s[i])
  }

  lemma {:induction false} LStripSpaces(a: string, t: string)
    requires AllSpace(a)
    ensures LStrip(a + t) == LStrip(t)
  {
    if a != [] {
      assert (a + t)[0] == a[0];
      assert IsSpace(a[0]);
      assert (a + t)[1..] == a[1..] + t;
      assert LStrip(a + t) == LStrip(a[1..] + t);
      assert AllSpace(a[1..]) by {
        forall i | 0 <= i < |a[1..]| ensures IsSpace(a[1..][i]) { assert a[1..][i] == a[i + 1]; }
      }
      LStripSpaces(a[1..], t);
    } else {
      assert a + t == t;
    }
  }

  lemma {:induction false} RStripSpaces(t: string, b: string)
    requires AllSpace(b)
    ensures RStrip(t + b) == RStrip(t)
  {
    if b != [] {
      var n := |b| - 1;
      assert (t + b)[|t + b| - 1] == b[n];
      assert IsSpace(b[n]);
      assert (t + b)[..|t + b| - 1] == t + b[..n];
      assert RStrip(t + b) == RStrip(t + b[..n]);
      assert AllSpace(b[..n]) by {
        forall i | 0 <= i < n ensures IsSpace(b[..n][i]) { assert b[..n][i] == b[i]; }
      }
      RStripSpaces(t, b[..n]);
    } else {
      assert t + b == t;
    }
  }

  /** Stripping keeps the text between the first and the last non-space character. */
  lemma StripOfPadded(a: string, s: string, b: string)
    requires AllSpace(a) && AllSpace(b)
    requires Stripped(s)
    ensures Strip(a + s + b) == s
  {
    assert a + s + b == a + (s + b);
    LStripSpaces(a, s + b);
    if s != [] {
      assert (s + b)[0] == s[0];
    } else {
      assert s + b == b;
      LStripSpaces(b, []);
      assert b + [] == b;
    }
    RStripSpaces(s, b);
  }

  /** `sep.join(xs)` */
  /** Taking one more element of a sequence appends that element. */
  lemma TakeSnoc<T>(xs: seq<T>, i: nat)
    requires i < |xs|
    ensures xs[..i + 1] == xs[..i] + [xs[i]]
  {
  }

  /** Appending the head and then the tail appends the whole sequence. */
  lemma AppendHeadTail<T>(acc: seq<T>, xs: seq<T>)
    requires xs != []
    ensures acc + [xs[0]] + xs[1..] == acc + xs
  {
  }

  function Join(xs: seq<string>, sep: string): string {
    if |xs| == 0 then ""
    else if |xs| == 1 then xs[0]
    else xs[0] + sep + Join(xs[1..], sep)
  }

  /** Joining stripped, non-empty pieces gives stripped text, whatever the separator. */
  lemma {:induction false} StrippedJoin(xs: seq<string>, sep: string)
    requires forall x :: x in xs ==> x != [] && Stripped(x)
    ensures Stripped(Join(xs, sep))
    ensures |xs| > 0 ==> |Join(xs, sep)| > 0
  {
    if |xs| > 1 {
      forall x | x in xs[1..]
        ensures x != [] && Stripped(x)
      {
        assert x in xs;
      }
      StrippedJoin(xs[1..], sep);
      var head, rest := xs[0], Join(xs[1..], sep);
      assert head in xs;
      assert head != [] && !IsSpace(head[0]);
      assert rest != [] && !IsSpace(rest[|rest| - 1]);
      var j := Join(xs, sep);
      assert j == head + sep + rest;
      assert j[0] == head[0];
      assert j[|j| - 1] == rest[|rest| - 1];
    } else if |xs| == 1 {
      assert xs[0] in xs;
    }
  }

  /** A property of every character of the pieces and of the separator holds of every character of the join. */
  lemma {:induction false} JoinChars(xs: seq<string>, sep: string, P: char -> bool)
    requires forall x :: x in xs ==> forall i :: 0 <= i < |x| ==> P(x[i])
    requires forall i :: 0 <= i < |sep| ==> P(sep[i])
    ensures forall i :: 0 <= i < |Join(xs, sep)| ==> P(Join(xs, sep)[i])
  {
    if |xs| > 1 {
      assert xs[0] in xs && forall x :: x in xs[1..] ==> x in xs;
      JoinChars(xs[1..], sep, P);
      var rest := Join(xs[1..], sep);
      var j := Join(xs, sep);
      assert j == xs[0] + sep + rest;
      forall i | 0 <= i < |j| ensures P(j[i]) {
        if i < |xs[0]| {
          assert j[i] == xs[0][i];
        } else if i < |xs[0]| + |sep| {
          assert j[i] == sep[i - |xs[0]|];
        } else {
          assert j[i] == rest[i - |xs[0]| - |sep|];
        }
      }
    } else if |xs| == 1 {
      assert xs[0] in xs;
    }
  }

  function IndexOf(s: string, c: char): (r: Option<nat>)
    ensures r.None? <==> c !in s
    ensures r.Some? ==> r.value < |s| && s[r.value] == c && c !in s[..r.value]
  {
    if s == [] then None
    else if s[0] == c then Some(0)
    else
      match IndexOf(s[1..], c)
      case None => None
      case Some(k) =>
        assert s[..k + 1] == [s[0]] + s[1..][..k];
        Some(k + 1)
  }

  /** `s.split(c, 1)` for a `c` known to occur: the text before and after its first occurrence. */
  function SplitFirst(s: string, c: char): (r: (string, string))
    requires c in s
    ensures c !in r.0
    ensures s == r.0 + [c] + r.1
  {
    var k := IndexOf(s, c).value;
    assert s == s[..k] + [c] + s[k + 1..];
    (s[..k], s[k + 1..])
  }

  /** The first `c` of `a + [c] + b`, for an `a` without `c`, splits it into `a` and `b`. */
  lemma SplitFirstOf(a: string, c: char, b: string)
    requires c !in a
    ensures SplitFirst(a + [c] + b, c) == (a, b)
  {
    var t := a + [c] + b;
    IndexOfFirst(a, c, b);
    assert t[..|a|] == a && t[|a| + 1..] == b;
  }

  /** `s.split(c)` */
  function SplitOn(s: string, c: char): (r: seq<string>)
    ensures |r| >= 1
    ensures forall p :: p in r ==> c !in p
    decreases |s|
  {
    match IndexOf(s, c)
    case None => [s]
    case Some(k) => [s[..k]] + SplitOn(s[k + 1..], c)
  }

  /** Splitting and joining on the same character are inverse: `c.join(s.split(c)) == s`. */
  lemma {:induction false} JoinSplitOn(s: string, c: char)
    ensures Join(SplitOn(s, c), [c]) == s
    decreases |s|
  {
    var r := IndexOf(s, c);
    if r.Some? {
      var k := r.value;
      var rest := SplitOn(s[k + 1..], c);
      assert SplitOn(s, c) == [s[..k]] + rest;
      JoinSplitOn(s[k + 1..], c);
      assert ([s[..k]] + rest)[1..] == rest;
      assert Join([s[..k]] + rest, [c]) == s[..k] + [c] + Join(rest, [c]);
      assert s == s[..k] + [c] + s[k + 1..];
    }
  }

  /** The first `c` of `a + [c] + b`, for an `a` without `c`, stands right after `a`. */
  lemma {:induction false} IndexOfFirst(a: string, c: char, b: string)
    requires c !in a
    ensures IndexOf(a + [c] + b, c) == Some(|a|)
  {
    if a != [] {
      assert (a + [c] + b)[1..] == a[1..] + [c] + b;
      IndexOfFirst(a[1..], c, b);
    }
  }

  /** ... and in the other direction, for pieces that do not contain the separator. */
  lemma {:induction false} SplitOnJoin(xs: seq<string>, c: char)
    requires |xs| >= 1
    requires forall x :: x in xs ==> c !in x
    ensures SplitOn(Join(xs, [c]), c) == xs
  {
    if |xs| > 1 {
      var s := Join(xs, [c]);
      assert s == xs[0] + [c] + Join(xs[1..], [c]);
      IndexOfFirst(xs[0], c, Join(xs[1..], [c]));
      assert s[..|xs[0]|] == xs[0];
      assert s[|xs[0]| + 1..] == Join(xs[1..], [c]);
      SplitOnJoin(xs[1..], c);
    } else {
      assert Join(xs, [c]) == xs[0];
    }
  }

  /** `sub in s` */
  predicate Contains(s: string, sub: string)
    decreases |s|
  {
    StartsWith(s, sub) || (|s| > 0 && Contains(s[1..], sub))
  }

  // ---------------------------------------------------------------------------
  // Integers as text

  predicate AllDigits(s: string) {
    forall i :: 0 <= i < |s| ==> IsDigit(s[i])
  }

  /** `str.isdigit()` (ASCII): non-empty and made of digits. */
  predicate IsDigitString(s: string) {
    |s| > 0 && AllDigits(s)
  }

  function DigitValue(c: char): nat
    requires IsDigit(c)
  {
    c as int - '0' as int
  }

  function DigitChar(d: nat): (c: char)
    requires d < 10
    ensures IsDigit(c) && DigitValue(c) == d
  {
    ('0' as int + d) as char
  }

  /** The value of a decimal digit string, read left to right. */
  function DigitsValue(s: string): nat
    requires AllDigits(s)
  {
    if s == [] then 0 else DigitsValue(s[..|s| - 1]) * 10 + DigitValue(s[|s| - 1])
  }

  /** `str(n)` for a natural number. */
  function NatToString(n: nat): (r: string)
    ensures IsDigitString(r) && DigitsValue(r) == n
    ensures r[0] != '0' || n == 0
  {
    if n < 10 then [DigitChar(n)]
    else
      var p := NatToString(n / 10);
      var r := p + [DigitChar(n % 10)];
      assert r[..|r| - 1] == p;
      r
  }

  /** `str(i)` for an integer. */
  function IntToString(i: int): (r: string)
    ensures |r| > 0
    ensures i >= 0 ==> IsDigitString(r) && DigitsValue(r) == i
    ensures i < 0 ==> r[0] == '-' && IsDigitString(r[1..]) && DigitsValue(r[1..]) == -i
  {
    if i < 0 then "-" + NatToString(-i) else NatToString(i)
  }

  /** Digits with single underscores between them, as `int()` accepts. */
  predicate UnderscoredDigits(s: string) {
    && |s| > 0 && IsDigit(s[0]) && IsDigit(s[|s| - 1])
    && (forall i :: 0 <= i < |s| ==> IsDigit(s[i]) || s[i] == '_')
    && (forall i :: 0 <= i < |s| - 1 ==> !(s[i] == '_' && s[i + 1] == '_'))
  }

  function DropUnderscores(s: string): (r: string)
    requires forall i :: 0 <= i < |s| ==> IsDigit(s[i]) || s[i] == '_'
    ensures AllDigits(r)
  {
    if s == [] then [] else (if s[0] == '_' then [] else [s[0]]) + DropUnderscores(s[1..])
  }

  /** Python's `int(s)` on a string: surrounding whitespace, an optional sign, decimal digits. */
  function PyInt(s: string): Option<int> {
    var t := Strip(s);
    var neg := |t| > 0 && t[0] == '-';
    var body := if |t| > 0 && (t[0] == '-' || t[0] == '+') then t[1..] else t;
    if UnderscoredDigits(body) then
      var v: int := DigitsValue(DropUnderscores(body));
      Some(if neg then -v else v)
    else None
  }

  /** Without underscores there is nothing to drop. */
  lemma {:induction false} DropUnderscoresOfDigits(s: string)
    requires AllDigits(s)
    ensures DropUnderscores(s) == s
  {
    if s != [] {
      assert AllDigits(s[1..]) by {
        forall i | 0 <= i < |s[1..]| ensures IsDigit(s[1..][i]) { assert s[1..][i] == s[i + 1]; }
      }
      DropUnderscoresOfDigits(s[1..]);
      assert s[0] != '_';
    }
  }

  /** `int(str(i)) == i` */
  lemma PyIntOfIntToString(i: int)
    ensures PyInt(IntToString(i)) == Some(i)
  {
    var t := IntToString(i);
    var body := if i < 0 then t[1..] else t;
    assert IsDigitString(body);
    assert !IsSpace(t[0]) && !IsSpace(t[|t| - 1]) by {
      assert IsDigit(body[|body| - 1]);
      assert t[|t| - 1] == body[|body| - 1];
    }
    StrippedStrip(t);
    assert (|t| > 0 && t[0] == '-') <==> i < 0;
    DropUnderscoresOfDigits(body);
  }

  // ---------------------------------------------------------------------------
  // Lines

  /** `s.splitlines()`: a trailing line boundary does not open an empty last line. */
  function SplitLines(s: string): seq<string> {
    LinesFrom(s, "")
  }

  function LinesFrom(s: string, cur: string): seq<string>
    decreases |s|
  {
    if s == [] then (if cur == [] then [] else [cur])
    else if IsLineBreak(s[0]) then
      [cur] + LinesFrom(if s[0] == '\r' && |s| > 1 && s[1] == '\n' then s[2..] else s[1..], [])
    else LinesFrom(s[1..], cur + [s[0]])
  }

  predicate NoLineBreak(l: string) {
    forall i :: 0 <= i < |l| ==> !IsLineBreak(l[i])
  }

  lemma {:induction false} LinesFromText(l: string, rest: string, cur: string)
    requires NoLineBreak(l)
    ensures LinesFrom(l + rest, cur) == LinesFrom(rest, cur + l)
  {
    if l != [] {
      assert (l + rest)[0] == l[0];
      assert (l + rest)[1..] == l[1..] + rest;
      assert !IsLineBreak(l[0]);
      assert LinesFrom(l + rest, cur) == LinesFrom(l[1..] + rest, cur + [l[0]]);
      assert NoLineBreak(l[1..]) by {
        forall i | 0 <= i < |l[1..]| ensures !IsLineBreak(l[1..][i]) {
          assert l[1..][i] == l[i + 1];
        }
      }
      LinesFromText(l[1..], rest, cur + [l[0]]);
      assert l == [l[0]] + l[1..];
      assert cur + [l[0]] + l[1..] == cur + l;
    } else {
      assert l + rest == rest;
      assert cur + l == cur;
    }
  }

  /** `("\n".join(ls) + "\n").splitlines() == ls` */
  lemma {:induction false} SplitJoinedLinesNewline(ls: seq<string>)
    requires |ls| >= 1
    requires forall l :: l in ls ==> NoLineBreak(l)
    ensures SplitLines(Join(ls, "\n") + "\n") == ls
  {
    JoinedLinesFrom(ls, "\n");
  }

  /** `"\n".join(ls).splitlines() == ls` when the last line is not empty. */
  lemma {:induction false} SplitJoinedLines(ls: seq<string>)
    requires |ls| >= 1 && ls[|ls| - 1] != []
    requires forall l :: l in ls ==> NoLineBreak(l)
    ensures SplitLines(Join(ls, "\n")) == ls
  {
    JoinedLinesFrom(ls, "");
    assert Join(ls, "\n") + "" == Join(ls, "\n");
  }

  lemma {:induction false} JoinedLinesFrom(ls: seq<string>, tail: string)
    requires |ls| >= 1
    requires forall l :: l in ls ==> NoLineBreak(l)
    requires tail == "\n" || (tail == "" && ls[|ls| - 1] != [])
    ensures LinesFrom(Join(ls, "\n") + tail, "") == ls
  {
    assert ls[0] in ls;
    if |ls| == 1 {
      assert Join(ls, "\n") == ls[0];
      LinesFromText(ls[0], tail, "");
      assert "" + ls[0] == ls[0];
      if tail == "\n" {
        assert LinesFrom("\n", ls[0]) == [ls[0]] + LinesFrom("", []);
      } else {
        assert ls[0] + tail == ls[0];
      }
    } else {
      var rest := Join(ls[1..], "\n") + tail;
      assert Join(ls, "\n") == ls[0] + "\n" + Join(ls[1..], "\n");
      assert Join(ls, "\n") + tail == ls[0] + ("\n" + rest);
      LinesFromText(ls[0], "\n" + rest, "");
      assert "" + ls[0] == ls[0];
      assert ("\n" + rest)[0] == '\n';
      assert ("\n" + rest)[1..] == rest;
      assert LinesFrom("\n" + rest, ls[0]) == [ls[0]] + LinesFrom(rest, []);
      assert ls[1..][|ls[1..]| - 1] == ls[|ls| - 1];
      JoinedLinesFrom(ls[1..], tail);
      assert ls == [ls[0]] + ls[1..];
    }
  }

  /** A line as `parse` keeps it: stripped, not blank, not a `#` comment, no line break. */
  predicate CleanLine(l: string) {
    l != [] && Stripped(l) && l[0] != '#' && NoLineBreak(l)
  }

  /**
   * `[ln.strip() for ln in lines]` followed by dropping blank and `#` lines.
   */
  function CleanLines(ls: seq<string>): (r: seq<string>)
    ensures forall l :: l in r ==> l != [] && Stripped(l) && l[0] != '#'
  {
    if ls == [] then []
    else
      var l := Strip(ls[0]);
      StripIsStripped(ls[0]);
      (if l != [] && l[0] != '#' then [l] else []) + CleanLines(ls[1..])
  }

  lemma {:induction false} CleanLinesOfClean(ls: seq<string>)
    requires forall l :: l in ls ==> CleanLine(l)
    ensures CleanLines(ls) == ls
  {
    if ls != [] {
      assert ls[0] in ls;
      var l := ls[0];
      assert CleanLine(l);
      StrippedStrip(l);
      assert Strip(l) == l;
      assert CleanLines(ls) == [l] + CleanLines(ls[1..]);
      assert forall m :: m in ls[1..] ==> m in ls;
      CleanLinesOfClean(ls[1..]);
      assert ls == [ls[0]] + ls[1..];
    }
  }

  /** Stripping a line without line breaks leaves none. */
  lemma StripNoLineBreak(s: string)
    requires NoLineBreak(s)
    ensures NoLineBreak(Strip(s))
  {
    var l := LStrip(s);
    LStripIsSuffix(s);
    RStripIsPrefix(l);
    assert forall i :: 0 <= i < |l| ==> l[i] == s[|s| - |l| + i];
  }

  /** `splitlines` never leaves a line boundary inside a line. */
  lemma {:induction false} LinesFromNoBreak(s: string, cur: string)
    requires NoLineBreak(cur)
    ensures forall l :: l in LinesFrom(s, cur) ==> NoLineBreak(l)
    decreases |s|
  {
    if s != [] {
      if IsLineBreak(s[0]) {
        LinesFromNoBreak(if s[0] == '\r' && |s| > 1 && s[1] == '\n' then s[2..] else s[1..], []);
      } else {
        assert NoLineBreak(cur + [s[0]]) by {
          forall i | 0 <= i < |cur + [s[0]]| ensures !IsLineBreak((cur + [s[0]])[i]) {
            if i < |cur| { assert (cur + [s[0]])[i] == cur[i]; }
          }
        }
        LinesFromNoBreak(s[1..], cur + [s[0]]);
      }
    }
  }

  /** The lines `parse` works on are all clean. */
  lemma {:induction false} CleanLinesAreClean(ls: seq<string>)
    requires forall l :: l in ls ==> NoLineBreak(l)
    ensures forall l :: l in CleanLines(ls) ==> CleanLine(l)
  {
    if ls != [] {
      assert ls[0] in ls;
      StripNoLineBreak(ls[0]);
      assert forall m :: m in ls[1..] ==> m in ls;
      CleanLinesAreClean(ls[1..]);
    }
  }

  /**
   * Re-splitting lines that were joined with "\n" and cleaning them again gives them
   * back: this is what lets a block parser hand its collected lines straight to the
   * line-level parser instead of joining and re-splitting them.
   */
  lemma ReparseJoinedLines(ls: seq<string>)
    requires |ls| >= 1
    requires forall l :: l in ls ==> CleanLine(l)
    ensures CleanLines(SplitLines(Join(ls, "\n"))) == ls
  {
    assert ls[|ls| - 1] in ls;
    SplitJoinedLines(ls);
    CleanLinesOfClean(ls);
  }
}
