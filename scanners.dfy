/**
 * The character-level splitters of the parser. Each one walks its input once,
 * keeping a little state (the text collected so far, whether it is inside
 * double quotes, whether the previous character was a backslash, bracket
 * depths). Each is specified by a step function over that state, folded over
 * the input by `Run`, and implemented by a method whose loop performs the
 * same steps.
 */
module Scanners {
  import opened Strings

  /** Feed the characters of `text` to `step`, one at a time, from `st`. */
  function Run<S>(step: (S, char) -> S, st: S, text: string): S
    decreases |text|
  {
    if text == [] then st else Run(step, step(st, text[0]), text[1..])
  }

  lemma {:induction false} RunAppend<S>(step: (S, char) -> S, st: S, a: string, b: string)
    ensures Run(step, st, a + b) == Run(step, Run(step, st, a), b)
    decreases |a|
  {
    if a != [] {
      assert (a + b)[0] == a[0];
      assert (a + b)[1..] == a[1..] + b;
      RunAppend(step, step(st, a[0]), a[1..], b);
    } else {
      assert a + b == b;
    }
  }

  /** One more character: how the loops below advance. */
  lemma RunNext<S>(step: (S, char) -> S, st: S, text: string, i: nat)
    requires i < |text|
    ensures Run(step, st, text[i..]) == Run(step, step(st, text[i]), text[i + 1..])
  {
    assert text[i..][0] == text[i];
    assert text[i..][1..] == text[i + 1..];
  }

  /** A property every step keeps holds after any run. */
  lemma {:induction false} RunInvariant<S>(step: (S, char) -> S, inv: S -> bool, st: S, text: string)
    requires inv(st)
    requires forall s, c :: inv(s) ==> inv(step(s, c))
    ensures inv(Run(step, st, text))
    decreases |text|
  {
    if text != [] {
      RunInvariant(step, inv, step(st, text[0]), text[1..]);
    }
  }

  /** Items collected so far are stripped and not empty. */
  predicate CleanItems(items: seq<string>) {
    forall t :: t in items ==> t != [] && Stripped(t)
  }

  /** The `flush()` helper: keep the stripped buffer if anything is left of it. */
  function Flush(items: seq<string>, buf: string): (r: seq<string>)
    ensures CleanItems(items) ==> CleanItems(r)
    ensures Strip(buf) == [] ==> r == items
    ensures Strip(buf) != [] ==> r == items + [Strip(buf)]
  {
    StripIsStripped(buf);
    var s := Strip(buf);
    if s != [] then items + [s] else items
  }

  // ---------------------------------------------------------------------------
  // `_split_tokens_preserving_groups`: whitespace outside quotes at parenthesis depth 0

  datatype TokState = TokState(tokens: seq<string>, buf: string, inQuotes: bool, escape: bool, depth: nat)

  const TokStart := TokState([], [], false, false, 0)

  function TokStep(st: TokState, ch: char): TokState {
    if st.escape then st.(buf := st.buf + [ch], escape := false)
    else if ch == '\\' then st.(buf := st.buf + [ch], escape := true)
    else if ch == '"' then st.(buf := st.buf + [ch], inQuotes := !st.inQuotes)
    else if st.inQuotes then st.(buf := st.buf + [ch])
    else
      var d := if ch == '(' then st.depth + 1 else if ch == ')' && st.depth > 0 then st.depth - 1 else st.depth;
      if IsSpace(ch) && d == 0 then st.(tokens := Flush(st.tokens, st.buf), buf := [], depth := d)
      else st.(buf := st.buf + [ch], depth := d)
  }

  predicate TokensClean(st: TokState) {
    CleanItems(st.tokens)
  }

  /** The tokens of `text`; every token is stripped and non-empty. */
  function SplitTokens(text: string): (r: seq<string>)
    ensures CleanItems(r)
  {
    RunInvariant(TokStep, TokensClean, TokStart, text);
    var st := Run(TokStep, TokStart, text);
    Flush(st.tokens, st.buf)
  }

  method SplitTokensPreservingGroups(text: string) returns (tokens: seq<string>)
    ensures tokens == SplitTokens(text)
  {
    tokens := [];
    var buf: string := [];
    var inQuotes := false;
    var escape := false;
    var depth: nat := 0;
    var i := 0;
    while i < |text|
      invariant 0 <= i <= |text|
      invariant Run(TokStep, TokState(tokens, buf, inQuotes, escape, depth), text[i..]) == Run(TokStep, TokStart, text)
    {
      RunNext(TokStep, TokState(tokens, buf, inQuotes, escape, depth), text, i);
      var ch := text[i];
      if escape {
        buf := buf + [ch];
        escape := false;
      } else if ch == '\\' {
        escape := true;
        buf := buf + [ch];
      } else if ch == '"' {
        inQuotes := !inQuotes;
        buf := buf + [ch];
      } else if !inQuotes {
        if ch == '(' {
          depth := depth + 1;
        } else if ch == ')' && depth > 0 {
          depth := depth - 1;
        }
        if IsSpace(ch) && depth == 0 {
          tokens := Flush(tokens, buf);
          buf := [];
        } else {
          buf := buf + [ch];
        }
      } else {
        buf := buf + [ch];
      }
      i := i + 1;
    }
    assert text[|text|..] == [];
    tokens := Flush(tokens, buf);
  }

  /** Whether `ch` ends the current token when the scanner is in quote mode `q`, escape mode `e` at depth `d`. */
  predicate TokSplits(q: bool, e: bool, d: nat, ch: char) {
    !e && !q && IsSpace(ch) && d == 0
  }

  /**
   * `t`, read from quote mode `q`, escape mode `e` and depth `d`, never ends a token
   * and leaves the scanner outside quotes, with no escape pending, at depth 0.
   */
  predicate TokGroupFrom(q: bool, e: bool, d: nat, t: string)
    decreases |t|
  {
    if t == [] then !q && !e && d == 0
    else
      var st := TokStep(TokState([], [], q, e, d), t[0]);
      !TokSplits(q, e, d, t[0]) && TokGroupFrom(st.inQuotes, st.escape, st.depth, t[1..])
  }

  /**
   * A token the splitter keeps whole: stripped, with every space inside quotes or
   * parentheses, every quote closed and every parenthesis matched, e.g. `a="x y"` or `f(a b)`.
   */
  predicate GroupToken(t: string) {
    t != [] && Stripped(t) && TokGroupFrom(false, false, 0, t)
  }

  /** No whitespace, quote, backslash or parenthesis: a token that splits as itself. */
  predicate PlainToken(t: string) {
    t != [] && forall i :: 0 <= i < |t| ==> !IsSpace(t[i]) && t[i] !in "\"\\()"
  }

  lemma {:induction false} PlainGroupFrom(t: string)
    requires forall i :: 0 <= i < |t| ==> !IsSpace(t[i]) && t[i] !in "\"\\()"
    ensures TokGroupFrom(false, false, 0, t)
    decreases |t|
  {
    if t != [] {
      assert TokStep(TokState([], [], false, false, 0), t[0]) == TokState([], [t[0]], false, false, 0);
      PlainGroupFrom(t[1..]);
    }
  }

  /** Plain tokens are group tokens. */
  lemma PlainTokenIsGroup(t: string)
    requires PlainToken(t)
    ensures GroupToken(t)
  {
    PlainGroupFrom(t);
    assert Stripped(t) by { assert !IsSpace(t[0]) && !IsSpace(t[|t| - 1]); }
  }

  /** Quotes keep the spaces inside a token. */
  lemma QuotedTokenIsGroup()
    ensures GroupToken("a=\"x y\"")
  {
  }

  /** Quoted text free of quotes and backslashes, then the closing quote, then a group: one group. */
  lemma {:induction false} TokQuotedFrom(a: string, rest: string)
    requires forall i :: 0 <= i < |a| ==> a[i] != '"' && a[i] != '\\'
    requires TokGroupFrom(false, false, 0, rest)
    ensures TokGroupFrom(true, false, 0, a + ("\"" + rest))
    decreases |a|
  {
    if a == [] {
      assert a + ("\"" + rest) == "\"" + rest;
      assert ("\"" + rest)[1..] == rest;
    } else {
      assert (a + ("\"" + rest))[1..] == a[1..] + ("\"" + rest);
      TokQuotedFrom(a[1..], rest);
    }
  }

  /** Characters the token splitter passes over, then a group: one group. */
  lemma {:induction false} TokPlainFrom(pre: string, rest: string)
    requires forall i :: 0 <= i < |pre| ==> !IsSpace(pre[i]) && pre[i] !in "\"\\()"
    requires TokGroupFrom(false, false, 0, rest)
    ensures TokGroupFrom(false, false, 0, pre + rest)
    decreases |pre|
  {
    if pre == [] {
      assert pre + rest == rest;
    } else {
      assert TokStep(TokState([], [], false, false, 0), pre[0]) == TokState([], [pre[0]], false, false, 0);
      assert (pre + rest)[1..] == pre[1..] + rest;
      TokPlainFrom(pre[1..], rest);
    }
  }

  /** `key="text"` with a plain key and text free of quotes and backslashes is kept whole, spaces and all. */
  lemma QuotedPairIsToken(k: string, a: string)
    requires k != [] && forall i :: 0 <= i < |k| ==> !IsSpace(k[i]) && k[i] !in "\"\\()"
    requires forall i :: 0 <= i < |a| ==> a[i] != '"' && a[i] != '\\'
    ensures GroupToken(k + "=" + ("\"" + a + "\""))
  {
    var q := "\"" + a + "\"";
    var t := k + "=" + q;
    assert TokGroupFrom(false, false, 0, []);
    TokQuotedFrom(a, []);
    assert a + ("\"" + []) == a + "\"";
    assert q[1..] == a + "\"";
    assert TokGroupFrom(false, false, 0, q);
    var pre := k + "=";
    assert forall i :: 0 <= i < |pre| ==> !IsSpace(pre[i]) && pre[i] !in "\"\\()" by {
      forall i | 0 <= i < |pre| ensures !IsSpace(pre[i]) && pre[i] !in "\"\\()" {
        if i < |k| { assert pre[i] == k[i]; }
      }
    }
    TokPlainFrom(pre, q);
    assert t[0] == k[0] && t[|t| - 1] == '"';
  }

  /** The token scan over one character and then `rest`. */
  lemma TokGroupCons(q: bool, e: bool, d: nat, c: char, rest: string)
    ensures var st := TokStep(TokState([], [], q, e, d), c);
            TokGroupFrom(q, e, d, [c] + rest)
            == (!TokSplits(q, e, d, c) && TokGroupFrom(st.inQuotes, st.escape, st.depth, rest))
  {
    assert ([c] + rest)[0] == c && ([c] + rest)[1..] == rest;
  }

  /** Inside parentheses, text without quotes, backslashes or parentheses leaves the scan where it was, spaces included. */
  lemma {:induction false} TokNestedFrom(d: nat, a: string, rest: string)
    requires d > 0
    requires forall i :: 0 <= i < |a| ==> a[i] !in "\"\\()"
    requires TokGroupFrom(false, false, d, rest)
    ensures TokGroupFrom(false, false, d, a + rest)
    decreases |a|
  {
    if a == [] {
      assert a + rest == rest;
    } else {
      TokNestedFrom(d, a[1..], rest);
      assert a[1..] + rest == (a + rest)[1..];
      assert a[0] !in "\"\\()";
      TokGroupCons(false, false, d, a[0], a[1..] + rest);
      assert [a[0]] + (a[1..] + rest) == a + rest;
    }
  }

  /** A plain name and then parentheses round any text without quotes, backslashes or parentheses is kept whole, spaces and all. */
  lemma CalledTokenIsGroup(f: string, a: string)
    requires f != [] && forall i :: 0 <= i < |f| ==> !IsSpace(f[i]) && f[i] !in "\"\\()"
    requires forall i :: 0 <= i < |a| ==> a[i] !in "\"\\()"
    ensures GroupToken(f + "(" + a + ")")
  {
    var none: string := [];
    TokGroupCons(false, false, 1, ')', none);
    TokNestedFrom(1, a, [')'] + none);
    TokGroupCons(false, false, 0, '(', a + ([')'] + none));
    var x := ['('] + (a + ([')'] + none));
    TokPlainFrom(f, x);
    var t := f + "(" + a + ")";
    assert t == f + x;
    assert t[0] == f[0] && t[|t| - 1] == ')';
  }

  /** A step that does not end the token appends the character and moves the mode, whatever the tokens and buffer. */
  lemma TokStepInside(acc: seq<string>, buf: string, q: bool, e: bool, d: nat, ch: char)
    requires !TokSplits(q, e, d, ch)
    ensures var st := TokStep(TokState([], [], q, e, d), ch);
      TokStep(TokState(acc, buf, q, e, d), ch) == TokState(acc, buf + [ch], st.inQuotes, st.escape, st.depth)
  {
  }

  lemma {:induction false} TokRunGroup(acc: seq<string>, buf: string, q: bool, e: bool, d: nat, t: string)
    requires TokGroupFrom(q, e, d, t)
    ensures Run(TokStep, TokState(acc, buf, q, e, d), t) == TokState(acc, buf + t, false, false, 0)
    decreases |t|
  {
    if t != [] {
      var st := TokStep(TokState([], [], q, e, d), t[0]);
      TokStepInside(acc, buf, q, e, d, t[0]);
      TokRunGroup(acc, buf + [t[0]], st.inQuotes, st.escape, st.depth, t[1..]);
      assert buf + [t[0]] + t[1..] == buf + t;
    } else {
      assert buf + t == buf;
    }
  }

  lemma TokRunSeparator(acc: seq<string>, t: string)
    requires GroupToken(t)
    ensures Run(TokStep, TokState(acc, [], false, false, 0), t + " ") == TokState(acc + [t], [], false, false, 0)
  {
    RunAppend(TokStep, TokState(acc, [], false, false, 0), t, " ");
    TokRunGroup(acc, [], false, false, 0, t);
    assert [] + t == t;
    StrippedStrip(t);
    assert TokStep(TokState(acc, t, false, false, 0), ' ') == TokState(acc + [t], [], false, false, 0);
  }

  lemma {:induction false} TokRunJoin(acc: seq<string>, ts: seq<string>)
    requires |ts| >= 1
    requires forall t :: t in ts ==> GroupToken(t)
    ensures Run(TokStep, TokState(acc, [], false, false, 0), Join(ts, " "))
         == TokState(acc + ts[..|ts| - 1], ts[|ts| - 1], false, false, 0)
    decreases |ts|
  {
    assert ts[0] in ts;
    if |ts| == 1 {
      TokRunGroup(acc, [], false, false, 0, ts[0]);
      assert [] + ts[0] == ts[0];
      assert ts[..0] == [];
      assert acc + [] == acc;
    } else {
      var rest := Join(ts[1..], " ");
      assert Join(ts, " ") == (ts[0] + " ") + rest;
      RunAppend(TokStep, TokState(acc, [], false, false, 0), ts[0] + " ", rest);
      TokRunSeparator(acc, ts[0]);
      assert forall t :: t in ts[1..] ==> t in ts;
      TokRunJoin(acc + [ts[0]], ts[1..]);
      ShiftedPrefix(acc, ts);
    }
  }

  /** Group tokens joined by single spaces split back into the same tokens. */
  lemma SplitTokensJoin(ts: seq<string>)
    requires forall t :: t in ts ==> GroupToken(t)
    ensures SplitTokens(Join(ts, " ")) == ts
  {
    if ts != [] {
      TokRunJoin([], ts);
      var last := ts[|ts| - 1];
      assert last in ts;
      StrippedStrip(last);
      assert [] + ts[..|ts| - 1] == ts[..|ts| - 1];
      PrefixLast(ts);
    }
  }

  // ---------------------------------------------------------------------------
  // `_split_by_comma_respecting_groups`: commas outside quotes, parentheses and brackets

  datatype CommaState = CommaState(items: seq<string>, buf: string, inQuotes: bool, escape: bool, paren: nat, bracket: nat)

  const CommaStart := CommaState([], [], false, false, 0, 0)

  function CommaStep(st: CommaState, ch: char): CommaState {
    if st.escape then st.(buf := st.buf + [ch], escape := false)
    else if ch == '\\' then st.(buf := st.buf + [ch], escape := true)
    else if ch == '"' then st.(buf := st.buf + [ch], inQuotes := !st.inQuotes)
    else if st.inQuotes then st.(buf := st.buf + [ch])
    else
      var p := if ch == '(' then st.paren + 1 else if ch == ')' && st.paren > 0 then st.paren - 1 else st.paren;
      var b := if ch == '[' then st.bracket + 1 else if ch == ']' && st.bracket > 0 then st.bracket - 1 else st.bracket;
      if ch == ',' && p == 0 && b == 0 then st.(items := Flush(st.items, st.buf), buf := [])
      else st.(buf := st.buf + [ch], paren := p, bracket := b)
  }

  predicate CommaClean(st: CommaState) {
    CleanItems(st.items)
  }

  /** The comma-separated pieces of `text`; every piece is stripped and non-empty. */
  function SplitByComma(text: string): (r: seq<string>)
    ensures CleanItems(r)
  {
    RunInvariant(CommaStep, CommaClean, CommaStart, text);
    var st := Run(CommaStep, CommaStart, text);
    Flush(st.items, st.buf)
  }

  method SplitByCommaRespectingGroups(text: string) returns (items: seq<string>)
    ensures items == SplitByComma(text)
  {
    items := [];
    var buf: string := [];
    var inQuotes := false;
    var escape := false;
    var paren: nat := 0;
    var bracket: nat := 0;
    var i := 0;
    while i < |text|
      invariant 0 <= i <= |text|
      invariant Run(CommaStep, CommaState(items, buf, inQuotes, escape, paren, bracket), text[i..])
             == Run(CommaStep, CommaStart, text)
    {
      RunNext(CommaStep, CommaState(items, buf, inQuotes, escape, paren, bracket), text, i);
      ghost var next := CommaStep(CommaState(items, buf, inQuotes, escape, paren, bracket), text[i]);
      var ch := text[i];
      if escape {
        buf := buf + [ch];
        escape := false;
      } else if ch == '\\' {
        escape := true;
        buf := buf + [ch];
      } else if ch == '"' {
        inQuotes := !inQuotes;
        buf := buf + [ch];
      } else if !inQuotes {
        if ch == '(' {
          paren := paren + 1;
        } else if ch == ')' && paren > 0 {
          paren := paren - 1;
        } else if ch == '[' {
          bracket := bracket + 1;
        } else if ch == ']' && bracket > 0 {
          bracket := bracket - 1;
        }
        if ch == ',' && paren == 0 && bracket == 0 {
          items := Flush(items, buf);
          buf := [];
        } else {
          buf := buf + [ch];
        }
      } else {
        buf := buf + [ch];
      }
      assert CommaState(items, buf, inQuotes, escape, paren, bracket) == next;
      i := i + 1;
    }
    assert text[|text|..] == [];
    items := Flush(items, buf);
  }

  /** Whether `ch` ends the current piece in quote mode `q`, escape mode `e`, paren depth `p` and bracket depth `b`. */
  predicate CommaSplits(q: bool, e: bool, p: nat, b: nat, ch: char) {
    !e && !q && ch == ',' && p == 0 && b == 0
  }

  /**
   * `t`, read from the given mode, never ends a piece and leaves the scanner outside
   * quotes, with no escape pending, at paren and bracket depth 0.
   */
  predicate CommaGroupFrom(q: bool, e: bool, p: nat, b: nat, t: string)
    decreases |t|
  {
    if t == [] then !q && !e && p == 0 && b == 0
    else
      var st := CommaStep(CommaState([], [], q, e, p, b), t[0]);
      !CommaSplits(q, e, p, b, t[0]) && CommaGroupFrom(st.inQuotes, st.escape, st.paren, st.bracket, t[1..])
  }

  /**
   * A piece the splitter keeps whole: stripped, with every comma inside quotes, parentheses
   * or brackets, every quote closed and every group matched, e.g. `f(a, b)` or `["x", "y"]`.
   */
  predicate GroupPiece(t: string) {
    t != [] && Stripped(t) && CommaGroupFrom(false, false, 0, 0, t)
  }

  /** A piece without the characters the comma splitter treats specially. */
  predicate PlainPiece(t: string) {
    t != [] && Stripped(t) && forall i :: 0 <= i < |t| ==> t[i] !in ",\"\\()[]"
  }

  lemma {:induction false} PlainCommaGroupFrom(t: string)
    requires forall i :: 0 <= i < |t| ==> t[i] !in ",\"\\()[]"
    ensures CommaGroupFrom(false, false, 0, 0, t)
    decreases |t|
  {
    if t != [] {
      assert CommaStep(CommaState([], [], false, false, 0, 0), t[0]) == CommaState([], [t[0]], false, false, 0, 0);
      PlainCommaGroupFrom(t[1..]);
    }
  }

  /** Plain pieces are group pieces. */
  lemma PlainPieceIsGroup(t: string)
    requires PlainPiece(t)
    ensures GroupPiece(t)
  {
    PlainCommaGroupFrom(t);
  }

  /** Quoted text free of quotes and backslashes, then the closing quote, then a group: one group. */
  lemma {:induction false} CommaQuotedFrom(a: string, rest: string)
    requires forall i :: 0 <= i < |a| ==> a[i] != '"' && a[i] != '\\'
    requires CommaGroupFrom(false, false, 0, 0, rest)
    ensures CommaGroupFrom(true, false, 0, 0, a + ("\"" + rest))
    decreases |a|
  {
    if a == [] {
      assert a + ("\"" + rest) == "\"" + rest;
      assert ("\"" + rest)[1..] == rest;
    } else {
      assert (a + ("\"" + rest))[1..] == a[1..] + ("\"" + rest);
      CommaQuotedFrom(a[1..], rest);
    }
  }

  /** Characters the comma splitter passes over, then a group: one group. */
  lemma {:induction false} CommaPlainFrom(pre: string, rest: string)
    requires forall i :: 0 <= i < |pre| ==> pre[i] !in ",\"\\()[]"
    requires CommaGroupFrom(false, false, 0, 0, rest)
    ensures CommaGroupFrom(false, false, 0, 0, pre + rest)
    decreases |pre|
  {
    if pre == [] {
      assert pre + rest == rest;
    } else {
      assert CommaStep(CommaState([], [], false, false, 0, 0), pre[0]) == CommaState([], [pre[0]], false, false, 0, 0);
      assert (pre + rest)[1..] == pre[1..] + rest;
      CommaPlainFrom(pre[1..], rest);
    }
  }

  /** An opening quote, quoted text free of quotes and backslashes, the closing quote, then a group: one group. */
  lemma CommaStringThen(a: string, rest: string)
    requires forall i :: 0 <= i < |a| ==> a[i] != '"' && a[i] != '\\'
    requires CommaGroupFrom(false, false, 0, 0, rest)
    ensures CommaGroupFrom(false, false, 0, 0, "\"" + (a + ("\"" + rest)))
  {
    CommaQuotedFrom(a, rest);
    assert ("\"" + (a + ("\"" + rest)))[1..] == a + ("\"" + rest);
  }

  /** The comma groups of `"a"=="b"`, written right to left. */
  lemma QuotedCaseGroup(a: string, b: string)
    requires forall i :: 0 <= i < |a| ==> a[i] != '"' && a[i] != '\\'
    requires forall i :: 0 <= i < |b| ==> b[i] != '"' && b[i] != '\\'
    ensures CommaGroupFrom(false, false, 0, 0, "\"" + (a + ("\"" + ("==" + ("\"" + (b + ("\"" + [])))))))
  {
    var none: string := [];
    assert CommaGroupFrom(false, false, 0, 0, none);
    CommaStringThen(b, none);
    var right := "\"" + (b + ("\"" + none));
    CommaPlainFrom("==", right);
    CommaStringThen(a, "==" + right);
  }

  /** `"a"=="b"` with texts free of quotes and backslashes is kept whole, commas and all. */
  lemma QuotedCaseIsPiece(a: string, b: string)
    requires forall i :: 0 <= i < |a| ==> a[i] != '"' && a[i] != '\\'
    requires forall i :: 0 <= i < |b| ==> b[i] != '"' && b[i] != '\\'
    ensures GroupPiece("\"" + a + "\"" + "==" + ("\"" + b + "\""))
  {
    QuotedCaseGroup(a, b);
    var t := "\"" + a + "\"" + "==" + ("\"" + b + "\"");
    assert t == "\"" + (a + ("\"" + ("==" + ("\"" + (b + ("\"" + [])))))) by {
      assert "\"" + [] == "\"";
    }
    assert t[0] == '"' && t[|t| - 1] == '"';
  }

  /** The piece scan over one character and then `rest`. */
  lemma CommaGroupCons(q: bool, e: bool, p: nat, b: nat, c: char, rest: string)
    ensures var st := CommaStep(CommaState([], [], q, e, p, b), c);
            CommaGroupFrom(q, e, p, b, [c] + rest)
            == (!CommaSplits(q, e, p, b, c) && CommaGroupFrom(st.inQuotes, st.escape, st.paren, st.bracket, rest))
  {
    assert ([c] + rest)[0] == c && ([c] + rest)[1..] == rest;
  }

  /** Inside parentheses or brackets, text without quotes, escapes or group characters leaves the scan where it was. */
  lemma {:induction false} CommaNestedFrom(p: nat, b: nat, a: string, rest: string)
    requires p > 0 || b > 0
    requires forall i :: 0 <= i < |a| ==> a[i] !in "\"\\()[]"
    requires CommaGroupFrom(false, false, p, b, rest)
    ensures CommaGroupFrom(false, false, p, b, a + rest)
    decreases |a|
  {
    if a == [] {
      assert a + rest == rest;
    } else {
      CommaNestedFrom(p, b, a[1..], rest);
      assert a[1..] + rest == (a + rest)[1..];
      assert a[0] !in "\"\\()[]";
      CommaGroupCons(false, false, p, b, a[0], a[1..] + rest);
      assert [a[0]] + (a[1..] + rest) == a + rest;
    }
  }

  /** A name and then parentheses round any text without quotes, escapes or group characters is one piece: its commas do not split. */
  lemma CalledPieceIsGroup(f: string, a: string)
    requires f != [] && !IsSpace(f[0]) && forall i :: 0 <= i < |f| ==> f[i] !in ",\"\\()[]"
    requires forall i :: 0 <= i < |a| ==> a[i] !in "\"\\()[]"
    ensures GroupPiece(f + "(" + a + ")")
  {
    var none: string := [];
    CommaGroupCons(false, false, 1, 0, ')', none);
    CommaNestedFrom(1, 0, a, [')'] + none);
    CommaGroupCons(false, false, 0, 0, '(', a + ([')'] + none));
    var x := ['('] + (a + ([')'] + none));
    CommaPlainFrom(f, x);
    var t := f + "(" + a + ")";
    assert t == f + x;
    assert t[0] == f[0] && t[|t| - 1] == ')';
  }

  /** Brackets round any text without quotes, escapes or group characters make one piece: its commas do not split. */
  lemma BracketedPieceIsGroup(a: string)
    requires forall i :: 0 <= i < |a| ==> a[i] !in "\"\\()[]"
    ensures GroupPiece("[" + a + "]")
  {
    var none: string := [];
    CommaGroupCons(false, false, 0, 1, ']', none);
    CommaNestedFrom(0, 1, a, [']'] + none);
    CommaGroupCons(false, false, 0, 0, '[', a + ([']'] + none));
    var t := "[" + a + "]";
    assert t == ['['] + (a + ([']'] + none));
    assert t[0] == '[' && t[|t| - 1] == ']';
  }

  /** Quotes round any text without quotes or backslashes make one piece: its commas do not split. */
  lemma QuotedPieceIsGroup(a: string)
    requires forall i :: 0 <= i < |a| ==> a[i] != '"' && a[i] != '\\'
    ensures GroupPiece("\"" + a + "\"")
  {
    var none: string := [];
    assert CommaGroupFrom(false, false, 0, 0, none);
    CommaStringThen(a, none);
    var t := "\"" + a + "\"";
    assert t == "\"" + (a + ("\"" + none));
    assert t[0] == '"' && t[|t| - 1] == '"';
  }

  /** A step that does not end the piece appends the character and moves the mode, whatever the items and buffer. */
  lemma CommaStepInside(acc: seq<string>, buf: string, q: bool, e: bool, p: nat, b: nat, ch: char)
    requires !CommaSplits(q, e, p, b, ch)
    ensures var st := CommaStep(CommaState([], [], q, e, p, b), ch);
      CommaStep(CommaState(acc, buf, q, e, p, b), ch) == CommaState(acc, buf + [ch], st.inQuotes, st.escape, st.paren, st.bracket)
  {
  }

  lemma {:induction false} CommaRunGroup(acc: seq<string>, buf: string, q: bool, e: bool, p: nat, b: nat, t: string)
    requires CommaGroupFrom(q, e, p, b, t)
    ensures Run(CommaStep, CommaState(acc, buf, q, e, p, b), t) == CommaState(acc, buf + t, false, false, 0, 0)
    decreases |t|
  {
    if t != [] {
      var st := CommaStep(CommaState([], [], q, e, p, b), t[0]);
      CommaStepInside(acc, buf, q, e, p, b, t[0]);
      CommaRunGroup(acc, buf + [t[0]], st.inQuotes, st.escape, st.paren, st.bracket, t[1..]);
      assert buf + [t[0]] + t[1..] == buf + t;
    } else {
      assert buf + t == buf;
    }
  }

  /** The comma after a padded piece flushes the piece; the space after it starts the next buffer. */
  lemma CommaSeparatorSteps(acc: seq<string>, w: string, t: string)
    requires AllSpace(w) && GroupPiece(t)
    ensures CommaStep(CommaStep(CommaState(acc, w + t, false, false, 0, 0), ','), ' ')
         == CommaState(acc + [t], " ", false, false, 0, 0)
  {
    FlushPadded(acc, w, t);
    var st1 := CommaStep(CommaState(acc, w + t, false, false, 0, 0), ',');
    assert st1 == CommaState(acc + [t], [], false, false, 0, 0);
  }

  /** Running over two characters is two steps. */
  lemma RunTwo<S>(step: (S, char) -> S, st: S, a: char, b: char)
    ensures Run(step, st, [a, b]) == step(step(st, a), b)
  {
    assert [a, b][1..] == [b];
    assert Run(step, st, [a, b]) == Run(step, step(st, a), [b]);
    assert [b][1..] == [];
    assert Run(step, step(st, a), [b]) == Run(step, step(step(st, a), b), []);
  }

  /** The separator ", " after a piece: the piece is flushed and a space starts the next buffer. */
  lemma CommaRunSeparator(acc: seq<string>, w: string, t: string)
    requires AllSpace(w) && GroupPiece(t)
    ensures Run(CommaStep, CommaState(acc, w, false, false, 0, 0), t + ", ")
         == CommaState(acc + [t], " ", false, false, 0, 0)
  {
    RunAppend(CommaStep, CommaState(acc, w, false, false, 0, 0), t, ", ");
    CommaRunGroup(acc, w, false, false, 0, 0, t);
    RunTwo(CommaStep, CommaState(acc, w + t, false, false, 0, 0), ',', ' ');
    assert ", " == [',', ' '];
    CommaSeparatorSteps(acc, w, t);
  }

  /** Moving the first element of `ts` onto `acc` keeps "all but the last" and the last. */
  lemma PrefixLast<T>(ts: seq<T>)
    requires |ts| >= 1
    ensures ts[..|ts| - 1] + [ts[|ts| - 1]] == ts
  {
  }

  lemma ShiftedPrefix<T>(acc: seq<T>, ts: seq<T>)
    requires |ts| >= 2
    ensures acc + [ts[0]] + ts[1..][..|ts| - 2] == acc + ts[..|ts| - 1]
    ensures ts[1..][|ts| - 2] == ts[|ts| - 1]
  {
    assert ts[..|ts| - 1] == [ts[0]] + ts[1..][..|ts| - 2];
  }

  lemma {:induction false} CommaRunJoin(acc: seq<string>, w: string, ts: seq<string>)
    requires |ts| >= 1
    requires AllSpace(w)
    requires forall t :: t in ts ==> GroupPiece(t)
    ensures Run(CommaStep, CommaState(acc, w, false, false, 0, 0), Join(ts, ", "))
         == CommaState(acc + ts[..|ts| - 1], (if |ts| == 1 then w else " ") + ts[|ts| - 1], false, false, 0, 0)
    decreases |ts|
  {
    assert ts[0] in ts;
    if |ts| == 1 {
      CommaRunGroup(acc, w, false, false, 0, 0, ts[0]);
      assert ts[..0] == [];
      assert acc + [] == acc;
    } else {
      var rest := Join(ts[1..], ", ");
      assert Join(ts, ", ") == (ts[0] + ", ") + rest;
      RunAppend(CommaStep, CommaState(acc, w, false, false, 0, 0), ts[0] + ", ", rest);
      CommaRunSeparator(acc, w, ts[0]);
      assert forall t :: t in ts[1..] ==> t in ts;
      assert AllSpace(" ");
      CommaRunJoin(acc + [ts[0]], " ", ts[1..]);
      ShiftedPrefix(acc, ts);
      assert Run(CommaStep, CommaState(acc + [ts[0]], " ", false, false, 0, 0), rest)
          == CommaState(acc + ts[..|ts| - 1], " " + ts[|ts| - 1], false, false, 0, 0);
    }
  }

  /** A final buffer holding one piece after some spaces flushes to that piece. */
  lemma FlushPadded(items: seq<string>, w: string, t: string)
    requires AllSpace(w) && GroupPiece(t)
    ensures Flush(items, w + t) == items + [t]
  {
    StripOfPadded(w, t, []);
    assert w + t + [] == w + t;
  }

  lemma SplitByCommaOfRun(text: string, items: seq<string>, buf: string)
    requires Run(CommaStep, CommaStart, text) == CommaState(items, buf, false, false, 0, 0)
    ensures SplitByComma(text) == Flush(items, buf)
  {
  }

  /** Group pieces joined by ", " split back into the same pieces. */
  lemma SplitByCommaJoin(ts: seq<string>)
    requires forall t :: t in ts ==> GroupPiece(t)
    ensures SplitByComma(Join(ts, ", ")) == ts
  {
    if ts != [] {
      assert AllSpace([]);
      CommaRunJoin([], [], ts);
      var last := ts[|ts| - 1];
      assert last in ts;
      var w: string := if |ts| == 1 then [] else " ";
      assert AllSpace(w);
      assert [] + ts[..|ts| - 1] == ts[..|ts| - 1];
      SplitByCommaOfRun(Join(ts, ", "), ts[..|ts| - 1], w + last);
      FlushPadded(ts[..|ts| - 1], w, last);
      PrefixLast(ts);
    }
  }

  // ---------------------------------------------------------------------------
  // The item loop of `_parse_bracket_args`: commas outside quotes; empty items are kept

  datatype ItemState = ItemState(items: seq<string>, buf: string, inQuotes: bool, escape: bool)

  const ItemStart := ItemState([], [], false, false)

  function ItemStep(st: ItemState, ch: char): ItemState {
    if st.escape then st.(buf := st.buf + [ch], escape := false)
    else if ch == '\\' then st.(buf := st.buf + [ch], escape := true)
    else if ch == '"' then st.(buf := st.buf + [ch], inQuotes := !st.inQuotes)
    else if ch == ',' && !st.inQuotes then st.(items := st.items + [Strip(st.buf)], buf := [])
    else st.(buf := st.buf + [ch])
  }

  /** The items between commas outside quotes, stripped; a trailing empty buffer adds nothing. */
  function BracketItems(inner: string): seq<string> {
    var st := Run(ItemStep, ItemStart, inner);
    if st.buf != [] then st.items + [Strip(st.buf)] else st.items
  }

  method SplitBracketItems(inner: string) returns (items: seq<string>)
    ensures items == BracketItems(inner)
  {
    items := [];
    var buf: string := [];
    var inQuotes := false;
    var escape := false;
    var i := 0;
    while i < |inner|
      invariant 0 <= i <= |inner|
      invariant Run(ItemStep, ItemState(items, buf, inQuotes, escape), inner[i..]) == Run(ItemStep, ItemStart, inner)
    {
      RunNext(ItemStep, ItemState(items, buf, inQuotes, escape), inner, i);
      var ch := inner[i];
      if escape {
        buf := buf + [ch];
        escape := false;
      } else if ch == '\\' {
        escape := true;
        buf := buf + [ch];
      } else if ch == '"' {
        inQuotes := !inQuotes;
        buf := buf + [ch];
      } else if ch == ',' && !inQuotes {
        items := items + [Strip(buf)];
        buf := [];
      } else {
        buf := buf + [ch];
      }
      i := i + 1;
    }
    assert inner[|inner|..] == [];
    if buf != [] {
      items := items + [Strip(buf)];
    }
  }

  /** An item the bracket splitter keeps whole and as written: no comma, quote or backslash. */
  predicate PlainItem(t: string) {
    t != [] && Stripped(t) && forall i :: 0 <= i < |t| ==> t[i] !in ",\"\\"
  }

  lemma {:induction false} ItemRunPlain(items: seq<string>, buf: string, t: string)
    requires forall i :: 0 <= i < |t| ==> t[i] !in ",\"\\"
    ensures Run(ItemStep, ItemState(items, buf, false, false), t) == ItemState(items, buf + t, false, false)
    decreases |t|
  {
    if t != [] {
      ItemRunPlain(items, buf + [t[0]], t[1..]);
      assert buf + [t[0]] + t[1..] == buf + t;
    } else {
      assert buf + t == buf;
    }
  }

  lemma {:induction false} ItemRunJoin(acc: seq<string>, ts: seq<string>)
    requires |ts| >= 1 && forall t :: t in ts ==> PlainItem(t)
    ensures Run(ItemStep, ItemState(acc, [], false, false), Join(ts, ","))
         == ItemState(acc + ts[..|ts| - 1], ts[|ts| - 1], false, false)
    decreases |ts|
  {
    assert ts[0] in ts;
    if |ts| == 1 {
      ItemRunPlain(acc, [], ts[0]);
      assert acc + ts[..0] == acc;
    } else {
      var rest := Join(ts[1..], ",");
      var s0 := ItemState(acc, [], false, false);
      assert forall t :: t in ts[1..] ==> t in ts;
      calc {
        Run(ItemStep, s0, Join(ts, ","));
        { assert Join(ts, ",") == ts[0] + ("," + rest); }
        Run(ItemStep, s0, ts[0] + ("," + rest));
        { RunAppend(ItemStep, s0, ts[0], "," + rest); }
        Run(ItemStep, Run(ItemStep, s0, ts[0]), "," + rest);
        { ItemRunPlain(acc, [], ts[0]); assert [] + ts[0] == ts[0]; }
        Run(ItemStep, ItemState(acc, ts[0], false, false), "," + rest);
        { ItemRunComma(acc, ts[0], rest); }
        Run(ItemStep, ItemState(acc + [ts[0]], [], false, false), rest);
        { ItemRunJoin(acc + [ts[0]], ts[1..]); }
        ItemState(acc + [ts[0]] + ts[1..][..|ts| - 2], ts[1..][|ts| - 2], false, false);
        { ShiftedPrefix(acc, ts); }
        ItemState(acc + ts[..|ts| - 1], ts[|ts| - 1], false, false);
      }
    }
  }

  /** A `,` outside quotes ends the stripped item in the buffer. */
  lemma ItemRunComma(acc: seq<string>, item: string, rest: string)
    requires Stripped(item)
    ensures Run(ItemStep, ItemState(acc, item, false, false), "," + rest)
         == Run(ItemStep, ItemState(acc + [item], [], false, false), rest)
  {
    StrippedStrip(item);
    assert ("," + rest)[0] == ',' && ("," + rest)[1..] == rest;
  }

  /** Plain items joined by `,` split back into the same items. */
  lemma BracketItemsJoin(ts: seq<string>)
    requires |ts| >= 1 && forall t :: t in ts ==> PlainItem(t)
    ensures BracketItems(Join(ts, ",")) == ts
  {
    ItemRunJoin([], ts);
    assert ts[|ts| - 1] in ts;
    StrippedStrip(ts[|ts| - 1]);
    assert [] + ts[..|ts| - 1] == ts[..|ts| - 1];
    PrefixLast(ts);
  }

  // ---------------------------------------------------------------------------
  // The assignment loop of `_parse_group`: commas outside quotes at parenthesis depth 0

  datatype AssignState = AssignState(items: seq<string>, buf: string, inQuotes: bool, depth: nat)

  const AssignStart := AssignState([], [], false, 0)

  function AssignStep(st: AssignState, ch: char): AssignState {
    var q := if ch == '"' then !st.inQuotes else st.inQuotes;
    if !q && ch == '(' then st.(buf := st.buf + [ch], inQuotes := q, depth := st.depth + 1)
    else if !q && ch == ')' then st.(buf := st.buf + [ch], inQuotes := q, depth := if st.depth > 0 then st.depth - 1 else 0)
    else if !q && ch == ',' && st.depth == 0 then st.(items := st.items + [Strip(st.buf)], buf := [], inQuotes := q)
    else st.(buf := st.buf + [ch], inQuotes := q)
  }

  function Assignments(text: string): seq<string> {
    var st := Run(AssignStep, AssignStart, text);
    if st.buf != [] then st.items + [Strip(st.buf)] else st.items
  }

  method SplitAssignments(text: string) returns (items: seq<string>)
    ensures items == Assignments(text)
  {
    items := [];
    var buf: string := [];
    var inQuotes := false;
    var depth: nat := 0;
    var i := 0;
    while i < |text|
      invariant 0 <= i <= |text|
      invariant Run(AssignStep, AssignState(items, buf, inQuotes, depth), text[i..]) == Run(AssignStep, AssignStart, text)
    {
      RunNext(AssignStep, AssignState(items, buf, inQuotes, depth), text, i);
      var ch := text[i];
      if ch == '"' {
        inQuotes := !inQuotes;
      }
      if !inQuotes && ch == '(' {
        depth := depth + 1;
        buf := buf + [ch];
      } else if !inQuotes && ch == ')' {
        depth := if depth > 0 then depth - 1 else 0;
        buf := buf + [ch];
      } else if !inQuotes && ch == ',' && depth == 0 {
        items := items + [Strip(buf)];
        buf := [];
      } else {
        buf := buf + [ch];
      }
      i := i + 1;
    }
    assert text[|text|..] == [];
    if buf != [] {
      items := items + [Strip(buf)];
    }
  }

  /**
   * The parts of an item `pre(arg)` the group splitter keeps whole: `pre` starts with
   * a non-space and holds no comma, quote or parenthesis; `arg` holds no quote or
   * parenthesis (commas allowed).
   */
  predicate CallParts(pre: string, arg: string) {
    && pre != [] && !IsSpace(pre[0])
    && (forall i :: 0 <= i < |pre| ==> pre[i] !in ",\"()")
    && (forall i :: 0 <= i < |arg| ==> arg[i] !in "\"()")
  }

  /** Text without quotes or parentheses, read at depth `d`, is only collected (commas too when `d > 0`). */
  lemma {:induction false} AssignRunPlain(items: seq<string>, buf: string, d: nat, t: string)
    requires forall i :: 0 <= i < |t| ==> t[i] !in "\"()" && (d > 0 || t[i] != ',')
    ensures Run(AssignStep, AssignState(items, buf, false, d), t) == AssignState(items, buf + t, false, d)
    decreases |t|
  {
    if t != [] {
      AssignRunPlain(items, buf + [t[0]], d, t[1..]);
      assert buf + [t[0]] + t[1..] == buf + t;
    } else {
      assert buf + t == buf;
    }
  }

  /** `pre(arg)` is collected whole and leaves the splitter at depth 0. */
  lemma AssignRunCall(items: seq<string>, buf: string, pre: string, arg: string)
    requires CallParts(pre, arg)
    ensures Run(AssignStep, AssignState(items, buf, false, 0), pre + "(" + arg + ")")
         == AssignState(items, buf + pre + "(" + arg + ")", false, 0)
  {
    var open := buf + pre + "(";
    assert pre + "(" + arg + ")" == pre + ("(" + (arg + ")"));
    RunAppend(AssignStep, AssignState(items, buf, false, 0), pre, "(" + (arg + ")"));
    AssignRunPlain(items, buf, 0, pre);
    assert ("(" + (arg + ")"))[0] == '(' && ("(" + (arg + ")"))[1..] == arg + ")";
    assert AssignStep(AssignState(items, buf + pre, false, 0), '(') == AssignState(items, open, false, 1);
    RunAppend(AssignStep, AssignState(items, open, false, 1), arg, ")");
    AssignRunPlain(items, open, 1, arg);
    assert AssignStep(AssignState(items, open + arg, false, 1), ')') == AssignState(items, open + arg + ")", false, 0);
  }

  /** The separator ", " at depth 0 flushes the padded item and starts the next buffer with a space. */
  lemma AssignSeparator(acc: seq<string>, w: string, t: string, rest: string)
    requires AllSpace(w) && t != [] && Stripped(t)
    ensures Run(AssignStep, AssignState(acc, w + t, false, 0), ", " + rest)
         == Run(AssignStep, AssignState(acc + [t], " ", false, 0), rest)
  {
    RunAppend(AssignStep, AssignState(acc, w + t, false, 0), ", ", rest);
    assert ", " == [',', ' '];
    RunTwo(AssignStep, AssignState(acc, w + t, false, 0), ',', ' ');
    StripOfPadded(w, t, []);
    assert w + t + [] == w + t;
    var st1 := AssignStep(AssignState(acc, w + t, false, 0), ',');
    assert st1 == AssignState(acc + [t], [], false, 0);
    assert AssignStep(st1, ' ') == AssignState(acc + [t], " ", false, 0);
  }

  /** An item the group splitter collects whole from depth 0, whatever it has collected before. */
  ghost predicate AssignWhole(t: string) {
    && t != [] && Stripped(t)
    && forall acc, buf :: Run(AssignStep, AssignState(acc, buf, false, 0), t) == AssignState(acc, buf + t, false, 0)
  }

  lemma CallIsWhole(pre: string, arg: string)
    requires CallParts(pre, arg)
    ensures AssignWhole(pre + "(" + arg + ")")
  {
    forall acc, buf ensures Run(AssignStep, AssignState(acc, buf, false, 0), pre + "(" + arg + ")")
                            == AssignState(acc, buf + (pre + "(" + arg + ")"), false, 0) {
      AssignRunCall(acc, buf, pre, arg);
    }
  }

  lemma {:induction false} AssignRunJoin(acc: seq<string>, w: string, ts: seq<string>)
    requires |ts| >= 1 && AllSpace(w)
    requires forall t :: t in ts ==> AssignWhole(t)
    ensures Run(AssignStep, AssignState(acc, w, false, 0), Join(ts, ", "))
         == AssignState(acc + ts[..|ts| - 1], (if |ts| == 1 then w else " ") + ts[|ts| - 1], false, 0)
    decreases |ts|
  {
    assert ts[0] in ts;
    assert Run(AssignStep, AssignState(acc, w, false, 0), ts[0]) == AssignState(acc, w + ts[0], false, 0);
    if |ts| == 1 {
      assert acc + ts[..0] == acc;
    } else {
      var rest := Join(ts[1..], ", ");
      assert Join(ts, ", ") == ts[0] + (", " + rest);
      RunAppend(AssignStep, AssignState(acc, w, false, 0), ts[0], ", " + rest);
      AssignSeparator(acc, w, ts[0], rest);
      assert forall t :: t in ts[1..] ==> t in ts;
      assert AllSpace(" ");
      AssignRunJoin(acc + [ts[0]], " ", ts[1..]);
      ShiftedPrefix(acc, ts);
    }
  }

  /** Whole items joined by ", " split back into the same items. */
  lemma AssignmentsJoin(ts: seq<string>)
    requires |ts| >= 1 && forall t :: t in ts ==> AssignWhole(t)
    ensures Assignments(Join(ts, ", ")) == ts
  {
    assert AllSpace([]);
    AssignRunJoin([], [], ts);
    var last := ts[|ts| - 1];
    assert last in ts;
    var w: string := if |ts| == 1 then [] else " ";
    StripOfPadded(w, last, []);
    assert w + last + [] == w + last;
    assert [] + ts[..|ts| - 1] == ts[..|ts| - 1];
    PrefixLast(ts);
  }

  // ---------------------------------------------------------------------------
  // `balanced_json_object`: braces outside quoted strings; the depth may go negative

  datatype BraceState = BraceState(inQuotes: bool, escape: bool, depth: int)

  const BraceStart := BraceState(false, false, 0)

  function BraceStep(st: BraceState, ch: char): BraceState {
    if st.escape then st.(escape := false)
    else if ch == '\\' then st.(escape := true)
    else if ch == '"' then st.(inQuotes := !st.inQuotes)
    else if st.inQuotes then st
    else if ch == '{' then st.(depth := st.depth + 1)
    else if ch == '}' then st.(depth := st.depth - 1)
    else st
  }

  /** The stripped text starts with `{`, ends with `}`, and its braces outside strings balance. */
  predicate Balanced(s: string) {
    var t := Strip(s);
    StartsWith(t, "{") && Run(BraceStep, BraceStart, t).depth == 0 && EndsWith(t, "}")
  }

  method BalancedJsonObject(s0: string) returns (b: bool)
    ensures b == Balanced(s0)
  {
    var s := Strip(s0);
    if !StartsWith(s, "{") {
      return false;
    }
    var inQuotes := false;
    var escape := false;
    var depth := 0;
    var i := 0;
    while i < |s|
      invariant 0 <= i <= |s|
      invariant Run(BraceStep, BraceState(inQuotes, escape, depth), s[i..]) == Run(BraceStep, BraceStart, s)
    {
      RunNext(BraceStep, BraceState(inQuotes, escape, depth), s, i);
      var ch := s[i];
      if escape {
        escape := false;
      } else if ch == '\\' {
        escape := true;
      } else if ch == '"' {
        inQuotes := !inQuotes;
      } else if !inQuotes {
        if ch == '{' {
          depth := depth + 1;
        } else if ch == '}' {
          depth := depth - 1;
        }
      }
      i := i + 1;
    }
    assert s[|s|..] == [];
    b := depth == 0 && EndsWith(s, "}");
  }

  /** Text without quotes or backslashes is balanced exactly when its brace count nets to zero. */
  function NetBraces(t: string): int {
    if t == [] then 0
    else (if t[0] == '{' then 1 else if t[0] == '}' then -1 else 0) + NetBraces(t[1..])
  }

  lemma {:induction false} BraceRunUnquoted(st: BraceState, t: string)
    requires !st.inQuotes && !st.escape
    requires forall i :: 0 <= i < |t| ==> t[i] != '"' && t[i] != '\\'
    ensures Run(BraceStep, st, t) == BraceState(false, false, st.depth + NetBraces(t))
    decreases |t|
  {
    if t != [] {
      BraceRunUnquoted(BraceStep(st, t[0]), t[1..]);
    }
  }

  lemma {:induction false} BraceRunQuoted(st: BraceState, q: string)
    requires st.inQuotes && !st.escape
    requires forall i :: 0 <= i < |q| ==> q[i] != '"' && q[i] != '\\'
    ensures Run(BraceStep, st, q) == st
    decreases |q|
  {
    if q != [] {
      BraceRunQuoted(BraceStep(st, q[0]), q[1..]);
    }
  }

  /** A quoted string without escapes leaves the brace depth, and the rest of the state, as it was. */
  lemma QuotedBracesIgnored(st: BraceState, q: string)
    requires !st.inQuotes && !st.escape
    requires forall i :: 0 <= i < |q| ==> q[i] != '"' && q[i] != '\\'
    ensures Run(BraceStep, st, "\"" + q + "\"") == st
  {
    var open := BraceStep(st, '"');
    RunAppend(BraceStep, st, "\"" + q, "\"");
    RunAppend(BraceStep, st, "\"", q);
    assert Run(BraceStep, st, "\"") == open by {
      assert "\""[1..] == [];
    }
    BraceRunQuoted(open, q);
    assert Run(BraceStep, open, "\"") == st by {
      assert "\""[1..] == [];
    }
  }

  /** An object holding one string is balanced whatever braces the string holds. */
  lemma QuotedBracesBalanced(q: string)
    requires forall i :: 0 <= i < |q| ==> q[i] != '"' && q[i] != '\\'
    ensures Balanced("{\"" + q + "\"}")
  {
    var x := "\"" + q + "\"";
    var t := "{\"" + q + "\"}";
    assert t == "{" + x + "}";
    assert Stripped(t);
    StrippedStrip(t);
    var one := BraceStep(BraceStart, '{');
    RunAppend(BraceStep, BraceStart, "{" + x, "}");
    RunAppend(BraceStep, BraceStart, "{", x);
    assert Run(BraceStep, BraceStart, "{") == one by {
      assert "{"[1..] == [];
    }
    QuotedBracesIgnored(one, q);
    assert Run(BraceStep, one, "}") == BraceStart by {
      assert "}"[1..] == [];
    }
    assert t[|t| - 1..] == "}";
  }
}
