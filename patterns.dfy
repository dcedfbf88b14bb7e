/**
 * The regular expressions of the parser, written out as explicit shape checks
 * (parser.py:142-155 and 719-722, and the inline patterns of the join, switch
 * and group parsers). Each function returns the captured groups when the line
 * matches and `None` otherwise. Matching is on single lines, which never hold a
 * line break, so the patterns' treatment of `\n` plays no part.
 */
module Patterns {
  import opened Wrappers
  import opened Strings

  /** The length of the whitespace run at the start of `s`, as a greedy `\s*` takes it. */
  function LeadingSpace(s: string): (n: nat)
    ensures n <= |s|
    ensures forall i :: 0 <= i < n ==> IsSpace(s[i])
    ensures n == |s| || !IsSpace(s[n])
  {
    if s != [] && IsSpace(s[0]) then 1 + LeadingSpace(s[1..]) else 0
  }

  /** `s` without its leading whitespace; the same text as `LStrip`. */
  function SkipSpace(s: string): (r: string)
    ensures |r| <= |s|
    ensures r == [] || !IsSpace(r[0])
  {
    s[LeadingSpace(s)..]
  }

  lemma SkipSpaceOfWord(w: string, t: string)
    requires AllSpace(w) && t != [] && !IsSpace(t[0])
    ensures LeadingSpace(w + t) == |w| && SkipSpace(w + t) == t
    decreases |w|
  {
    if w != [] {
      assert (w + t)[1..] == w[1..] + t;
      assert AllSpace(w[1..]) by {
        forall i | 0 <= i < |w[1..]| ensures IsSpace(w[1..][i]) { assert w[1..][i] == w[i + 1]; }
      }
      SkipSpaceOfWord(w[1..], t);
    } else {
      assert w + t == t;
    }
  }

  /**
   * `\s+(?P<rest>.+)$` (or `\s*` when `atLeastOne` is false) after a keyword:
   * the greedy whitespace run gives one character back when nothing else is left.
   */
  function WsThenRest(s: string, atLeastOne: bool): (r: Option<string>)
    ensures atLeastOne ==> (r.Some? <==> |s| >= 2 && IsSpace(s[0]))
    ensures !atLeastOne ==> (r.Some? <==> s != [])
    ensures r.Some? ==> r.value != [] && |r.value| <= |s| && r.value == s[|s| - |r.value|..]
  {
    var n := LeadingSpace(s);
    if atLeastOne && n == 0 then None
    else if n < |s| then Some(s[n..])
    else if n > (if atLeastOne then 1 else 0) then Some(s[n - 1..])
    else None
  }

  /** `^<KEYWORD>\s+(?P<rest>.+)$` with IGNORECASE; `kw` is written in lower case. */
  function KeywordRest(line: string, kw: string): (r: Option<string>)
    ensures r.Some? ==> StartsWithCI(line, kw) && |kw| <= |line|
  {
    if StartsWithCI(line, kw) && |kw| <= |line| then WsThenRest(line[|kw|..], true) else None
  }

  /** The keyword, one space and a rest that starts with a non-space character match with that rest. */
  lemma KeywordRestOf(kw: string, line: string, rest: string)
    requires StartsWithCI(line, kw) && |kw| <= |line|
    requires line[|kw|..] == " " + rest
    requires rest != [] && !IsSpace(rest[0])
    ensures KeywordRest(line, kw) == Some(rest)
  {
    SkipSpaceOfWord(" ", rest);
  }

  /** `_RESPONSE_RE` */
  function ResponseRest(line: string): Option<string> {
    KeywordRest(line, "response")
  }

  /** `_REQUEST_RE` */
  function RequestRest(line: string): Option<string> {
    KeywordRest(line, "request")
  }

  /** `_TIMESERIES_RE` */
  function TimeseriesRest(line: string): Option<string> {
    KeywordRest(line, "timeseries")
  }

  /** `_PIPE_RE`: a `|`, optional whitespace, then at least one character. */
  function PipeRest(line: string): (r: Option<string>)
    ensures r.Some? <==> |line| >= 2 && line[0] == '|'
  {
    if line != [] && line[0] == '|' then WsThenRest(line[1..], false) else None
  }

  lemma PipeRestOf(line: string, rest: string)
    requires line == "| " + rest && rest != [] && !IsSpace(rest[0])
    ensures PipeRest(line) == Some(rest)
  {
    assert line[1..] == " " + rest;
    SkipSpaceOfWord(" ", rest);
  }

  /** `_PIPELINE_RE`: the keyword followed by nothing but whitespace. */
  predicate IsPipelineLine(line: string) {
    StartsWithCI(line, "pipeline") && |line| >= 8 && AllSpace(line[8..])
  }

  /** The character classes `[A-Za-z0-9_]` (and `.` when `dotted`) after the first character. */
  function IdentTail(s: string, dotted: bool): (n: nat)
    ensures n <= |s|
    ensures forall i :: 0 <= i < n ==> IsIdentChar(s[i]) || (dotted && s[i] == '.')
    ensures n == |s| || !(IsIdentChar(s[n]) || (dotted && s[n] == '.'))
  {
    if s != [] && (IsIdentChar(s[0]) || (dotted && s[0] == '.')) then 1 + IdentTail(s[1..], dotted) else 0
  }

  /** The length of a greedy `[A-Za-z_][A-Za-z0-9_]*` (with `.` in the tail when `dotted`); 0 if none. */
  function IdentLen(s: string, dotted: bool): (n: nat)
    ensures n <= |s|
    ensures n > 0 ==> IsIdentStart(s[0])
    ensures n == 0 <==> (s == [] || !IsIdentStart(s[0]))
  {
    if s != [] && IsIdentStart(s[0]) then 1 + IdentTail(s[1..], dotted) else 0
  }

  /** `\{(?P<body>.*)\}\s*$` after optional whitespace: the text up to the last `}`. */
  function BracedBody(s: string): (r: Option<string>)
  {
    var t := RStrip(SkipSpace(s));
    if |t| >= 2 && t[0] == '{' && t[|t| - 1] == '}' then Some(t[1..|t| - 1]) else None
  }

  /** `kw\s+` at the front (IGNORECASE): the text after the keyword and its whitespace. */
  function AfterKeyword(text: string, kw: string): (r: Option<string>)
    ensures r.Some? ==> |r.value| < |text| && (r.value == [] || !IsSpace(r.value[0]))
  {
    if StartsWithCI(text, kw) && |kw| <= |text| && LeadingSpace(text[|kw|..]) > 0 then Some(SkipSpace(text[|kw|..]))
    else None
  }

  /** `_FROM_RE`: the `[...]` argument list inside `FROM event(...)`. */
  function FromArgs(line: string): (r: Option<string>)
    ensures r.Some? ==> |r.value| >= 2 && r.value[0] == '[' && r.value[|r.value| - 1] == ']'
  {
    match AfterKeyword(line, "from")
    case None => None
    case Some(v) => EventArgs(v)
  }

  /** The `event(\[...\])` part of `_FROM_RE`, up to trailing whitespace. */
  function EventArgs(v: string): (r: Option<string>)
    ensures r.Some? ==> |r.value| >= 2 && r.value[0] == '[' && r.value[|r.value| - 1] == ']'
  {
    if !(StartsWithCI(v, "event(") && |v| >= 6) then None
    else
      var t := RStrip(v[6..]);
      if |t| >= 3 && t[0] == '[' && t[|t| - 2..] == "])" then Some(t[..|t| - 1]) else None
  }

  /** `_SWITCH_RE`: the output variable, the field and the body between the braces. */
  function SwitchMatch(text: string): (r: Option<(string, string, string)>)
    ensures r.Some? ==> r.value.0 != [] && IsIdentStart(r.value.0[0])
    ensures r.Some? ==> r.value.1 != [] && IsIdentStart(r.value.1[0])
  {
    match AfterKeyword(text, "switch")
    case None => None
    case Some(v) => SwitchParts(v)
  }

  /** After `switch\s+`: the output identifier, whitespace and the source part. */
  function SwitchParts(v: string): (r: Option<(string, string, string)>)
    ensures r.Some? ==> r.value.0 != [] && IsIdentStart(r.value.0[0])
    ensures r.Some? ==> r.value.1 != [] && IsIdentStart(r.value.1[0])
  {
    var k := IdentLen(v, false);
    if k == 0 || LeadingSpace(v[k..]) == 0 then None
    else
      match SwitchSource(SkipSpace(v[k..]))
      case None => None
      case Some((field, body)) => Some((v[..k], field, body))
  }

  /** The `from\s+(?P<field>...)\s*\{(?P<body>.*)\}\s*$` part of `_SWITCH_RE`. */
  function SwitchSource(x: string): (r: Option<(string, string)>)
    ensures r.Some? ==> r.value.0 != [] && IsIdentStart(r.value.0[0])
  {
    match AfterKeyword(x, "from")
    case None => None
    case Some(z) =>
      var f := IdentLen(z, true);
      if f == 0 then None
      else
        match BracedBody(z[f..])
        case None => None
        case Some(body) => Some((z[..f], body))
  }

  /**
   * `^(?P<value>.+?)\s*==\s*(?P<id>.+?)\s*$` on one switch case, searching the
   * lazy value from length `k` on: the first split point after which the rest
   * is whitespace, `==` and at least one more character. Both groups come back
   * stripped, as the parser strips them.
   */
  function CaseSplitFrom(part: string, k: nat): (r: Option<(string, string)>)
    requires k >= 1
    decreases |part| - k
  {
    if k >= |part| then None
    else
      var v := SkipSpace(part[k..]);
      if |v| > 2 && v[..2] == "==" then Some((Strip(part[..k]), Strip(v[2..])))
      else CaseSplitFrom(part, k + 1)
  }

  function CaseSplit(part: string): Option<(string, string)> {
    CaseSplitFrom(part, 1)
  }

  /** `_MERGE_HEADER_RE`: the text inside `fields [...]` and, if present, the `{...}` of `mappings`. */
  function MergeHeaderMatch(text: string): (r: Option<(string, Option<string>)>)
    ensures r.Some? ==> ']' !in r.value.0
  {
    match AfterKeyword(text, "merge")
    case None => None
    case Some(v) =>
      if !(StartsWithCI(v, "fields") && |v| >= 6) then None
      else
        var x := SkipSpace(v[6..]);
        if !(x != [] && x[0] == '[' && ']' in x[1..]) then None
        else
          var (fields, after) := SplitFirst(x[1..], ']');
          if AllSpace(after) then Some((fields, None))
          else
            match MappingsPart(after)
            case None => None
            case Some(t) => Some((fields, Some(t)))
  }

  /** The optional `\s+mappings\s*(?P<mappings>\{.*\})` of `_MERGE_HEADER_RE`, up to trailing whitespace. */
  function MappingsPart(after: string): (r: Option<string>)
  {
    if LeadingSpace(after) == 0 then None
    else
      var a := SkipSpace(after);
      if !(StartsWithCI(a, "mappings") && |a| >= 8) then None
      else
        var t := RStrip(SkipSpace(a[8..]));
        if |t| >= 2 && t[0] == '{' && t[|t| - 1] == '}' then Some(t) else None
  }

  /** The captured groups of `_GROUP_RE`. */
  datatype GroupMatch = GroupMatch(group: string, keyword: string, mode: Option<string>, body: string)

  /** After the keyword: `(?:\s+(?P<mode>map|list))?\s*\{(?P<fields>.*)\}\s*$`, the mode tried first. */
  function GroupTail(s: string): (r: Option<(Option<string>, string)>)
    ensures r.Some? && r.value.0.Some? ==> r.value.0.value in ["map", "list"]
  {
    var m := SkipSpace(s);
    var withMode :=
      if LeadingSpace(s) == 0 then None
      else if StartsWithCI(m, "map") && |m| >= 3 && BracedBody(m[3..]).Some? then Some((Some("map"), BracedBody(m[3..]).value))
      else if StartsWithCI(m, "list") && |m| >= 4 && BracedBody(m[4..]).Some? then Some((Some("list"), BracedBody(m[4..]).value))
      else None;
    if withMode.Some? then withMode
    else match BracedBody(s)
      case None => None
      case Some(body) => Some((None, body))
  }

  /** The alternation `fields|fieldsMap|field`, tried in that order, each with the rest of the pattern. */
  function GroupKeyword(r: string, kws: seq<string>): (m: Option<(string, Option<string>, string)>)
    ensures m.Some? ==> m.value.0 in kws
    ensures m.Some? && m.value.1.Some? ==> m.value.1.value in ["map", "list"]
    decreases |kws|
  {
    if kws == [] then None
    else
      var kw := kws[0];
      if StartsWithCI(r, kw) && |kw| <= |r| && GroupTail(r[|kw|..]).Some? then
        var tail := GroupTail(r[|kw|..]).value;
        Some((kw, tail.0, tail.1))
      else GroupKeyword(r, kws[1..])
  }

  /** The length of a greedy `[^\s]+`. */
  function NonSpaceLen(s: string): (n: nat)
    ensures n <= |s|
    ensures forall i :: 0 <= i < n ==> !IsSpace(s[i])
    ensures n == |s| || IsSpace(s[n])
  {
    if s != [] && !IsSpace(s[0]) then 1 + NonSpaceLen(s[1..]) else 0
  }

  /** `_GROUP_RE` */
  function GroupRegex(text: string): (r: Option<GroupMatch>)
    ensures r.Some? ==> r.value.keyword in ["fields", "fieldsmap", "field"]
    ensures r.Some? && r.value.mode.Some? ==> r.value.mode.value in ["map", "list"]
    ensures r.Some? ==> r.value.group != [] && forall i :: 0 <= i < |r.value.group| ==> !IsSpace(r.value.group[i])
  {
    match AfterKeyword(text, "group")
    case None => None
    case Some(v) => ByRest(v)
  }

  /** After `group\s+`: the `by\s+` keyword, then the rest. */
  function ByRest(v: string): (r: Option<GroupMatch>)
    ensures r.Some? ==> r.value.keyword in ["fields", "fieldsmap", "field"]
    ensures r.Some? && r.value.mode.Some? ==> r.value.mode.value in ["map", "list"]
    ensures r.Some? ==> r.value.group != [] && forall i :: 0 <= i < |r.value.group| ==> !IsSpace(r.value.group[i])
  {
    match AfterKeyword(v, "by")
    case None => None
    case Some(x) => GroupByRest(x)
  }

  /** After `group\s+by\s+`: the group-by text up to whitespace, then the keyword alternation. */
  function GroupByRest(x: string): (r: Option<GroupMatch>)
    ensures r.Some? ==> r.value.keyword in ["fields", "fieldsmap", "field"]
    ensures r.Some? && r.value.mode.Some? ==> r.value.mode.value in ["map", "list"]
    ensures r.Some? ==> r.value.group != [] && forall i :: 0 <= i < |r.value.group| ==> !IsSpace(r.value.group[i])
  {
    var g := NonSpaceLen(x);
    if g == 0 then None
    else
      var y := x[g..];
      if LeadingSpace(y) == 0 then None
      else
        match GroupKeyword(SkipSpace(y), ["fields", "fieldsmap", "field"])
        case None => None
        case Some((kw, mode, body)) => Some(GroupMatch(x[..g], kw, mode, body))
  }

  /** `^(?P<agg>[a-zA-Z_][a-zA-Z0-9_]*)\((?P<arg>.*)\)$`: the aggregate name and the raw argument text. */
  function AggExpr(expr: string): (r: Option<(string, string)>)
    ensures r.Some? ==> expr == r.value.0 + "(" + r.value.1 + ")"
    ensures r.Some? ==> Ident(r.value.0, false)
    ensures expr == [] || !IsIdentStart(expr[0]) || expr[|expr| - 1] != ')' ==> r.None?
  {
    var k := IdentLen(expr, false);
    if k > 0 && |expr| >= k + 2 && expr[k] == '(' && expr[|expr| - 1] == ')' then
      assert expr == expr[..k] + "(" + expr[k + 1..|expr| - 1] + ")";
      assert Ident(expr[..k], false) by { IdentLenIdent(expr, false); }
      Some((expr[..k], expr[k + 1..|expr| - 1]))
    else None
  }

  /** The greedy identifier prefix is an identifier. */
  lemma IdentLenIdent(s: string, dotted: bool)
    requires IdentLen(s, dotted) > 0
    ensures Ident(s[..IdentLen(s, dotted)], dotted)
  {
    var n := IdentLen(s, dotted);
    assert IdentLen(s, dotted) == 1 + IdentTail(s[1..], dotted);
    forall i | 1 <= i < n
      ensures IsIdentChar(s[..n][i]) || (dotted && s[..n][i] == '.')
    {
      assert s[..n][i] == s[1..][i - 1];
    }
  }

  /** `^fields\s*\[(?P<fields>.*)\]\s*$` on the text after `join `. */
  function JoinFieldsMatch(rest: string): (r: Option<string>)
  {
    if !(StartsWithCI(rest, "fields") && |rest| >= 6) then None
    else
      var t := RStrip(SkipSpace(rest[6..]));
      if |t| >= 2 && t[0] == '[' && t[|t| - 1] == ']' then Some(t[1..|t| - 1]) else None
  }

  // ---------------------------------------------------------------------------
  // The other direction: text of each pattern's shape matches, with these groups

  /** `[A-Za-z_][A-Za-z0-9_]*`, with `.` allowed after the first character when `dotted`. */
  predicate Ident(w: string, dotted: bool) {
    w != [] && IsIdentStart(w[0]) && forall i :: 0 <= i < |w| ==> IsIdentChar(w[i]) || (dotted && w[i] == '.')
  }

  /** `rest` does not go on with the identifier's characters. */
  predicate EndsIdent(rest: string, dotted: bool) {
    rest == [] || !(IsIdentChar(rest[0]) || (dotted && rest[0] == '.'))
  }

  lemma {:induction false} IdentTailOf(w: string, rest: string, dotted: bool)
    requires forall i :: 0 <= i < |w| ==> IsIdentChar(w[i]) || (dotted && w[i] == '.')
    requires EndsIdent(rest, dotted)
    ensures IdentTail(w + rest, dotted) == |w|
    decreases |w|
  {
    if w != [] {
      assert (w + rest)[1..] == w[1..] + rest;
      IdentTailOf(w[1..], rest, dotted);
    } else {
      assert w + rest == rest;
    }
  }

  /** The greedy identifier of `w + rest` is exactly `w`. */
  lemma IdentLenOf(w: string, rest: string, dotted: bool)
    requires Ident(w, dotted) && EndsIdent(rest, dotted)
    ensures IdentLen(w + rest, dotted) == |w|
  {
    assert (w + rest)[1..] == w[1..] + rest;
    IdentTailOf(w[1..], rest, dotted);
  }

  /** The greedy `[^\s]+` of `g + rest` is exactly `g` when `rest` starts with whitespace. */
  lemma {:induction false} NonSpaceLenOf(g: string, rest: string)
    requires forall i :: 0 <= i < |g| ==> !IsSpace(g[i])
    requires rest == [] || IsSpace(rest[0])
    ensures NonSpaceLen(g + rest) == |g|
    decreases |g|
  {
    if g != [] {
      assert (g + rest)[1..] == g[1..] + rest;
      NonSpaceLenOf(g[1..], rest);
    } else {
      assert g + rest == rest;
    }
  }

  /** Spaces, then `{body}`: the body between the outer braces. */
  lemma BracedBodyOf(w: string, body: string)
    requires AllSpace(w)
    ensures BracedBody(w + ("{" + body + "}")) == Some(body)
  {
    var t := "{" + body + "}";
    SkipSpaceOfWord(w, t);
    StrippedStrip(t);
    assert t[1..|t| - 1] == body;
  }

  /** A lower-case keyword, one space and a rest that starts with a non-space. */
  lemma KeywordSpace(kw: string, rest: string)
    requires forall i :: 0 <= i < |kw| ==> LowerChar(kw[i]) == kw[i]
    requires rest != [] && !IsSpace(rest[0])
    ensures StartsWithCI(kw + " " + rest, kw)
    ensures (kw + " " + rest)[|kw|..] == " " + rest
    ensures LeadingSpace(" " + rest) > 0 && SkipSpace(" " + rest) == rest
  {
    assert kw + " " + rest == kw + (" " + rest);
    StartsWithCIOf(kw, " " + rest);
    SkipSpaceOfWord(" ", rest);
  }

  /** An identifier, one space and a rest that starts with a non-space. */
  lemma IdentSpace(w: string, rest: string, dotted: bool)
    requires Ident(w, dotted)
    requires rest != [] && !IsSpace(rest[0])
    ensures IdentLen(w + " " + rest, dotted) == |w|
    ensures (w + " " + rest)[..|w|] == w && (w + " " + rest)[|w|..] == " " + rest
    ensures LeadingSpace(" " + rest) > 0 && SkipSpace(" " + rest) == rest
  {
    assert w + " " + rest == w + (" " + rest);
    IdentLenOf(w, " " + rest, dotted);
    SkipSpaceOfWord(" ", rest);
  }

  /** A lower-case keyword, one space and a rest that starts with a non-space. */
  lemma AfterKeywordOf(kw: string, rest: string)
    requires forall i :: 0 <= i < |kw| ==> LowerChar(kw[i]) == kw[i]
    requires rest != [] && !IsSpace(rest[0])
    ensures AfterKeyword(kw + " " + rest, kw) == Some(rest)
  {
    KeywordSpace(kw, rest);
  }

  /** `event([...])` holds the argument list as written. */
  lemma EventArgsOf(args: string)
    requires |args| >= 2 && args[0] == '[' && args[|args| - 1] == ']'
    ensures EventArgs("event(" + args + ")") == Some(args)
  {
    var t := args + ")";
    assert "event(" + args + ")" == "event(" + t;
    StartsWithCIOf("event(", t);
    StrippedStrip(t);
    assert t[|t| - 2..] == "])";
  }

  /** `FROM event([...])`, as the decompiler writes it, holds the argument list as written. */
  lemma FromArgsOf(args: string)
    requires |args| >= 2 && args[0] == '[' && args[|args| - 1] == ']'
    ensures FromArgs("FROM" + " " + ("event(" + args + ")")) == Some(args)
  {
    var v := "event(" + args + ")";
    var line := "FROM" + " " + v;
    StartsWithCIFolded("FROM", "from", " " + v);
    assert line == "FROM" + (" " + v);
    assert line[4..] == " " + v;
    SkipSpaceOfWord(" ", v);
    EventArgsOf(args);
  }

  /** `from field {body}` */
  lemma SwitchSourceOf(field: string, body: string)
    requires Ident(field, true)
    ensures SwitchSource("from" + " " + (field + " " + ("{" + body + "}"))) == Some((field, body))
  {
    var b := "{" + body + "}";
    var z := field + " " + b;
    assert z[0] == field[0];
    AfterKeywordOf("from", z);
    IdentSpace(field, b, true);
    BracedBodyOf(" ", body);
  }

  /** An output identifier and one space before a source part that matches. */
  lemma SwitchPartsOf(out: string, x: string)
    requires Ident(out, false)
    requires x != [] && !IsSpace(x[0]) && SwitchSource(x).Some?
    ensures SwitchParts(out + " " + x) == Some((out, SwitchSource(x).value.0, SwitchSource(x).value.1))
    ensures out + " " + x != [] && !IsSpace((out + " " + x)[0])
  {
    assert (out + " " + x)[0] == out[0];
    IdentSpace(out, x, false);
  }

  /** `switch` and one space before a rest that starts with a non-space: the rest decides. */
  lemma SwitchMatchKeyword(v: string)
    requires v != [] && !IsSpace(v[0])
    ensures SwitchMatch("switch" + " " + v) == SwitchParts(v)
  {
    AfterKeywordOf("switch", v);
  }

  /** `switch out from field {body}` */
  lemma SwitchMatchOf(out: string, field: string, body: string)
    requires Ident(out, false) && Ident(field, true)
    ensures SwitchMatch("switch" + " " + (out + " " + ("from" + " " + (field + " " + ("{" + body + "}")))))
         == Some((out, field, body))
  {
    var x := "from" + " " + (field + " " + ("{" + body + "}"));
    SwitchSourceOf(field, body);
    SwitchPartsOf(out, x);
    SwitchMatchKeyword(out + " " + x);
  }

  /** Leading whitespace ends before the last character of `w` when that one is not a space. */
  lemma LeadingSpaceWithin(w: string, t: string)
    requires w != [] && !IsSpace(w[|w| - 1])
    ensures LeadingSpace(w + t) < |w|
  {
    assert (w + t)[|w| - 1] == w[|w| - 1];
  }

  /** A cut inside `v` is not followed by `==`: the lazy `value` grows by one. */
  lemma CaseSplitFromInside(v: string, id: string, k: nat)
    requires 1 <= k < |v| && Stripped(v) && '=' !in v
    ensures CaseSplitFrom(v + "==" + id, k) == CaseSplitFrom(v + "==" + id, k + 1)
  {
    var part := v + "==" + id;
    assert part[k..] == v[k..] + ("==" + id);
    LeadingSpaceWithin(v[k..], "==" + id);
    var n := LeadingSpace(part[k..]);
    var w := SkipSpace(part[k..]);
    assert w[0] == v[k + n] && v[k + n] in v;
    assert w[0] != '=';
    assert |w| > 2 ==> w[..2][0] == w[0];
    assert "=="[0] == '=';
  }

  /** The cut at the end of `v` is followed by `==` and the id. */
  lemma CaseSplitFromEnd(v: string, id: string)
    requires v != [] && Stripped(v)
    requires id != [] && Stripped(id)
    ensures CaseSplitFrom(v + "==" + id, |v|) == Some((v, id))
  {
    var part := v + "==" + id;
    assert part[|v|..] == "==" + id;
    assert LeadingSpace(part[|v|..]) == 0;
    var w := SkipSpace(part[|v|..]);
    assert w == "==" + id && |w| > 2 && w[..2] == "==";
    assert part[..|v|] == v && w[2..] == id;
    StrippedStrip(v);
    StrippedStrip(id);
  }

  /** The cut at `j` finds no `==` and the search moves on to `j + 1`. */
  predicate CutSkips(part: string, j: nat) {
    j >= 1 && CaseSplitFrom(part, j) == CaseSplitFrom(part, j + 1)
  }

  /** A run of skipped cuts from `k` to `n`: the search from `k` gives what the search from `n` gives. */
  lemma {:induction false} CaseSplitRun(part: string, k: nat, n: nat)
    requires 1 <= k <= n
    requires forall j :: k <= j < n ==> CutSkips(part, j)
    ensures CaseSplitFrom(part, k) == CaseSplitFrom(part, n)
    decreases n - k
  {
    if k < n {
      assert CutSkips(part, k);
      CaseSplitRun(part, k + 1, n);
    }
  }

  /** The lazy `value` of a case stops at the first `==`: from cut `k` on, the cut lands at the end of `v`. */
  lemma CaseSplitFromOf(v: string, id: string, k: nat)
    requires 1 <= k <= |v| && Stripped(v) && '=' !in v
    requires id != [] && Stripped(id)
    ensures CaseSplitFrom(v + "==" + id, k) == Some((v, id))
  {
    var part := v + "==" + id;
    forall j | k <= j < |v|
      ensures CutSkips(part, j)
    {
      CaseSplitFromInside(v, id, j);
    }
    CaseSplitRun(part, k, |v|);
    CaseSplitFromEnd(v, id);
  }

  /** `value == id` with a value free of `=`: the case splits into the two sides. */
  lemma CaseSplitOf(v: string, id: string)
    requires v != [] && Stripped(v) && '=' !in v
    requires id != [] && Stripped(id)
    ensures CaseSplit(v + "==" + id) == Some((v, id))
  {
    CaseSplitFromOf(v, id, 1);
  }

  /** `merge fields [f]` and then `after`: the fields text, and the mappings `after` holds when it is not blank. */
  lemma MergeHeaderFieldsOf(f: string, after: string)
    requires ']' !in f
    ensures var r := MergeHeaderMatch("merge" + " " + ("fields" + " " + ("[" + f + "]" + after)));
            && (AllSpace(after) ==> r == Some((f, None)))
            && (!AllSpace(after) && MappingsPart(after).Some? ==> r == Some((f, MappingsPart(after))))
  {
    var x := "[" + f + "]" + after;
    var v := "fields" + " " + x;
    AfterKeywordOf("merge", v);
    KeywordSpace("fields", x);
    assert x[1..] == f + [']'] + after;
    SplitFirstOf(f, ']', after);
  }

  /** `merge fields [f]`: the fields text and no mappings. */
  lemma MergeHeaderMatchOf(f: string)
    requires ']' !in f
    ensures MergeHeaderMatch("merge" + " " + ("fields" + " " + ("[" + f + "]"))) == Some((f, None))
  {
    assert "[" + f + "]" + [] == "[" + f + "]";
    assert AllSpace([]);
    MergeHeaderFieldsOf(f, []);
  }

  /** ` mappings {m}` after the fields: the braced mappings text. */
  lemma MappingsPartOf(m: string)
    ensures MappingsPart(" " + ("mappings" + " " + ("{" + m + "}"))) == Some("{" + m + "}")
  {
    var b := "{" + m + "}";
    var a := "mappings" + " " + b;
    SkipSpaceOfWord(" ", a);
    KeywordSpace("mappings", b);
    StrippedStrip(b);
  }

  /** `merge fields [f] mappings {m}`: the fields text and the braced mappings text. */
  lemma MergeHeaderMappingsOf(f: string, m: string)
    requires ']' !in f
    ensures MergeHeaderMatch("merge" + " " + ("fields" + " " + ("[" + f + "]" + (" " + ("mappings" + " " + ("{" + m + "}"))))))
         == Some((f, Some("{" + m + "}")))
  {
    var after := " " + ("mappings" + " " + ("{" + m + "}"));
    assert !AllSpace(after) by { assert !IsSpace(after[1]); }
    MappingsPartOf(m);
    MergeHeaderFieldsOf(f, after);
  }

  /** The tail ` {body}` after a group keyword: no mode. */
  lemma GroupTailOf(body: string)
    ensures GroupTail(" " + ("{" + body + "}")) == Some((None, body))
  {
    var t := "{" + body + "}";
    SkipSpaceOfWord(" ", t);
    assert !StartsWithCI(t, "map") && !StartsWithCI(t, "list");
    BracedBodyOf(" ", body);
  }

  /** The tail ` map {body}` after a group keyword: the map mode. */
  lemma GroupTailMapOf(body: string)
    ensures GroupTail(" " + ("map" + " " + ("{" + body + "}"))) == Some((Some("map"), body))
  {
    var b := "{" + body + "}";
    var m := "map" + " " + b;
    SkipSpaceOfWord(" ", m);
    KeywordSpace("map", b);
    BracedBodyOf(" ", body);
  }

  /** `fields` followed by a tail that matches is taken as the keyword `fields`. */
  lemma GroupKeywordFieldsOf(tail: string)
    requires GroupTail(tail).Some?
    ensures GroupKeyword("fields" + tail, ["fields", "fieldsmap", "field"])
         == Some(("fields", GroupTail(tail).value.0, GroupTail(tail).value.1))
  {
    var r := "fields" + tail;
    var kws := ["fields", "fieldsmap", "field"];
    StartsWithCIOf("fields", tail);
    assert kws[0] == "fields" && |kws[0]| == 6 <= |r|;
    assert r[6..] == tail;
    assert GroupKeyword(r, kws) == Some(("fields", GroupTail(tail).value.0, GroupTail(tail).value.1));
  }

  /** `g r` after `group by`, with `r` matching the keyword alternation. */
  lemma GroupByRestOf(g: string, r: string)
    requires g != [] && forall i :: 0 <= i < |g| ==> !IsSpace(g[i])
    requires r != [] && !IsSpace(r[0])
    requires GroupKeyword(r, ["fields", "fieldsmap", "field"]).Some?
    ensures var m := GroupKeyword(r, ["fields", "fieldsmap", "field"]).value;
            GroupByRest(g + " " + r) == Some(GroupMatch(g, m.0, m.1, m.2))
  {
    var x := g + " " + r;
    assert x == g + (" " + r);
    NonSpaceLenOf(g, " " + r);
    assert x[..|g|] == g && x[|g|..] == " " + r;
    SkipSpaceOfWord(" ", r);
  }

  /** `group by` and one space each before a rest that starts with a non-space: the rest decides. */
  lemma GroupRegexKeywords(x: string)
    requires x != [] && !IsSpace(x[0])
    ensures GroupRegex("group" + " " + ("by" + " " + x)) == GroupByRest(x)
  {
    AfterKeywordOf("by", x);
    AfterKeywordOf("group", "by" + " " + x);
  }

  /** `group by g r`, with `r` matching the keyword alternation: the groups of `_GROUP_RE`. */
  lemma GroupRegexOf(g: string, r: string)
    requires g != [] && forall i :: 0 <= i < |g| ==> !IsSpace(g[i])
    requires r != [] && !IsSpace(r[0])
    requires GroupKeyword(r, ["fields", "fieldsmap", "field"]).Some?
    ensures var m := GroupKeyword(r, ["fields", "fieldsmap", "field"]).value;
            GroupRegex("group" + " " + ("by" + " " + (g + " " + r))) == Some(GroupMatch(g, m.0, m.1, m.2))
  {
    var x := g + " " + r;
    GroupByRestOf(g, r);
    assert x[0] == g[0];
    GroupRegexKeywords(x);
  }

  /** `agg(arg)` with an identifier `agg`: the name and the raw argument. */
  lemma AggExprOf(agg: string, arg: string)
    requires Ident(agg, false)
    ensures AggExpr(agg + "(" + arg + ")") == Some((agg, arg))
  {
    var e := agg + "(" + arg + ")";
    IdentLenOf(agg, "(" + arg + ")", false);
    assert e == agg + ("(" + arg + ")");
    assert e[|agg|] == '(' && e[..|agg|] == agg && e[|agg| + 1..|e| - 1] == arg;
  }

  /** `fields [f]` after `join `: the text between the brackets. */
  lemma JoinFieldsMatchOf(f: string)
    ensures JoinFieldsMatch("fields" + " " + ("[" + f + "]")) == Some(f)
  {
    var t := "[" + f + "]";
    KeywordSpace("fields", t);
    SkipSpaceOfWord(" ", t);
    StrippedStrip(t);
    assert t[1..|t| - 1] == f;
  }
}
