/**
 * Decompiling a pipeline of filter, identified and limit stages, parsing the
 * text and compiling the query gives the pipeline back: the round trip the
 * decompiler's tests check on `[{"filter": "x == 1"}, {"limit": 1}]`, both as a
 * bare pipeline and as the legacy `{"request": [...]}` body.
 */
module RoundTrip {
  import opened Wrappers
  import opened Strings
  import opened JsonData
  import opened Ast
  import opened Patterns
  import opened Stages
  import Parser
  import Compiler
  import Decompiler
  import Args
  import Scanners

  /** Text the parser keeps as it is: not empty, no surrounding whitespace, no line break. */
  predicate PlainArg(s: string) {
    s != [] && Stripped(s) && NoLineBreak(s)
  }

  /** A filter or identified stage with a plain argument, or a limit of zero or more. */
  predicate SimpleStage(st: Json) {
    && st.JObj? && |st.fields| == 1
    && var (k, v) := st.fields[0];
       || ((k == "filter" || k == "identified") && v.JStr? && PlainArg(v.s))
       || (k == "limit" && v.JInt? && v.i >= 0)
  }

  predicate SimplePipeline(p: seq<Json>) {
    forall i :: 0 <= i < |p| ==> SimpleStage(p[i])
  }

  /** The stage's keyword, and its value as `str` renders it. */
  function StageKw(st: Json): string
    requires SimpleStage(st)
  {
    st.fields[0].0
  }

  function StageArg(st: Json): string
    requires SimpleStage(st)
  {
    var v := st.fields[0].1;
    if v.JStr? then v.s else IntToString(v.i)
  }

  /** The stage text after `| `. */
  function StageText(st: Json): string
    requires SimpleStage(st)
  {
    StageKw(st) + " " + StageArg(st)
  }

  /** The stage lines the decompiler writes for a simple pipeline. */
  function PipedLines(p: seq<Json>): (r: seq<string>)
    requires SimplePipeline(p)
    ensures |r| == |p| && forall i :: 0 <= i < |p| ==> r[i] == "| " + StageText(p[i])
  {
    if p == [] then [] else ["| " + StageText(p[0])] + PipedLines(p[1..])
  }

  /** The stage the parser reads back from a stage text. */
  function ParsedStage(st: Json): Stage
    requires SimpleStage(st)
  {
    var (k, v) := st.fields[0];
    if k == "filter" then Filter(v.s) else if k == "identified" then Identified(v.s) else Limit(v.i)
  }

  function ParsedStages(p: seq<Json>): (r: seq<Stage>)
    requires SimplePipeline(p)
    ensures |r| == |p| && forall i :: 0 <= i < |p| ==> r[i] == ParsedStage(p[i])
  {
    if p == [] then [] else [ParsedStage(p[0])] + ParsedStages(p[1..])
  }

  // ---------------------------------------------------------------------------
  // decompiling

  /** A simple stage decompiles to its one `| ` line. */
  lemma DecompileSimpleStage(codec: Codec, st: Json)
    requires SimpleStage(st)
    ensures Decompiler.DecompileStage(codec, st, "|") == Ok(["| " + StageText(st)])
  {
    var (k, v) := st.fields[0];
    assert !Decompiler.OneKey(st, "merge") && !Decompiler.OneKey(st, "spawn");
    Decompiler.DecompileLeaf(codec, st, "|");
    var raw := Decompiler.RawLine(codec, st, "|");
    assert Decompiler.LeafStageLine(codec, st, "|") == Decompiler.KeyedLine(codec, k, v, "|", raw);
    assert PyStr(codec, v) == StageArg(st);
    if k == "filter" {
      FilterLine(codec, v, raw);
    } else if k == "identified" {
      IdentifiedLine(codec, v, raw);
    } else {
      LimitLine(codec, v, raw);
    }
  }

  /** The `filter` line of a stage. */
  lemma FilterLine(codec: Codec, v: Json, raw: string)
    ensures Decompiler.KeyedLine(codec, "filter", v, "|", raw) == "| " + ("filter" + " " + PyStr(codec, v))
  {
    assert "|" + " filter " + PyStr(codec, v) == "| " + ("filter" + " " + PyStr(codec, v));
  }

  /** The `identified` line of a stage. */
  lemma IdentifiedLine(codec: Codec, v: Json, raw: string)
    ensures Decompiler.KeyedLine(codec, "identified", v, "|", raw) == "| " + ("identified" + " " + PyStr(codec, v))
  {
    assert "|" + " identified " + PyStr(codec, v) == "| " + ("identified" + " " + PyStr(codec, v));
  }

  /** The `limit` line of a stage. */
  lemma LimitLine(codec: Codec, v: Json, raw: string)
    ensures Decompiler.KeyedLine(codec, "limit", v, "|", raw) == "| " + ("limit" + " " + PyStr(codec, v))
  {
    assert "|" + " limit " + PyStr(codec, v) == "| " + ("limit" + " " + PyStr(codec, v));
  }

  lemma {:induction false} DecompileSimpleStages(codec: Codec, acc: seq<string>, p: seq<Json>)
    requires SimplePipeline(p)
    ensures Decompiler.StagesLinesOnto(codec, acc, p, "|") == Ok(acc + PipedLines(p))
    decreases |p|
  {
    if p == [] {
      assert acc + [] == acc;
    } else {
      DecompileSimpleStage(codec, p[0]);
      assert SimplePipeline(p[1..]) by {
        forall i | 0 <= i < |p[1..]| ensures SimpleStage(p[1..][i]) { assert p[1..][i] == p[i + 1]; }
      }
      DecompileSimpleStages(codec, acc + ["| " + StageText(p[0])], p[1..]);
      assert acc + ["| " + StageText(p[0])] + PipedLines(p[1..]) == acc + PipedLines(p);
    }
  }

  /** The text of a simple pipeline: `PIPELINE`, one line per stage, a final newline. */
  lemma DecompileSimple(codec: Codec, p: seq<Json>)
    requires SimplePipeline(p)
    ensures Decompiler.Decompile(codec, JList(p)) == Ok(Strings.Join(["PIPELINE"] + PipedLines(p), "\n") + "\n")
    ensures Decompiler.Decompile(codec, JObj([("request", JList(p))])) == Decompiler.Decompile(codec, JList(p))
  {
    var norm := [("request", JList(p))];
    assert Decompiler.NormalizeBody(JList(p)) == Ok(norm);
    assert Decompiler.NormalizeBody(JObj(norm)) == Ok(norm);
    assert Decompiler.ResponseLines(codec, norm) == [];
    assert Decompiler.RequestLines(codec, JList(p)) == [];
    assert p != [] ==> p[0].fields == [p[0].fields[0]];
    assert !Decompiler.HasSourceHead(p);
    DecompileSimpleStages(codec, ["PIPELINE"], p);
    assert [] + [] + ["PIPELINE"] == ["PIPELINE"];
    assert Decompiler.PipelineLines(codec, [] + [], p, "|") == Ok(["PIPELINE"] + PipedLines(p));
  }

  // ---------------------------------------------------------------------------
  // parsing

  /** A keyword the decompiler writes: lower-case, without whitespace or line breaks. */
  predicate Word(kw: string) {
    kw != [] && forall i :: 0 <= i < |kw| ==> LowerChar(kw[i]) == kw[i] && !IsSpace(kw[i]) && !IsLineBreak(kw[i])
  }

  lemma SimpleParts(st: Json)
    requires SimpleStage(st)
    ensures Word(StageKw(st)) && PlainArg(StageArg(st))
  {
    var v := st.fields[0].1;
    if !v.JStr? {
      assert forall i :: 0 <= i < |StageArg(st)| ==> IsDigit(StageArg(st)[i]);
    }
  }

  /** The line `| kw arg` holds no line break. */
  lemma PipedNoBreak(kw: string, arg: string, t: string)
    requires Word(kw) && PlainArg(arg) && t == kw + " " + arg
    ensures NoLineBreak("| " + t)
  {
    var l := "| " + t;
    forall i | 0 <= i < |l| ensures !IsLineBreak(l[i]) {
      if 2 <= i < 2 + |kw| {
        assert l[i] == kw[i - 2];
      } else if i > 2 + |kw| {
        assert l[i] == arg[i - 3 - |kw|];
      }
    }
  }

  /** `kw arg` has no surrounding spaces, and neither has `| kw arg`. */
  lemma TextStripped(kw: string, arg: string, t: string)
    requires Word(kw) && PlainArg(arg) && t == kw + " " + arg
    ensures Stripped(t) && Stripped("| " + t)
  {
    assert t[0] == kw[0];
    assert t[|t| - 1] == arg[|arg| - 1];
    assert ("| " + t)[|"| " + t| - 1] == t[|t| - 1];
  }

  /** `kw arg` is the stripped rest of the line `| kw arg`, and that line is one `parse` keeps. */
  lemma TextLineClean(kw: string, arg: string)
    requires Word(kw) && PlainArg(arg)
    ensures var t := kw + " " + arg;
            && PipeRest("| " + t) == Some(t)
            && Strip(t) == t
            && CleanLine("| " + t)
  {
    var t := kw + " " + arg;
    TextStripped(kw, arg, t);
    StrippedStrip(t);
    PipeRestOf("| " + t, t);
    PipedNoBreak(kw, arg, t);
  }

  lemma StageLineClean(st: Json)
    requires SimpleStage(st)
    ensures PipeRest("| " + StageText(st)) == Some(StageText(st))
    ensures Strip(StageText(st)) == StageText(st)
    ensures CleanLine("| " + StageText(st))
  {
    SimpleParts(st);
    TextLineClean(StageKw(st), StageArg(st));
  }

  /** The text after a keyword and its space, stripped, is the argument. */
  lemma KeywordArg(pre: string, arg: string)
    requires forall i :: 0 <= i < |pre| ==> LowerChar(pre[i]) == pre[i]
    requires PlainArg(arg)
    ensures StartsWithCI(pre + arg, pre)
    ensures Strip((pre + arg)[|pre|..]) == arg
  {
    StartsWithCIOf(pre, arg);
    assert (pre + arg)[|pre|..] == arg;
    StrippedStrip(arg);
  }

  /** A text whose first letter differs from the keyword's does not start with the keyword. */
  lemma NotStartsWithCI(t: string, p: string)
    requires t != [] && p != [] && LowerChar(t[0]) != p[0]
    ensures !StartsWithCI(t, p)
  {
  }

  /** `_parse_stage` on a text that starts with `filter `. */
  lemma ParseStageFilter(codec: Codec, t: string)
    requires StartsWithCI(t, "filter ")
    ensures ParseStage(codec, t) == Ok(Filter(Strip(t[7..])))
  {
  }

  /** `_parse_stage` on a text that starts with `identified `. */
  lemma ParseStageIdentified(codec: Codec, t: string)
    requires StartsWithCI(t, "identified ")
    ensures ParseStage(codec, t) == IdentifiedStage(Strip(t[11..]))
  {
    NotStartsWithCI(t, "filter ");
  }

  /** `_parse_stage` on a text that starts with `limit `: every earlier keyword starts with another letter. */
  lemma ParseStageLimit(codec: Codec, t: string)
    requires StartsWithCI(t, "limit ")
    ensures ParseStage(codec, t) == LimitStage(Strip(t[6..]))
  {
    NotStartsWithCI(t, "filter ");
    NotStartsWithCI(t, "identified ");
    NotStartsWithCI(t, "eval ");
    NotStartsWithCI(t, "select ");
    NotStartsWithCI(t, "join ");
    NotStartsWithCI(t, "switch");
    NotStartsWithCI(t, "unmarshal ");
    NotStartsWithCI(t, "unwind ");
    NotStartsWithCI(t, "segment");
    NotStartsWithCI(t, "bulkexpand ");
    NotStartsWithCI(t, "raw ");
  }

  lemma ParseFilterText(codec: Codec, arg: string)
    requires PlainArg(arg)
    ensures ParseStage(codec, "filter " + arg) == Ok(Filter(arg))
  {
    KeywordArg("filter ", arg);
    ParseStageFilter(codec, "filter " + arg);
  }

  lemma ParseIdentifiedText(codec: Codec, arg: string)
    requires PlainArg(arg)
    ensures ParseStage(codec, "identified " + arg) == Ok(Identified(arg))
  {
    KeywordArg("identified ", arg);
    ParseStageIdentified(codec, "identified " + arg);
  }

  lemma ParseLimitText(codec: Codec, n: int)
    requires n >= 0
    ensures ParseStage(codec, "limit " + IntToString(n)) == Ok(Limit(n))
  {
    var arg := IntToString(n);
    assert forall i :: 0 <= i < |arg| ==> IsDigit(arg[i]);
    KeywordArg("limit ", arg);
    ParseStageLimit(codec, "limit " + arg);
  }

  /** `_parse_stage` reads a stage text back as the stage it came from. */
  lemma ParseSimpleStage(codec: Codec, st: Json)
    requires SimpleStage(st)
    ensures ParseStage(codec, StageText(st)) == Ok(ParsedStage(st))
  {
    var (k, v) := st.fields[0];
    assert StageText(st) == k + " " + StageArg(st);
    if k == "filter" {
      assert StageText(st) == "filter " + v.s;
      ParseFilterText(codec, v.s);
    } else if k == "identified" {
      assert StageText(st) == "identified " + v.s;
      ParseIdentifiedText(codec, v.s);
    } else {
      assert StageText(st) == "limit " + IntToString(v.i);
      ParseLimitText(codec, v.i);
    }
  }

  /** A stage text starts with `f`, `i` or `l`, the first letter of no block keyword. */
  lemma SimpleFirstChar(st: Json)
    requires SimpleStage(st)
    ensures StageText(st) != [] && LowerChar(StageText(st)[0]) !in "smrb"
  {
    assert StageText(st)[0] == StageKw(st)[0];
  }

  /** A stage text that opens no block is parsed by `_parse_stage` alone. */
  lemma StageAtSingle(codec: Codec, lines: seq<string>, idx: nat, t: string)
    requires idx < |lines| && t != [] && LowerChar(t[0]) !in "smrb"
    ensures Parser.StageAt(codec, lines, idx, t)
            == (match ParseStage(codec, t) case Ok(st) => Ok((st, idx + 1)) case Err(e) => Err(e))
  {
    assert Lower(t)[0] == LowerChar(t[0]);
    NotStartsWithCI(t, "merge ");
    NotStartsWithCI(t, "raw ");
    NotStartsWithCI(t, "bulkexpand ");
  }

  /** The stage loop reads one single-line stage and goes on with the next line. */
  lemma StagesFromSingle(codec: Codec, lines: seq<string>, idx: nat, q: Query, t: string, st: Stage)
    requires Parser.WellFormedQuery(q) && idx < |lines|
    requires PipeRest(lines[idx]) == Some(t) && Strip(t) == t
    requires Parser.StageAt(codec, lines, idx, t) == Ok((st, idx + 1))
    ensures Parser.StagesFrom(codec, lines, idx, q) == Parser.StagesFrom(codec, lines, idx + 1, q.(stages := q.stages + [st]))
  {
  }

  /** The stage loop takes one stage from a simple stage line and goes on with the next line. */
  lemma StagesFromStep(codec: Codec, lines: seq<string>, idx: nat, q: Query, st: Json)
    requires SimpleStage(st) && Parser.WellFormedQuery(q)
    requires idx < |lines| && lines[idx] == "| " + StageText(st)
    ensures Parser.StagesFrom(codec, lines, idx, q)
            == Parser.StagesFrom(codec, lines, idx + 1, q.(stages := q.stages + [ParsedStage(st)]))
  {
    StageLineClean(st);
    ParseSimpleStage(codec, st);
    var t := StageText(st);
    SimpleFirstChar(st);
    StageAtSingle(codec, lines, idx, t);
    StagesFromSingle(codec, lines, idx, q, t, ParsedStage(st));
  }

  /** The first line of a simple pipeline's stage lines, and the rest. */
  lemma PipedLinesTail(lines: seq<string>, idx: nat, p: seq<Json>)
    requires SimplePipeline(p) && p != []
    requires idx <= |lines| && lines[idx..] == PipedLines(p)
    ensures idx < |lines| && lines[idx] == "| " + StageText(p[0])
    ensures SimplePipeline(p[1..]) && lines[idx + 1..] == PipedLines(p[1..])
    ensures ParsedStages(p) == [ParsedStage(p[0])] + ParsedStages(p[1..])
  {
    assert lines[idx] == lines[idx..][0];
    assert forall i :: 0 <= i < |p[1..]| ==> p[1..][i] == p[i + 1];
    assert lines[idx + 1..] == lines[idx..][1..];
  }

  lemma AppendStage(q: Query, st: Stage, rest: seq<Stage>)
    ensures q.(stages := q.stages + [st]).(stages := q.(stages := q.stages + [st]).stages + rest)
            == q.(stages := q.stages + ([st] + rest))
  {
    assert q.stages + [st] + rest == q.stages + ([st] + rest);
  }

  lemma {:induction false} ParseSimpleStages(codec: Codec, lines: seq<string>, idx: nat, q: Query, p: seq<Json>)
    requires SimplePipeline(p) && Parser.WellFormedQuery(q)
    requires idx <= |lines| && lines[idx..] == PipedLines(p)
    ensures Parser.StagesFrom(codec, lines, idx, q) == Ok(q.(stages := q.stages + ParsedStages(p)))
    decreases |p|
  {
    if p == [] {
      assert q.stages + [] == q.stages;
    } else {
      PipedLinesTail(lines, idx, p);
      StagesFromStep(codec, lines, idx, q, p[0]);
      ParseSimpleStages(codec, lines, idx + 1, q.(stages := q.stages + [ParsedStage(p[0])]), p[1..]);
      AppendStage(q, ParsedStage(p[0]), ParsedStages(p[1..]));
    }
  }

  /** `PIPELINE` is neither a RESPONSE nor a REQUEST line, and opens PIPELINE mode. */
  lemma PipelineLineFacts()
    ensures IsPipelineLine("PIPELINE") && ResponseRest("PIPELINE").None? && RequestRest("PIPELINE").None?
  {
    StartsWithCIOf("pipeline", []);
    assert "PIPELINE" + [] == "PIPELINE";
    assert "PIPELINE"[8..] == [];
    NotStartsWithCI("PIPELINE", "response");
    NotStartsWithCI("PIPELINE", "request");
  }

  /** The header loop passes over a first line that is neither RESPONSE nor REQUEST. */
  lemma HeadersPipeline(codec: Codec, lines: seq<string>)
    requires |lines| >= 1 && lines[0] == "PIPELINE"
    ensures Parser.ParseLines(codec, lines) == Parser.SourceAt(codec, lines, 0, DefaultMimeType, None)
  {
    PipelineLineFacts();
  }

  /** `PIPELINE` opens a query without source and stages, and the stage loop starts on the next line. */
  lemma SourceAtPipeline(codec: Codec, lines: seq<string>)
    requires |lines| >= 1 && lines[0] == "PIPELINE"
    ensures Parser.SourceAt(codec, lines, 0, DefaultMimeType, None)
            == Parser.StagesFrom(codec, lines, 1, Query(None, None, [], DefaultMimeType, None))
  {
    PipelineLineFacts();
    assert Parser.Opening(lines, 0, DefaultMimeType, None) == Ok((Query(None, None, [], DefaultMimeType, None), 1));
  }

  /** The lines of a simple pipeline parse, in PIPELINE mode with the default header, to its stages. */
  lemma ParseSimpleLines(codec: Codec, p: seq<Json>)
    requires SimplePipeline(p)
    ensures Parser.ParseLines(codec, ["PIPELINE"] + PipedLines(p))
            == Ok(Query(None, None, ParsedStages(p), DefaultMimeType, None))
  {
    var lines := ["PIPELINE"] + PipedLines(p);
    HeadersPipeline(codec, lines);
    SourceAtPipeline(codec, lines);
    assert lines[1..] == PipedLines(p);
    ParseSimpleStages(codec, lines, 1, Query(None, None, [], DefaultMimeType, None), p);
    assert [] + ParsedStages(p) == ParsedStages(p);
  }

  /** Every line of a simple pipeline's text is one `parse` keeps as it is. */
  lemma SimpleLinesClean(p: seq<Json>)
    requires SimplePipeline(p)
    ensures forall l :: l in ["PIPELINE"] + PipedLines(p) ==> CleanLine(l)
  {
    var lines := ["PIPELINE"] + PipedLines(p);
    forall l | l in lines ensures CleanLine(l) {
      if l != "PIPELINE" {
        var i :| 0 <= i < |lines| && lines[i] == l;
        StageLineClean(p[i - 1]);
      }
    }
  }

  lemma ParseSimple(codec: Codec, p: seq<Json>)
    requires SimplePipeline(p)
    ensures Parser.ParseText(codec, Strings.Join(["PIPELINE"] + PipedLines(p), "\n") + "\n")
            == Ok(Query(None, None, ParsedStages(p), DefaultMimeType, None))
  {
    var lines := ["PIPELINE"] + PipedLines(p);
    SimpleLinesClean(p);
    assert forall l :: l in lines ==> NoLineBreak(l);
    SplitJoinedLinesNewline(lines);
    CleanLinesOfClean(lines);
    ParseSimpleLines(codec, p);
  }

  // ---------------------------------------------------------------------------
  // compiling, and the whole round trip

  /** A parsed stage compiles back to the stage object it was read from. */
  lemma CompileSimpleStage(st: Json, nowMs: Option<int>)
    requires SimpleStage(st)
    ensures Compiler.CompileStage(ParsedStage(st), nowMs) == Ok(st)
  {
    var (k, v) := st.fields[0];
    assert st == JObj([(k, v)]);
  }

  /** The parsed stages compile back to the stage objects they were read from. */
  lemma CompileSimple(p: seq<Json>, nowMs: Option<int>)
    requires SimplePipeline(p)
    ensures Compiler.CompilePipeline(Query(None, None, ParsedStages(p), DefaultMimeType, None), nowMs) == Ok(p)
  {
    var q := Query(None, None, ParsedStages(p), DefaultMimeType, None);
    forall i | 0 <= i < |p|
      ensures Compiler.CompileStage(q.stages[i], nowMs) == Ok(p[i])
    {
      CompileSimpleStage(p[i], nowMs);
    }
    Compiler.CompilePipelineShape(q, nowMs);
    assert q.eventSource.None? && |q.stages| == |p|;
    var out := Compiler.CompilePipeline(q, nowMs).value;
    assert |out| == |p|;
    forall i | 0 <= i < |p|
      ensures out[i] == p[i]
    {
      assert out[0 + i] == Compiler.CompileStage(q.stages[i], nowMs).value;
    }
    assert out == p;
  }

  /**
   * `compile(parse(decompile(pipeline)))` holds the pipeline again, for a bare
   * pipeline and for the legacy `{"request": pipeline}` body.
   */
  lemma DecompileRoundTrip(codec: Codec, p: seq<Json>, nowMs: Option<int>)
    requires SimplePipeline(p)
    ensures Decompiler.Decompile(codec, JList(p)).Ok?
    ensures Decompiler.Decompile(codec, JObj([("request", JList(p))])) == Decompiler.Decompile(codec, JList(p))
    ensures var q := Parser.ParseText(codec, Decompiler.Decompile(codec, JList(p)).value);
            && q.Ok?
            && Compiler.CompilePipeline(q.value, nowMs) == Ok(p)
            && Compiler.CompileToAggregation(q.value, nowMs).Ok?
            && Get(Get(Compiler.CompileToAggregation(q.value, nowMs).value.fields, "request").value.fields, "pipeline")
               == Some(JList(p))
  {
    DecompileSimple(codec, p);
    ParseSimple(codec, p);
    CompileSimple(p, nowMs);
  }

  // ---------------------------------------------------------------------------
  // switch cases and group fields read back

  /**
   * A case whose value and identifier are plain strings renders as the two quoted
   * strings joined by `==`, and the parser reads that text back as the same case.
   */
  lemma CaseTextReads(codec: Codec, c: Json, a: string, b: string)
    requires QuotesPlainly(codec) && PlainText(a) && PlainText(b) && '=' !in a
    requires c.JObj? && Get(c.fields, "value") == Some(JStr(a)) && Get(c.fields, "==") == Some(JStr(b))
    ensures var t := Decompiler.CaseText(codec, c);
            && t == Some("\"" + a + "\"" + "==" + ("\"" + b + "\""))
            && SwitchCaseOf(t.value) == Ok(SwitchCase(a, b))
  {
    assert Decompiler.FormatSwitchScalar(codec, JStr(a)) == "\"" + a + "\"";
    assert Decompiler.FormatSwitchScalar(codec, JStr(b)) == "\"" + b + "\"";
    SwitchCaseQuoted(a, b);
  }

  /**
   * A group field `{agg: arg}` under `alias` renders as `alias=agg(arg)`, a `null`
   * argument as `null`, and the parser reads that text back as the same field, the
   * `null` argument (in any case) as no argument.
   */
  lemma GroupPartReads(codec: Codec, alias: string, agg: string, arg: Json)
    requires Stripped(alias) && '=' !in alias && Ident(agg, false)
    requires arg.JNull? || (arg.JStr? && Stripped(arg.s))
    ensures var t := Decompiler.GroupPart(codec, alias, JObj([(agg, arg)]));
            && t.Some? && '=' in t.value
            && GroupFieldOf(t.value) == Ok(GroupField(alias, agg, if arg.JNull? then None else AggArg(arg.s)))
  {
    var text := if arg.JNull? then "null" else arg.s;
    var t := alias + "=" + agg + "(" + text + ")";
    assert Decompiler.GroupPart(codec, alias, JObj([(agg, arg)])) == Some(t);
    assert t[|alias|] == '=';
    if arg.JNull? {
      assert Lower("null") == "null";
    }
    GroupFieldText(alias, agg, text);
  }

  /** Case objects whose value and identifier are the plain strings of `cs`, pair by pair. */
  predicate PlainCases(cases: seq<Json>, cs: seq<(string, string)>) {
    && |cases| == |cs|
    && (forall i :: 0 <= i < |cs| ==> PlainText(cs[i].0) && PlainText(cs[i].1) && '=' !in cs[i].0)
    && (forall i :: 0 <= i < |cs| ==>
          cases[i].JObj? && Get(cases[i].fields, "value") == Some(JStr(cs[i].0)) && Get(cases[i].fields, "==") == Some(JStr(cs[i].1)))
  }

  lemma PlainCasesTail(cases: seq<Json>, cs: seq<(string, string)>)
    requires PlainCases(cases, cs) && cases != []
    ensures PlainCases(cases[1..], cs[1..])
    ensures PlainText(cs[0].0) && PlainText(cs[0].1) && '=' !in cs[0].0
    ensures cases[0].JObj? && Get(cases[0].fields, "value") == Some(JStr(cs[0].0)) && Get(cases[0].fields, "==") == Some(JStr(cs[0].1))
  {
    assert forall i :: 0 <= i < |cs| - 1 ==> cs[1..][i] == cs[i + 1] && cases[1..][i] == cases[i + 1];
  }

  lemma QuotedCaseTextsCons(cs: seq<(string, string)>)
    requires cs != []
    ensures QuotedCaseTexts(cs) == ["\"" + cs[0].0 + "\"" + "==" + ("\"" + cs[0].1 + "\"")] + QuotedCaseTexts(cs[1..])
  {
  }

  /** Cases given as plain string pairs render, in order, as the quoted case texts. */
  lemma {:induction false} CaseTextsQuoted(codec: Codec, cases: seq<Json>, cs: seq<(string, string)>)
    requires QuotesPlainly(codec) && PlainCases(cases, cs)
    ensures Decompiler.CaseTexts(codec, cases) == Some(QuotedCaseTexts(cs))
  {
    if cases != [] {
      PlainCasesTail(cases, cs);
      CaseTextReads(codec, cases[0], cs[0].0, cs[0].1);
      CaseTextsQuoted(codec, cases[1..], cs[1..]);
      QuotedCaseTextsCons(cs);
    }
  }

  /** The right-nested switch text the parser lemmas use is the decompiler's `switch ` line. */
  lemma SwitchTextShape(o: string, f: string, j: string)
    ensures "switch" + " " + (o + " " + ("from" + " " + (f + " " + ("{" + (" " + j + " ") + "}"))))
         == "switch " + (o + " from " + f + " { " + j + " }")
  {
  }

  /**
   * A switch over plain string cases renders as `switch out from field { "a"=="b", ... }`,
   * and the parser reads that line back as the same output, field and cases, in order.
   */
  lemma SwitchTextReads(codec: Codec, out: string, field: string, cases: seq<Json>, cs: seq<(string, string)>)
    requires QuotesPlainly(codec) && PlainCases(cases, cs)
    requires Ident(out, false) && Ident(field, true)
    ensures Decompiler.SwitchText(codec, [(out, JObj([(field, JList(cases))]))]).Some?
    ensures SwitchReadsAs("switch " + Decompiler.SwitchText(codec, [(out, JObj([(field, JList(cases))]))]).value, out, field, cs)
  {
    var j := Strings.Join(QuotedCaseTexts(cs), ", ");
    SwitchTextOf(codec, out, field, cases, cs);
    SwitchTextShape(out, field, j);
    PlainCasesUnescaped(cases, cs);
    SwitchStageQuoted(out, field, cs);
  }

  /** Plain cases hold nothing the quoting escapes, and no `=` in a value. */
  lemma PlainCasesUnescaped(cases: seq<Json>, cs: seq<(string, string)>)
    requires PlainCases(cases, cs)
    ensures forall c :: c in cs ==> Unescaped(c.0) && Unescaped(c.1) && '=' !in c.0
  {
  }

  /** The switch text of plain cases: output, `from`, field and the quoted cases in braces. */
  lemma SwitchTextOf(codec: Codec, out: string, field: string, cases: seq<Json>, cs: seq<(string, string)>)
    requires QuotesPlainly(codec) && PlainCases(cases, cs)
    ensures Decompiler.SwitchText(codec, [(out, JObj([(field, JList(cases))]))])
         == Some(out + " from " + field + " { " + Strings.Join(QuotedCaseTexts(cs), ", ") + " }")
  {
    CaseTextsQuoted(codec, cases, cs);
  }

  /** List-form group fields `{alias: {agg: arg}}` holding the parts of `fs`, in order. */
  predicate ListGroupItems(items: seq<Json>, fs: seq<(string, string, string)>) {
    |items| == |fs| && forall i :: 0 <= i < |fs| ==> items[i] == JObj([(fs[i].0, JObj([(fs[i].1, JStr(fs[i].2))]))])
  }

  /** The list-form fields render as the `alias=agg(arg)` texts, in order. */
  lemma GroupListTexts(codec: Codec, items: seq<Json>, fs: seq<(string, string, string)>)
    requires ListGroupItems(items, fs)
    ensures Decompiler.GroupListParts(codec, items) == Some(GroupPartTexts(fs))
  {
    forall i | 0 <= i < |items|
      ensures Decompiler.GroupPart(codec, items[i].fields[0].0, items[i].fields[0].1) == Some(GroupPartTexts(fs)[i])
    {
      assert PyStr(codec, JStr(fs[i].2)) == fs[i].2;
    }
    var r := Decompiler.GroupListParts(codec, items);
    assert r.Some?;
    assert r.value == GroupPartTexts(fs);
  }

  /** The right-nested group text the parser lemmas use is the decompiler's `group ` line. */
  lemma GroupTextShape(g: string, j: string)
    ensures "group" + " " + ("by" + " " + (g + " " + ("fields" + (" " + ("{" + (" " + j + " ") + "}")))))
         == "group " + ("by " + g + " fields { " + j + " }")
  {
  }

  /**
   * A list-form group over plain group-by names and clean parts renders as
   * `group by g1,g2 fields { a1=f1(x1), ... }`, and the parser reads that line back
   * as the same group-by names and fields, in order, in list form.
   */
  lemma GroupTextReads(codec: Codec, gjs: seq<Json>, gs: seq<string>, items: seq<Json>, fs: seq<(string, string, string)>)
    requires gs != [] && |gjs| == |gs| && forall i :: 0 <= i < |gs| ==> gjs[i] == JStr(gs[i])
    requires forall g :: g in gs ==> g != [] && ',' !in g && forall i :: 0 <= i < |g| ==> !IsSpace(g[i])
    requires fs != [] && (forall f :: f in fs ==> CleanGroupPart(f)) && ListGroupItems(items, fs)
    ensures var grp := [("group", JList(gjs)), ("fields", JList(items))];
            && Decompiler.GroupText(codec, grp).Some?
            && ParseGroup("group " + Decompiler.GroupText(codec, grp).value) == Ok(GroupFields(gs, PartFields(fs), false))
  {
    GroupTextOf(codec, gjs, gs, items, fs);
    GroupTextShape(Strings.Join(gs, ","), Strings.Join(GroupPartTexts(fs), ", "));
    ParseGroupText(gs, fs);
  }

  /** The text `GroupTextReads` reads back. */
  lemma GroupTextOf(codec: Codec, gjs: seq<Json>, gs: seq<string>, items: seq<Json>, fs: seq<(string, string, string)>)
    requires |gjs| == |gs| && forall i :: 0 <= i < |gs| ==> gjs[i] == JStr(gs[i])
    requires ListGroupItems(items, fs)
    ensures Decompiler.GroupText(codec, [("group", JList(gjs)), ("fields", JList(items))])
         == Some("by " + Strings.Join(gs, ",") + " fields { " + Strings.Join(GroupPartTexts(fs), ", ") + " }")
  {
    var grp := [("group", JList(gjs)), ("fields", JList(items))];
    assert Decompiler.PyStrs(codec, gjs) == gs;
    GroupListTexts(codec, items, fs);
    assert Get(grp, "group") == Some(JList(gjs)) && Get(grp, "fields") == Some(JList(items));
  }

  /**
   * A segment whose `id` is a plain string renders as `id="a"`, and the parser reads
   * that text back as the same `id`.
   */
  lemma SegmentTextReads(codec: Codec, seg: Dict<Json>, a: string)
    requires QuotesPlainly(codec) && PlainText(a) && Get(seg, "id") == Some(JStr(a))
    ensures Decompiler.SegmentId(seg) == Some(JStr(a))
    ensures var t := "id=" + codec.dumps(JStr(PyStr(codec, JStr(a))));
            t == "id=" + ("\"" + a + "\"") && ParseSegment(t) == Ok([("id", JStr(a))])
  {
    SegmentIdText(a);
  }

  /** A plain token and its two sides: a key, `=`, and a value, none with spaces, quotes, backslashes or parentheses. */
  lemma PlainPairToken(k: string, v: string)
    requires Scanners.PlainToken(k) && '=' !in k && Scanners.PlainToken(v)
    ensures Args.CleanPair((k, v)) && Scanners.GroupToken(k + "=" + v)
  {
    Scanners.PlainTokenIsGroup(k);
    Scanners.PlainTokenIsGroup(v);
    var t := k + "=" + v;
    assert Scanners.PlainToken(t) by {
      forall i | 0 <= i < |t| ensures !IsSpace(t[i]) && t[i] !in "\"\\()" {
        if i < |k| { assert t[i] == k[i]; } else if i > |k| { assert t[i] == v[i - |k| - 1]; }
      }
    }
    Scanners.PlainTokenIsGroup(t);
  }

  /** The decimal text of an integer, with its sign, is a plain token. */
  lemma DigitsPlain(n: int)
    ensures Scanners.PlainToken(IntToString(n))
  {
    var d := IntToString(n);
    if n >= 0 {
      assert forall i :: 0 <= i < |d| ==> IsDigit(d[i]);
    } else {
      forall i | 0 <= i < |d| ensures d[i] == '-' || IsDigit(d[i]) {
        if i > 0 { assert d[i] == d[1..][i - 1]; }
      }
    }
  }

  /** The keys of a time series dictionary differ from one another. */
  lemma SeriesKeys(k: string)
    requires k == "count" || k == "last"
    ensures "period" != "first" && "period" != k && "first" != k && "count" != "last"
  {
    assert |"period"| == 6 && |"first"| == 5 && |"last"| == 4;
    assert "first"[0] == 'f' && "count"[0] == 'c';
  }

  /** What `get` reads from a dictionary holding `period`, `first` and then `count` or `last`. */
  lemma SeriesGets<V>(a: V, b: V, k: string, c: V)
    requires k == "count" || k == "last"
    ensures var d := [("period", a), ("first", b), (k, c)];
            && Get(d, "period") == Some(a) && Get(d, "first") == Some(b) && Get(d, k) == Some(c)
            && Get(d, if k == "count" then "last" else "count").None?
  {
    SeriesKeys(k);
    var d := [("period", a), ("first", b), (k, c)];
    var other := if k == "count" then "last" else "count";
    var d1 := [("first", b), (k, c)];
    var d2 := [(k, c)];
    var none: Dict<V> := [];
    assert d[1..] == d1 && d1[1..] == d2 && d2[1..] == none;
    assert Get(d, "first") == Get(d1, "first");
    assert Get(d, k) == Get(d1, k) == Get(d2, k);
    assert Get(d, other) == Get(d1, other) == Get(d2, other) == Get(none, other);
  }

  /** The scalars the TIMESERIES pairs give, under the same keys, and nothing under the other of count/last. */
  lemma SeriesScalars(p: string, fs: string, k: string, ns: string)
    requires k == "count" || k == "last"
    ensures var kv := Args.PutScalars([], [("period", p), ("first", fs), (k, ns)]);
            && Get(kv, "period") == Some(Args.ParseScalar(p)) && Get(kv, "first") == Some(Args.ParseScalar(fs))
            && Get(kv, k) == Some(Args.ParseScalar(ns)) && Get(kv, if k == "count" then "last" else "count").None?
  {
    SeriesKeys(k);
    var other := if k == "count" then "last" else "count";
    var ps := [("period", p), ("first", fs), (k, ns)];
    var ps1 := [("first", fs), (k, ns)];
    var ps2 := [(k, ns)];
    var nops: seq<(string, string)> := [];
    assert ps[1..] == ps1 && ps1[1..] == ps2 && ps2[1..] == nops;
    var none: Dict<Scalar> := [];
    var d1 := Put(none, "period", Args.ParseScalar(p));
    var d2 := Put(d1, "first", Args.ParseScalar(fs));
    var d3 := Put(d2, k, Args.ParseScalar(ns));
    assert Args.PutScalars(none, ps) == Args.PutScalars(d1, ps1) == Args.PutScalars(d2, ps2) == Args.PutScalars(d3, nops) == d3;
    assert Get(d3, other) == Get(d2, other) == Get(d1, other) == Get(none, other);
  }

  /** The `key=` prefixes the TIMESERIES parts start with. */
  lemma SeriesKeyTexts()
    ensures "count" + "=" == "count=" && "last" + "=" == "last=" && "period" + "=" == "period=" && "first" + "=" == "first="
  {
  }

  /** The TIMESERIES parts of that dictionary are its `key=value` texts, in order. */
  lemma SeriesParts(codec: Codec, p: string, f: int, k: string, n: int)
    requires k == "count" || k == "last"
    ensures var t := [("period", JStr(p)), ("first", JInt(f)), (k, JInt(n))];
            Decompiler.TimeSeriesParts(codec, t) == Ok(["period=" + p, "first=" + IntToString(f), k + "=" + IntToString(n)])
  {
    var t := [("period", JStr(p)), ("first", JInt(f)), (k, JInt(n))];
    SeriesGets(JStr(p), JInt(f), k, JInt(n));
    SeriesKeyTexts();
    var base := ["period=" + p, "first=" + IntToString(f)];
    assert PyStr(codec, JStr(p)) == p && Decompiler.FormatTimeValue(codec, JInt(f)) == IntToString(f);
    if k == "count" {
      assert PyStr(codec, JInt(n)) == IntToString(n);
      assert Decompiler.TimeSeriesParts(codec, t) == Ok(base + [k + "=" + IntToString(n)]);
    } else {
      assert Decompiler.FormatTimeValue(codec, JInt(n)) == IntToString(n);
      assert Decompiler.TimeSeriesParts(codec, t) == Ok(base + [k + "=" + IntToString(n)]);
    }
    assert base + [k + "=" + IntToString(n)] == ["period=" + p, "first=" + IntToString(f), k + "=" + IntToString(n)];
  }

  /** The texts of three pairs. */
  lemma PairTextsThree(a: (string, string), b: (string, string), c: (string, string))
    ensures Args.PairTexts([a, b, c]) == [a.0 + "=" + a.1, b.0 + "=" + b.1, c.0 + "=" + c.1]
  {
    var r := Args.PairTexts([a, b, c]);
    assert r[0] == a.0 + "=" + a.1 && r[1] == b.0 + "=" + b.1 && r[2] == c.0 + "=" + c.1;
  }

  /** Three clean pairs, written as `key=value` tokens joined by spaces, read back as their scalars. */
  lemma KvPairsThree(a: (string, string), b: (string, string), c: (string, string))
    requires Args.CleanPair(a) && Scanners.GroupToken(a.0 + "=" + a.1)
    requires Args.CleanPair(b) && Scanners.GroupToken(b.0 + "=" + b.1)
    requires Args.CleanPair(c) && Scanners.GroupToken(c.0 + "=" + c.1)
    ensures Args.KvPairs(Strings.Join([a.0 + "=" + a.1, b.0 + "=" + b.1, c.0 + "=" + c.1], " "))
            == Ok(Args.PutScalars([], [a, b, c]))
  {
    PairTextsThree(a, b, c);
    assert forall q :: q in [a, b, c] ==> q == a || q == b || q == c;
    Args.KvPairsText([a, b, c]);
  }

  /** The `key=value` pairs of the TIMESERIES parts read as the scalars of those pairs. */
  lemma SeriesKvPairs(p: string, f: int, k: string, n: int)
    requires k == "count" || k == "last"
    requires Scanners.PlainToken(p)
    ensures var ps := [("period", p), ("first", IntToString(f)), (k, IntToString(n))];
            Args.KvPairs(Strings.Join(["period=" + p, "first=" + IntToString(f), k + "=" + IntToString(n)], " "))
            == Ok(Args.PutScalars([], ps))
  {
    DigitsPlain(f);
    DigitsPlain(n);
    SeriesKeyNames(k);
    SeriesKeyTexts();
    PlainPairToken("period", p);
    PlainPairToken("first", IntToString(f));
    PlainPairToken(k, IntToString(n));
    KvPairsThree(("period", p), ("first", IntToString(f)), (k, IntToString(n)));
  }

  /** The key names are plain tokens without `=`. */
  lemma SeriesKeyNames(k: string)
    requires k == "count" || k == "last"
    ensures Scanners.PlainToken("period") && '=' !in "period"
    ensures Scanners.PlainToken("first") && '=' !in "first"
    ensures Scanners.PlainToken(k) && '=' !in k
  {
  }

  /** Those scalars make the time series they were written from. */
  lemma SeriesOfScalars(p: string, f: int, k: string, n: int)
    requires k == "count" || k == "last"
    requires p != [] && p[0] != '"' && p[0] != '-' && p[0] != '[' && !IsDigit(p[0])
    ensures Parser.TimeSeriesOf(Args.PutScalars([], [("period", p), ("first", IntToString(f)), (k, IntToString(n))]))
            == Ok(TimeSeries(p, TInt(f), if k == "count" then Some(n) else None, if k == "count" then None else Some(TInt(n))))
  {
    SeriesKeys(k);
    Args.ParseScalarWord(p);
    Args.ParseScalarInt(f);
    Args.ParseScalarInt(n);
    SeriesScalars(p, IntToString(f), k, IntToString(n));
  }

  /**
   * The TIMESERIES line the decompiler writes for a period word, an integer
   * `first` and an integer `count` (or `last`), negative ones included, reads
   * back as that time series.
   */
  lemma TimeSeriesLineReads(codec: Codec, p: string, f: int, useCount: bool, n: int)
    requires Scanners.PlainToken(p) && p[0] != '-' && p[0] != '[' && !IsDigit(p[0])
    ensures var t := [("period", JStr(p)), ("first", JInt(f)), (if useCount then "count" else "last", JInt(n))];
            var parts := Decompiler.TimeSeriesParts(codec, t);
            && parts.Ok?
            && Parser.TimeSeriesLine(Strings.Join(parts.value, " "))
               == Ok(TimeSeries(p, TInt(f), if useCount then Some(n) else None, if useCount then None else Some(TInt(n))))
  {
    var k := if useCount then "count" else "last";
    SeriesParts(codec, p, f, k, n);
    SeriesKvPairs(p, f, k, n);
    SeriesOfScalars(p, f, k, n);
  }

}
