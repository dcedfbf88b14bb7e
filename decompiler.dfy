/**
 * The decompiler: a request body (or a bare pipeline) becomes DSL text. Each
 * stage object is matched against the shapes the compiler emits, in the
 * source's order; anything else becomes a one-line `raw` stage. Merge and
 * spawn stages recurse into their nested pipelines, and the source stage of a
 * pipeline becomes FROM / TIMESERIES lines.
 *
 * A Python dictionary with `k in d and len(d) == 1` is a `Dict` of one entry
 * whose key is `k`: the objects `json.loads` returns have distinct keys.
 */
module Decompiler {
  import opened Wrappers
  import opened Strings
  import opened JsonData

  // ---------------------------------------------------------------------------
  // error messages

  const NotABody := "Expected a JSON object (aggregation body) or a pipeline array"
  const MissingRequest := "Missing 'request' in aggregation body"
  const NamedNeedsPipeline := "Named request must contain 'pipeline'"
  const RequestKind := "'request' must be a list or an object"
  const PipelineNotList := "request.pipeline must be a list"
  const MissingEventSource := "source stage missing event source"
  const NeedsPeriodFirst := "timeSeries requires period and first"
  const NeedsCountLast := "timeSeries requires count or last"

  // ---------------------------------------------------------------------------
  // the envelope

  /** `_normalize_body`: a bare list is the request pipeline; a body needs a list or a named `request`. */
  function NormalizeBody(body: Json): (r: Result<Dict<Json>>)
    ensures body.JList? ==> r == Ok([("request", body)])
    ensures !body.JList? && !body.JObj? ==> r == Err(NotABody)
    ensures body.JObj? ==>
              (r.Ok? <==> (&& Get(body.fields, "request").Some?
                           && (|| Get(body.fields, "request").value.JList?
                               || (Get(body.fields, "request").value.JObj?
                                   && Get(Get(body.fields, "request").value.fields, "pipeline").Some?))))
    ensures body.JObj? && r.Ok? ==> r.value == body.fields
    ensures r.Ok? ==> Get(r.value, "request").Some? && (Get(r.value, "request").value.JList? || Get(r.value, "request").value.JObj?)
    ensures r.Ok? && Get(r.value, "request").value.JObj? ==> Get(Get(r.value, "request").value.fields, "pipeline").Some?
  {
    match body
    case JList(_) => Ok([("request", body)])
    case JObj(fields) =>
      (match Get(fields, "request")
       case None => Err(MissingRequest)
       case Some(request) =>
         if request.JList? then Ok(fields)
         else if request.JObj? then
           if Get(request.fields, "pipeline").None? then Err(NamedNeedsPipeline) else Ok(fields)
         else Err(RequestKind))
    case _ => Err(NotABody)
  }

  // ---------------------------------------------------------------------------
  // rendering values

  /** `k=v` for each entry, with `v` as `str` renders it. */
  function EntryTexts(codec: Codec, m: Dict<Json>): (r: seq<string>)
    ensures |r| == |m|
    ensures forall i :: 0 <= i < |m| ==> r[i] == m[i].0 + "=" + PyStr(codec, m[i].1)
  {
    if m == [] then [] else [m[0].0 + "=" + PyStr(codec, m[0].1)] + EntryTexts(codec, m[1..])
  }

  /** `_format_brace_map`: keys without quotes, values as `str` renders them. */
  function FormatBraceMap(codec: Codec, m: Dict<Json>): string {
    "{ " + Join(EntryTexts(codec, m), ", ") + " }"
  }

  /** `_format_bracket_value`: strings are JSON-quoted so that the parser reads them back as strings. */
  function FormatBracketValue(codec: Codec, v: Json): (r: string)
    ensures !v.JStr? ==> r == PyStr(codec, v)
  {
    if v.JStr? then codec.dumps(v) else PyStr(codec, v)
  }

  /** `_format_time_value`: its three branches all amount to `str(v)`. */
  function FormatTimeValue(codec: Codec, v: Json): (r: string)
    ensures r == PyStr(codec, v)
  {
    if v.JInt? then IntToString(v.i)
    else if v.JStr? then v.s
    else PyStr(codec, v)
  }

  /** `_format_switch_scalar`: `str(v)`, JSON-quoted. */
  function FormatSwitchScalar(codec: Codec, v: Json): string {
    codec.dumps(JStr(PyStr(codec, v)))
  }

  /** `_json_one_line` */
  function JsonOneLine(codec: Codec, v: Json): string {
    codec.dumps(v)
  }

  /** The fallback for every stage without a recognised shape. */
  function RawLine(codec: Codec, stage: Json, prefix: string): string {
    prefix + " raw " + JsonOneLine(codec, stage)
  }

  /** The strings of a list whose items are all strings. */
  function StringItems(items: seq<Json>): (r: Option<seq<string>>)
    ensures r.Some? <==> forall i :: 0 <= i < |items| ==> items[i].JStr?
    ensures r.Some? ==> |r.value| == |items| && forall i :: 0 <= i < |items| ==> r.value[i] == items[i].s
  {
    if items == [] then Some([])
    else if !items[0].JStr? then None
    else
      var rest :- StringItems(items[1..]);
      Some([items[0].s] + rest)
  }

  /** `isinstance(v, list) and all(isinstance(x, str) for x in v)` for a value `d.get` returned. */
  function StringListOf(v: Option<Json>): (r: Option<seq<string>>)
    ensures r.Some? <==> v.Some? && v.value.JList? && forall i :: 0 <= i < |v.value.items| ==> v.value.items[i].JStr?
    ensures r.Some? ==> |r.value| == |v.value.items| && forall i :: 0 <= i < |r.value| ==> r.value[i] == v.value.items[i].s
  {
    if v.Some? && v.value.JList? then StringItems(v.value.items) else None
  }

  function PyStrs(codec: Codec, items: seq<Json>): (r: seq<string>)
    ensures |r| == |items| && forall i :: 0 <= i < |items| ==> r[i] == PyStr(codec, items[i])
  {
    if items == [] then [] else [PyStr(codec, items[0])] + PyStrs(codec, items[1..])
  }

  // ---------------------------------------------------------------------------
  // the source stage

  /**
   * The event source: the first key other than `timeSeries` whose value is an
   * object, or `null` for a source without parameters.
   */
  function EventEntry(src: Dict<Json>): (r: Option<(string, Dict<Json>)>)
    ensures r.None? <==> forall i :: 0 <= i < |src| ==> src[i].0 == "timeSeries" || !(src[i].1.JNull? || src[i].1.JObj?)
    ensures r.Some? ==> exists i :: 0 <= i < |src| && src[i].0 == r.value.0 && src[i].0 != "timeSeries"
                          && (src[i].1.JNull? || src[i].1 == JObj(r.value.1))
                          && forall j :: 0 <= j < i ==> src[j].0 == "timeSeries" || !(src[j].1.JNull? || src[j].1.JObj?)
  {
    if src == [] then None
    else if src[0].0 != "timeSeries" && src[0].1.JNull? then Some((src[0].0, []))
    else if src[0].0 != "timeSeries" && src[0].1.JObj? then Some((src[0].0, src[0].1.fields))
    else
      var r := EventEntry(src[1..]);
      if r.Some? then
        assert forall j :: 1 <= j < |src| ==> src[j] == src[1..][j - 1];
        r
      else r
  }

  /** `k=v` for each parameter of the source, strings JSON-quoted. */
  function BracketParts(codec: Codec, params: Dict<Json>): (r: seq<string>)
    ensures |r| == |params|
    ensures forall i :: 0 <= i < |params| ==> r[i] == params[i].0 + "=" + FormatBracketValue(codec, params[i].1)
  {
    if params == [] then [] else [params[0].0 + "=" + FormatBracketValue(codec, params[0].1)] + BracketParts(codec, params[1..])
  }

  /** `None` for a missing key and for `null`, as `d.get(k) is None` sees them. */
  predicate IsNone(v: Option<Json>) {
    v.None? || v.value.JNull?
  }

  /** The parts of the TIMESERIES line: `period`, `first`, and `count` or else `last`. */
  function TimeSeriesParts(codec: Codec, t: Dict<Json>): (r: Result<seq<string>>)
    ensures IsNone(Get(t, "period")) || IsNone(Get(t, "first")) ==> r == Err(NeedsPeriodFirst)
    ensures !IsNone(Get(t, "period")) && !IsNone(Get(t, "first")) ==>
              (r.Ok? <==> Get(t, "count").Some? || Get(t, "last").Some?)
    ensures r.Ok? ==> |r.value| == 3 && r.value[0] == "period=" + PyStr(codec, Get(t, "period").value)
                      && r.value[1] == "first=" + PyStr(codec, Get(t, "first").value)
    ensures r.Ok? && Get(t, "count").Some? ==> r.value[2] == "count=" + PyStr(codec, Get(t, "count").value)
    ensures r.Ok? && Get(t, "count").None? ==> r.value[2] == "last=" + PyStr(codec, Get(t, "last").value)
  {
    var period := Get(t, "period");
    var first := Get(t, "first");
    if IsNone(period) || IsNone(first) then Err(NeedsPeriodFirst)
    else
      var base := ["period=" + PyStr(codec, period.value), "first=" + FormatTimeValue(codec, first.value)];
      if Get(t, "count").Some? then Ok(base + ["count=" + PyStr(codec, Get(t, "count").value)])
      else if Get(t, "last").Some? then Ok(base + ["last=" + FormatTimeValue(codec, Get(t, "last").value)])
      else Err(NeedsCountLast)
  }

  /** The FROM line of an event source. */
  function FromLineText(codec: Codec, sourceType: string, params: Dict<Json>): string {
    "FROM event([" + Join(["source=" + sourceType] + BracketParts(codec, params), ",") + "])"
  }

  /**
   * `_decompile_source_stage`: FROM and TIMESERIES lines, or `PIPELINE` and the
   * stage as `raw` when `source` does not hold an object.
   */
  function SourceStageLines(codec: Codec, stage: Dict<Json>): (r: Result<seq<string>>)
    ensures (Get(stage, "source").None? || !Get(stage, "source").value.JObj?) ==>
              r == Ok(["PIPELINE", LeafStageLine(codec, JObj(stage), "|")])
    ensures (Get(stage, "source").Some? && Get(stage, "source").value.JObj?
             && EventEntry(Get(stage, "source").value.fields).None?) ==> r == Err(MissingEventSource)
    ensures r.Ok? && Get(stage, "source").Some? && Get(stage, "source").value.JObj? ==>
              var src := Get(stage, "source").value.fields;
              && EventEntry(src).Some?
              && |r.value| == (if Get(src, "timeSeries").Some? && Get(src, "timeSeries").value.JObj? then 2 else 1)
              && r.value[0] == FromLineText(codec, EventEntry(src).value.0, EventEntry(src).value.1)
    ensures Get(stage, "source").Some? && Get(stage, "source").value.JObj? ==>
              var src := Get(stage, "source").value.fields;
              var ts := Get(src, "timeSeries");
              EventEntry(src).Some? && ts.Some? && ts.value.JObj? ==>
                && (r.Ok? <==> TimeSeriesParts(codec, ts.value.fields).Ok?)
                && (r.Err? ==> r == Err(TimeSeriesParts(codec, ts.value.fields).msg))
                && (r.Ok? ==> r.value[1] == "TIMESERIES " + Join(TimeSeriesParts(codec, ts.value.fields).value, " "))
  {
    var src := Get(stage, "source");
    if src.None? || !src.value.JObj? then
      // the stage holds the key `source`, so `_decompile_stage` renders it as `raw`
      Ok(["PIPELINE", LeafStageLine(codec, JObj(stage), "|")])
    else
      match EventEntry(src.value.fields)
      case None => Err(MissingEventSource)
      case Some((sourceType, params)) =>
        var from := FromLineText(codec, sourceType, params);
        var ts := Get(src.value.fields, "timeSeries");
        if ts.Some? && ts.value.JObj? then
          var parts :- TimeSeriesParts(codec, ts.value.fields);
          Ok([from, "TIMESERIES " + Join(parts, " ")])
        else Ok([from])
  }

  /** `pipeline and isinstance(pipeline[0], dict) and "source" in pipeline[0]` */
  predicate HasSourceHead(pipeline: seq<Json>) {
    pipeline != [] && pipeline[0].JObj? && Get(pipeline[0].fields, "source").Some?
  }

  // ---------------------------------------------------------------------------
  // single-line stages

  /** `{agg: arg}` as `alias=agg(arg)`, with `null` for a `None` argument. */
  function GroupPart(codec: Codec, alias: string, aggObj: Json): (r: Option<string>)
    ensures r.Some? <==> aggObj.JObj? && |aggObj.fields| == 1
    ensures r.Some? ==> var (agg, arg) := aggObj.fields[0];
              r.value == alias + "=" + agg + "(" + (if arg.JNull? then "null" else PyStr(codec, arg)) + ")"
  {
    if aggObj.JObj? && |aggObj.fields| == 1 then
      var (agg, arg) := aggObj.fields[0];
      Some(alias + "=" + agg + "(" + (if arg.JNull? then "null" else PyStr(codec, arg)) + ")")
    else None
  }

  /** The list form: one single-key object per field, rendered in the same order. */
  function GroupListParts(codec: Codec, items: seq<Json>): (r: Option<seq<string>>)
    ensures r.Some? <==> forall i :: 0 <= i < |items| ==>
              items[i].JObj? && |items[i].fields| == 1 && GroupPart(codec, items[i].fields[0].0, items[i].fields[0].1).Some?
    ensures r.Some? ==> |r.value| == |items| && forall i :: 0 <= i < |items| ==>
              r.value[i] == GroupPart(codec, items[i].fields[0].0, items[i].fields[0].1).value
  {
    if items == [] then Some([])
    else if !(items[0].JObj? && |items[0].fields| == 1) then None
    else
      var p :- GroupPart(codec, items[0].fields[0].0, items[0].fields[0].1);
      var rest :- GroupListParts(codec, items[1..]);
      assert forall i :: 1 <= i < |items| ==> items[i] == items[1..][i - 1];
      Some([p] + rest)
  }

  /** The map form: one part per entry, in the object's order. */
  function GroupMapParts(codec: Codec, fields: Dict<Json>): (r: Option<seq<string>>)
    ensures r.Some? <==> forall i :: 0 <= i < |fields| ==> GroupPart(codec, fields[i].0, fields[i].1).Some?
    ensures r.Some? ==> |r.value| == |fields| && forall i :: 0 <= i < |fields| ==>
              r.value[i] == GroupPart(codec, fields[i].0, fields[i].1).value
  {
    if fields == [] then Some([])
    else
      var p :- GroupPart(codec, fields[0].0, fields[0].1);
      var rest :- GroupMapParts(codec, fields[1..]);
      assert forall i :: 1 <= i < |fields| ==> fields[i] == fields[1..][i - 1];
      Some([p] + rest)
  }

  /** The group stage after `group `, or `None` when it must be `raw`. */
  function GroupText(codec: Codec, grp: Dict<Json>): (r: Option<string>)
    ensures r.Some? <==> Get(grp, "group").Some? && Get(grp, "group").value.JList? && Get(grp, "fields").Some?
                         && ((Get(grp, "fields").value.JList? && GroupListParts(codec, Get(grp, "fields").value.items).Some?)
                             || (Get(grp, "fields").value.JObj? && GroupMapParts(codec, Get(grp, "fields").value.fields).Some?))
  {
    var g := Get(grp, "group");
    var f := Get(grp, "fields");
    if g.None? || !g.value.JList? || f.None? then None
    else
      var groupText := Join(PyStrs(codec, g.value.items), ",");
      if f.value.JList? then
        var parts :- GroupListParts(codec, f.value.items);
        Some("by " + groupText + " fields { " + Join(parts, ", ") + " }")
      else if f.value.JObj? then
        var parts :- GroupMapParts(codec, f.value.fields);
        Some("by " + groupText + " fields map { " + Join(parts, ", ") + " }")
      else None
  }

  /** One switch case as `"value"=="id"`, when it has both keys. */
  function CaseText(codec: Codec, c: Json): (r: Option<string>)
    ensures r.Some? <==> c.JObj? && Get(c.fields, "value").Some? && Get(c.fields, "==").Some?
    ensures r.Some? ==> r.value == FormatSwitchScalar(codec, Get(c.fields, "value").value) + "=="
                                   + FormatSwitchScalar(codec, Get(c.fields, "==").value)
  {
    if c.JObj? && Get(c.fields, "value").Some? && Get(c.fields, "==").Some? then
      Some(FormatSwitchScalar(codec, Get(c.fields, "value").value) + "==" + FormatSwitchScalar(codec, Get(c.fields, "==").value))
    else None
  }

  /** `cases_text`: every case rendered, in order, or `None` at the first case without both keys. */
  function CaseTexts(codec: Codec, cases: seq<Json>): Option<seq<string>> {
    AllSome(c => CaseText(codec, c), cases)
  }

  /** `f` applied to every element in order, or `None` as soon as it fails on one. */
  function AllSome<X, Y>(f: X -> Option<Y>, xs: seq<X>): Option<seq<Y>> {
    if xs == [] then Some([])
    else
      var y :- f(xs[0]);
      var rest :- AllSome(f, xs[1..]);
      Some([y] + rest)
  }

  /** One failing element makes the whole `AllSome` fail. */
  lemma {:induction false} AllSomeFailsAt<X, Y>(f: X -> Option<Y>, xs: seq<X>, i: nat)
    requires i < |xs| && f(xs[i]).None?
    ensures AllSome(f, xs).None?
  {
    if i > 0 {
      assert xs[1..][i - 1] == xs[i];
      AllSomeFailsAt(f, xs[1..], i - 1);
    }
  }

  /** Extending the input by one element extends the result by its image, or fails when that element does. */
  lemma {:induction false} AllSomeSnoc<X, Y>(f: X -> Option<Y>, xs: seq<X>, x: X)
    ensures AllSome(f, xs + [x])
            == if AllSome(f, xs).Some? && f(x).Some? then Some(AllSome(f, xs).value + [f(x).value]) else None
  {
    var ys := xs + [x];
    if xs == [] {
      assert ys[0] == x && ys[1..] == [];
      if f(x).Some? {
        assert AllSome(f, ys) == Some([f(x).value] + []);
        assert [f(x).value] + [] == [] + [f(x).value];
      }
    } else {
      assert ys[0] == xs[0] && ys[1..] == xs[1..] + [x];
      AllSomeSnoc(f, xs[1..], x);
      var head := f(xs[0]);
      var rest := AllSome(f, xs[1..]);
      if head.Some? && rest.Some? && f(x).Some? {
        assert AllSome(f, ys) == Some([head.value] + (rest.value + [f(x).value]));
        assert [head.value] + (rest.value + [f(x).value]) == ([head.value] + rest.value) + [f(x).value];
      }
    }
  }

  /** `AllSome` succeeds exactly when `f` does on every element, and then holds each image in order. */
  lemma {:induction false} AllSomeElems<X, Y>(f: X -> Option<Y>, xs: seq<X>)
    ensures AllSome(f, xs).Some? <==> forall i :: 0 <= i < |xs| ==> f(xs[i]).Some?
    ensures AllSome(f, xs).Some? ==>
              |AllSome(f, xs).value| == |xs| && forall i :: 0 <= i < |xs| ==> AllSome(f, xs).value[i] == f(xs[i]).value
  {
    if xs != [] {
      AllSomeElems(f, xs[1..]);
      if !(forall i :: 0 <= i < |xs| ==> f(xs[i]).Some?) {
        var i :| 0 <= i < |xs| && f(xs[i]).None?;
        AllSomeFailsAt(f, xs, i);
      } else {
        assert f(xs[0]).Some?;
        assert forall i :: 0 <= i < |xs| - 1 ==> xs[1..][i] == xs[i + 1];
      }
    }
  }

  /** A switch renders every case, in order, exactly when each case has both keys. */
  lemma CaseTextsElems(codec: Codec, cases: seq<Json>)
    ensures CaseTexts(codec, cases).Some? <==> forall i :: 0 <= i < |cases| ==> CaseText(codec, cases[i]).Some?
    ensures CaseTexts(codec, cases).Some? ==>
              |CaseTexts(codec, cases).value| == |cases|
              && forall i :: 0 <= i < |cases| ==> CaseTexts(codec, cases).value[i] == CaseText(codec, cases[i]).value
  {
    AllSomeElems(c => CaseText(codec, c), cases);
  }

  /**
   * The switch stage after `switch `: one output variable holding one field
   * holding a list of cases; `None` when it must be `raw`.
   */
  function SwitchText(codec: Codec, sw: Dict<Json>): (r: Option<string>)
    ensures r.Some? <==> |sw| == 1 && sw[0].1.JObj? && |sw[0].1.fields| == 1 && sw[0].1.fields[0].1.JList?
                         && CaseTexts(codec, sw[0].1.fields[0].1.items).Some?
  {
    if |sw| == 1 && sw[0].1.JObj? && |sw[0].1.fields| == 1 && sw[0].1.fields[0].1.JList? then
      var (out, inner) := sw[0];
      var (field, cases) := inner.fields[0];
      var texts :- CaseTexts(codec, cases.items);
      Some(out + " from " + field + " { " + Join(texts, ", ") + " }")
    else None
  }

  /** The `id` of a segment when it is a string or an integer (Python's `bool` is an `int`). */
  function SegmentId(seg: Dict<Json>): (r: Option<Json>)
    ensures r.Some? ==> Get(seg, "id") == r && (r.value.JStr? || r.value.JInt? || r.value.JBool?)
  {
    var id := Get(seg, "id");
    if id.Some? && (id.value.JStr? || id.value.JInt? || id.value.JBool?) then id else None
  }

  /** `_decompile_stage` for every shape but merge and spawn, which hold nested pipelines. */
  function LeafStageLine(codec: Codec, stage: Json, prefix: string): (r: string)
    ensures !stage.JObj? || |stage.fields| != 1 ==> r == RawLine(codec, stage, prefix)
  {
    var raw := RawLine(codec, stage, prefix);
    if !stage.JObj? || |stage.fields| != 1 then raw
    else KeyedLine(codec, stage.fields[0].0, stage.fields[0].1, prefix, raw)
  }

  /** The line of a one-key stage `{k: v}`, or `raw` when its payload has no line form. */
  function KeyedLine(codec: Codec, k: string, v: Json, prefix: string, raw: string): string {
    if k == "filter" then prefix + " filter " + PyStr(codec, v)
    else if k == "identified" then prefix + " identified " + PyStr(codec, v)
    else if k == "eval" && v.JObj? then prefix + " eval " + FormatBraceMap(codec, v.fields)
    else if k == "select" && v.JObj? then prefix + " select " + FormatBraceMap(codec, v.fields)
    else if k == "join" && v.JObj? && StringListOf(Get(v.fields, "fields")).Some? then
      prefix + " join fields [" + Join(StringListOf(Get(v.fields, "fields")).value, ",") + "]"
    else if k == "unmarshal" && v.JObj? then prefix + " unmarshal " + FormatBraceMap(codec, v.fields)
    else if k == "unwind" && v.JObj? then prefix + " unwind " + FormatBraceMap(codec, v.fields)
    else if k == "segment" && v.JObj? && SegmentId(v.fields).Some? then
      prefix + " segment id=" + codec.dumps(JStr(PyStr(codec, SegmentId(v.fields).value)))
    else if k == "bulkExpand" && v.JObj? then prefix + " bulkExpand " + JsonOneLine(codec, v)
    else if k == "switch" && v.JObj? && SwitchText(codec, v.fields).Some? then
      prefix + " switch " + SwitchText(codec, v.fields).value
    else if k == "group" && v.JObj? && GroupText(codec, v.fields).Some? then
      prefix + " group " + GroupText(codec, v.fields).value
    else if k == "sort" && v.JList? && StringItems(v.items).Some? then
      prefix + " sort " + Join(StringItems(v.items).value, ",")
    else if k == "limit" then prefix + " limit " + PyStr(codec, v)
    else raw
  }

  // ---------------------------------------------------------------------------
  // merge and spawn, and the pipelines they hold

  /** The merge header line, or `None` when the stage must be `raw`: string fields, and mappings absent, null or an object. */
  function MergeHeader(codec: Codec, m: Dict<Json>, prefix: string): (r: Option<string>)
    ensures r.Some? <==> StringListOf(Get(m, "fields")).Some? && (IsNone(Get(m, "mappings")) || Get(m, "mappings").value.JObj?)
    ensures r.Some? && IsNone(Get(m, "mappings")) ==>
              r.value == prefix + " merge fields [" + Join(StringListOf(Get(m, "fields")).value, ",") + "]"
    ensures r.Some? && !IsNone(Get(m, "mappings")) ==>
              r.value == prefix + " merge fields [" + Join(StringListOf(Get(m, "fields")).value, ",") + "] mappings "
                         + FormatBraceMap(codec, Get(m, "mappings").value.fields)
  {
    var fields :- StringListOf(Get(m, "fields"));
    var mappings := Get(m, "mappings");
    if IsNone(mappings) then Some(prefix + " merge fields [" + Join(fields, ",") + "]")
    else if mappings.value.JObj? then
      Some(prefix + " merge fields [" + Join(fields, ",") + "] mappings " + FormatBraceMap(codec, mappings.value.fields))
    else None
  }

  /** A one-entry object whose key is `k`. */
  predicate OneKey(stage: Json, k: string) {
    stage.JObj? && |stage.fields| == 1 && stage.fields[0].0 == k
  }

  /** The closing line of a spawn: `| endspawn` for `|`, otherwise the prefix and ` endspawn`. */
  function EndSpawn(prefix: string): (r: string)
    ensures r == prefix + " endspawn"
  {
    if prefix == "|" then "| endspawn" else prefix + " endspawn"
  }

  /**
   * `_decompile_stage`: one line, except for merge and spawn stages, whose
   * blocks close with `endmerge` and with the prefix and `endspawn`.
   */
  function DecompileStage(codec: Codec, stage: Json, prefix: string): (r: Result<seq<string>>)
    ensures r.Ok? ==> |r.value| >= 1
    ensures !stage.JObj? || |stage.fields| != 1 ==> r == Ok([RawLine(codec, stage, prefix)])
    ensures r.Ok? && |r.value| > 1 ==>
              || (OneKey(stage, "merge") && r.value[|r.value| - 1] == "endmerge")
              || (OneKey(stage, "spawn") && r.value[0] == prefix + " spawn" && r.value[|r.value| - 1] == prefix + " endspawn")
    decreases stage, 2
  {
    if OneKey(stage, "merge") && stage.fields[0].1.JObj? then
      var m := stage.fields[0].1.fields;
      var header := MergeHeader(codec, m, prefix);
      var pi := KeyIndex(m, "pipeline");
      if header.Some? && pi.Some? && m[pi.value].1.JList? then
        var inner :- PipelineLines(codec, [], m[pi.value].1.items, "|");
        Ok([header.value] + inner + ["endmerge"])
      else Ok([RawLine(codec, stage, prefix)])
    else if OneKey(stage, "spawn") && stage.fields[0].1.JList? then
      var branches := stage.fields[0].1.items;
      if exists i :: 0 <= i < |branches| && !branches[i].JList? then Ok([RawLine(codec, stage, prefix)])
      else
        var body :- SpawnBranchesOnto(codec, [], branches);
        Ok([prefix + " spawn"] + body + [EndSpawn(prefix)])
    else Ok([LeafStageLine(codec, stage, prefix)])
  }

  /** Each branch wrapped in `branch` / `endbranch`, its stages always with `||`. */
  function SpawnBranchesOnto(codec: Codec, acc: seq<string>, branches: seq<Json>): (r: Result<seq<string>>)
    requires forall i :: 0 <= i < |branches| ==> branches[i].JList?
    decreases branches, 1
  {
    if branches == [] then Ok(acc)
    else
      var block :- BranchBlock(codec, branches[0]);
      SpawnBranchesOnto(codec, acc + block, branches[1..])
  }

  /** The lines of one spawn branch: `branch`, its pipeline with the `||` prefix, `endbranch`. */
  function BranchBlock(codec: Codec, branch: Json): (r: Result<seq<string>>)
    requires branch.JList?
    ensures r.Ok? <==> PipelineLines(codec, [], branch.items, "||").Ok?
    ensures r.Ok? ==> |r.value| >= 2 && r.value[0] == "branch" && r.value[|r.value| - 1] == "endbranch"
                      && r.value[1..|r.value| - 1] == PipelineLines(codec, [], branch.items, "||").value
    decreases branch, 0
  {
    var lines :- PipelineLines(codec, [], branch.items, "||");
    var b := ["branch"] + lines + ["endbranch"];
    assert b[1..|b| - 1] == lines;
    Ok(b)
  }

  /**
   * `_decompile_merge_pipeline` (prefix `|`) and `_decompile_branch_pipeline`
   * (prefix `||`): FROM lines for a leading source stage, otherwise `PIPELINE`,
   * then the stages; appended to `acc`, the lines already emitted.
   */
  function PipelineLines(codec: Codec, acc: seq<string>, pipeline: seq<Json>, prefix: string): (r: Result<seq<string>>)
    decreases pipeline, 2
  {
    if HasSourceHead(pipeline) then
      var head :- SourceStageLines(codec, pipeline[0].fields);
      StagesLinesOnto(codec, acc + head, pipeline[1..], prefix)
    else StagesLinesOnto(codec, acc + ["PIPELINE"], pipeline, prefix)
  }

  /** The stage loop: each stage's lines appended in turn; the first error stops it. */
  function StagesLinesOnto(codec: Codec, acc: seq<string>, stages: seq<Json>, prefix: string): (r: Result<seq<string>>)
    decreases stages, 1
  {
    if stages == [] then Ok(acc)
    else
      var lines :- DecompileStage(codec, stages[0], prefix);
      StagesLinesOnto(codec, acc + lines, stages[1..], prefix)
  }

  // ---------------------------------------------------------------------------
  // the whole body

  /** The RESPONSE line, when the response object has a `mimeType`. */
  function ResponseLines(codec: Codec, norm: Dict<Json>): (r: seq<string>)
    ensures |r| <= 1
    ensures r != [] <==> Get(norm, "response").Some? && Get(norm, "response").value.JObj?
                         && Get(Get(norm, "response").value.fields, "mimeType").Some?
  {
    var response := Get(norm, "response");
    if response.Some? && response.value.JObj? && Get(response.value.fields, "mimeType").Some? then
      ["RESPONSE mimeType=" + PyStr(codec, Get(response.value.fields, "mimeType").value)]
    else []
  }

  /** The REQUEST line, when a named request has a name that is not `null`. */
  function RequestLines(codec: Codec, request: Json): (r: seq<string>)
    ensures |r| <= 1
    ensures r != [] <==> request.JObj? && !IsNone(Get(request.fields, "name"))
  {
    if request.JObj? && !IsNone(Get(request.fields, "name")) then
      ["REQUEST name=\"" + PyStr(codec, Get(request.fields, "name").value) + "\""]
    else []
  }

  /** The pipeline of a normalised body: the request list itself, or the named request's `pipeline`. */
  function RequestPipeline(request: Json): Json {
    if request.JObj? && Get(request.fields, "pipeline").Some? then Get(request.fields, "pipeline").value else request
  }

  /**
   * The lines of `decompile_pendo_aggregation_to_dsl`, before they are joined:
   * the header lines, then the request pipeline as a merge pipeline renders it.
   */
  function DecompileLines(codec: Codec, body: Json): (r: Result<seq<string>>)
    ensures NormalizeBody(body).Err? ==> r.Err?
    ensures NormalizeBody(body).Ok? && !RequestPipeline(Get(NormalizeBody(body).value, "request").value).JList? ==>
              r == Err(PipelineNotList)
  {
    var norm :- NormalizeBody(body);
    var request := Get(norm, "request").value;
    var pv := RequestPipeline(request);
    if !pv.JList? then Err(PipelineNotList)
    else
      PipelineLines(codec, ResponseLines(codec, norm) + RequestLines(codec, request), pv.items, "|")
  }

  /** `decompile_pendo_aggregation_to_dsl`: the lines joined with newlines, and a final newline. */
  function Decompile(codec: Codec, body: Json): (r: Result<string>)
    ensures r.Ok? <==> DecompileLines(codec, body).Ok?
    ensures r.Ok? ==> r.value == Join(DecompileLines(codec, body).value, "\n") + "\n"
  {
    var lines :- DecompileLines(codec, body);
    Ok(Join(lines, "\n") + "\n")
  }

  // ---------------------------------------------------------------------------
  // what the decompiler promises

  /** The stage loop keeps the lines before it and fails exactly when some stage fails. */
  lemma {:induction false} StagesLinesOntoShape(codec: Codec, acc: seq<string>, stages: seq<Json>, prefix: string)
    ensures StagesLinesOnto(codec, acc, stages, prefix).Ok? <==>
              forall i :: 0 <= i < |stages| ==> DecompileStage(codec, stages[i], prefix).Ok?
    ensures StagesLinesOnto(codec, acc, stages, prefix).Ok? ==>
              var lines := StagesLinesOnto(codec, acc, stages, prefix).value;
              |lines| >= |acc| + |stages| && lines[..|acc|] == acc
    decreases |stages|
  {
    if stages != [] {
      var first := DecompileStage(codec, stages[0], prefix);
      if first.Ok? {
        StagesLinesOntoShape(codec, acc + first.value, stages[1..], prefix);
        assert forall i :: 1 <= i < |stages| ==> stages[i] == stages[1..][i - 1];
        if StagesLinesOnto(codec, acc, stages, prefix).Ok? {
          var lines := StagesLinesOnto(codec, acc, stages, prefix).value;
          assert lines[..|acc + first.value|] == acc + first.value;
          assert lines[..|acc|] == (acc + first.value)[..|acc|];
        }
      }
    }
  }

  /**
   * A stage that holds `source` but not an object is the `raw` stage the
   * fallback of `_decompile_source_stage` emits after `PIPELINE`.
   */
  lemma SourceFallbackIsRaw(codec: Codec, stage: Dict<Json>)
    requires Get(stage, "source").Some? && !Get(stage, "source").value.JObj?
    ensures SourceStageLines(codec, stage) == Ok(["PIPELINE", RawLine(codec, JObj(stage), "|")])
    ensures DecompileStage(codec, JObj(stage), "|") == Ok([RawLine(codec, JObj(stage), "|")])
  {
    if |stage| == 1 {
      assert stage[0].0 == "source";
    }
  }

  /** Lines that start with `acc + ext` continue `acc` with the first line of `ext`. */
  lemma ExtendedPrefix(lines: seq<string>, acc: seq<string>, ext: seq<string>)
    requires ext != [] && |lines| >= |acc + ext| && lines[..|acc + ext|] == acc + ext
    ensures |lines| > |acc| && lines[..|acc|] == acc && lines[|acc|] == ext[0]
  {
    assert lines[..|acc|] == (acc + ext)[..|acc|];
    assert lines[|acc|] == (acc + ext)[|acc|];
  }

  /** The first line a source stage renders to is `PIPELINE` exactly when `source` is not an object. */
  lemma SourceHeadFirst(codec: Codec, stage: Dict<Json>)
    requires Get(stage, "source").Some? && SourceStageLines(codec, stage).Ok?
    ensures SourceStageLines(codec, stage).value != []
    ensures SourceStageLines(codec, stage).value[0] == "PIPELINE" <==> !Get(stage, "source").value.JObj?
  {
    if Get(stage, "source").value.JObj? {
      var src := Get(stage, "source").value.fields;
      var e := EventEntry(src).value;
      assert SourceStageLines(codec, stage).value[0] == FromLineText(codec, e.0, e.1);
      assert FromLineText(codec, e.0, e.1)[0] == 'F';
    }
  }

  /** A pipeline's lines follow `acc`, and open with `PIPELINE` unless it starts with a source object. */
  lemma PipelineLinesStart(codec: Codec, acc: seq<string>, pipeline: seq<Json>, prefix: string)
    requires PipelineLines(codec, acc, pipeline, prefix).Ok?
    ensures var lines := PipelineLines(codec, acc, pipeline, prefix).value;
            && |lines| > |acc|
            && lines[..|acc|] == acc
            && (lines[|acc|] == "PIPELINE" <==> !(HasSourceHead(pipeline) && Get(pipeline[0].fields, "source").value.JObj?))
  {
    var lines := PipelineLines(codec, acc, pipeline, prefix).value;
    if HasSourceHead(pipeline) {
      var from := SourceStageLines(codec, pipeline[0].fields).value;
      SourceHeadFirst(codec, pipeline[0].fields);
      StagesLinesOntoShape(codec, acc + from, pipeline[1..], prefix);
      ExtendedPrefix(lines, acc, from);
    } else {
      StagesLinesOntoShape(codec, acc + ["PIPELINE"], pipeline, prefix);
      ExtendedPrefix(lines, acc, ["PIPELINE"]);
    }
  }

  /**
   * The decompiled text opens with the RESPONSE and REQUEST lines the body
   * calls for, then `PIPELINE` or, for a leading source stage, its FROM line.
   */
  lemma DecompileLinesStart(codec: Codec, body: Json)
    requires DecompileLines(codec, body).Ok?
    ensures NormalizeBody(body).Ok?
    ensures var norm := NormalizeBody(body).value;
            var request := Get(norm, "request").value;
            var pipeline := RequestPipeline(request).items;
            var header := ResponseLines(codec, norm) + RequestLines(codec, request);
            var lines := DecompileLines(codec, body).value;
            && |lines| > |header|
            && lines[..|header|] == header
            && (lines[|header|] == "PIPELINE" <==> !(HasSourceHead(pipeline) && Get(pipeline[0].fields, "source").value.JObj?))
  {
    var norm := NormalizeBody(body).value;
    var request := Get(norm, "request").value;
    PipelineLinesStart(codec, ResponseLines(codec, norm) + RequestLines(codec, request), RequestPipeline(request).items, "|");
  }

  /** The stage loop appends: its lines are `acc` followed by the lines it renders from nothing. */
  lemma {:induction false} StagesLinesAppend(codec: Codec, acc: seq<string>, stages: seq<Json>, prefix: string)
    ensures StagesLinesOnto(codec, acc, stages, prefix).Ok? == StagesLinesOnto(codec, [], stages, prefix).Ok?
    ensures StagesLinesOnto(codec, acc, stages, prefix).Ok? ==>
              StagesLinesOnto(codec, acc, stages, prefix).value == acc + StagesLinesOnto(codec, [], stages, prefix).value
    decreases |stages|
  {
    if stages != [] {
      var first := DecompileStage(codec, stages[0], prefix);
      if first.Ok? {
        StagesLinesAppend(codec, acc + first.value, stages[1..], prefix);
        StagesLinesAppend(codec, [] + first.value, stages[1..], prefix);
        if StagesLinesOnto(codec, acc, stages, prefix).Ok? {
          var rest := StagesLinesOnto(codec, [], stages[1..], prefix).value;
          assert [] + first.value == first.value;
          assert acc + first.value + rest == acc + (first.value + rest);
        }
      }
    }
  }

  /** Each stage contributes its own lines, in order: the first stage's lines, then the rest's. */
  lemma StagesLinesCons(codec: Codec, stages: seq<Json>, prefix: string)
    requires stages != [] && StagesLinesOnto(codec, [], stages, prefix).Ok?
    ensures DecompileStage(codec, stages[0], prefix).Ok? && StagesLinesOnto(codec, [], stages[1..], prefix).Ok?
    ensures StagesLinesOnto(codec, [], stages, prefix).value
            == DecompileStage(codec, stages[0], prefix).value + StagesLinesOnto(codec, [], stages[1..], prefix).value
  {
    var first := DecompileStage(codec, stages[0], prefix).value;
    assert [] + first == first;
    StagesLinesAppend(codec, first, stages[1..], prefix);
  }

  /** A pipeline's lines are `acc` followed by the lines it renders from nothing. */
  lemma PipelineLinesAppend(codec: Codec, acc: seq<string>, pipeline: seq<Json>, prefix: string)
    ensures PipelineLines(codec, acc, pipeline, prefix).Ok? == PipelineLines(codec, [], pipeline, prefix).Ok?
    ensures PipelineLines(codec, acc, pipeline, prefix).Ok? ==>
              PipelineLines(codec, acc, pipeline, prefix).value == acc + PipelineLines(codec, [], pipeline, prefix).value
  {
    if HasSourceHead(pipeline) {
      var head := SourceStageLines(codec, pipeline[0].fields);
      if head.Ok? {
        StagesLinesAppend(codec, acc + head.value, pipeline[1..], prefix);
        StagesLinesAppend(codec, [] + head.value, pipeline[1..], prefix);
        assert [] + head.value == head.value;
        if PipelineLines(codec, acc, pipeline, prefix).Ok? {
          var rest := StagesLinesOnto(codec, [], pipeline[1..], prefix).value;
          assert acc + head.value + rest == acc + (head.value + rest);
        }
      }
    } else {
      StagesLinesAppend(codec, acc + ["PIPELINE"], pipeline, prefix);
      StagesLinesAppend(codec, [] + ["PIPELINE"], pipeline, prefix);
      assert [] + ["PIPELINE"] == ["PIPELINE"];
      if PipelineLines(codec, acc, pipeline, prefix).Ok? {
        var rest := StagesLinesOnto(codec, [], pipeline, prefix).value;
        assert acc + ["PIPELINE"] + rest == acc + (["PIPELINE"] + rest);
      }
    }
  }

  /** A result with `acc` put in front of its lines; an error stays as it is. */
  function Prefixed(acc: seq<string>, r: Result<seq<string>>): (p: Result<seq<string>>)
    ensures p.Ok? == r.Ok? && (p.Ok? ==> p.value == acc + r.value)
    ensures p.Err? ==> p == r
  {
    if r.Ok? then Ok(acc + r.value) else r
  }

  /** Putting `b` and then `a` in front is putting `a + b` in front. */
  lemma PrefixedTwice(a: seq<string>, b: seq<string>, r: Result<seq<string>>)
    ensures Prefixed(a, Prefixed(b, r)) == Prefixed(a + b, r)
  {
    if r.Ok? {
      assert a + (b + r.value) == a + b + r.value;
    }
  }

  /** Lines of already rendered blocks appended onto `acc`, in order; the first failing block fails the fold. */
  function BlocksOnto(acc: seq<string>, blocks: seq<Result<seq<string>>>): (r: Result<seq<string>>)
    ensures blocks == [] ==> r == Ok(acc)
    ensures r.Ok? ==> acc <= r.value
    decreases |blocks|
  {
    if blocks == [] then Ok(acc)
    else if blocks[0].Err? then Err(blocks[0].msg)
    else BlocksOnto(acc + blocks[0].value, blocks[1..])
  }

  /** The block of every branch, in order. */
  function BranchBlocks(codec: Codec, branches: seq<Json>): (bs: seq<Result<seq<string>>>)
    requires forall i :: 0 <= i < |branches| ==> branches[i].JList?
    ensures |bs| == |branches|
    ensures forall i :: 0 <= i < |branches| ==> bs[i] == BranchBlock(codec, branches[i])
    decreases |branches|
  {
    if branches == [] then [] else [BranchBlock(codec, branches[0])] + BranchBlocks(codec, branches[1..])
  }

  /** The block fold appends: its lines are `acc` followed by those it folds from nothing, and it fails alike. */
  lemma {:induction false} BlocksAppend(acc: seq<string>, blocks: seq<Result<seq<string>>>)
    ensures BlocksOnto(acc, blocks) == Prefixed(acc, BlocksOnto([], blocks))
    decreases |blocks|
  {
    if blocks == [] {
      assert acc + [] == acc;
    } else if blocks[0].Ok? {
      var b := blocks[0].value;
      assert [] + b == b;
      BlocksAppend(acc + b, blocks[1..]);
      BlocksAppend(b, blocks[1..]);
      PrefixedTwice(acc, b, BlocksOnto([], blocks[1..]));
    }
  }

  /** The branch loop is the block fold over the branches' blocks. */
  lemma {:induction false} SpawnBranchesBlocks(codec: Codec, acc: seq<string>, branches: seq<Json>)
    requires forall i :: 0 <= i < |branches| ==> branches[i].JList?
    ensures SpawnBranchesOnto(codec, acc, branches) == BlocksOnto(acc, BranchBlocks(codec, branches))
    decreases |branches|
  {
    if branches != [] {
      var bs := BranchBlocks(codec, branches);
      assert bs[1..] == BranchBlocks(codec, branches[1..]);
      SpawnBranchesStep(codec, acc, branches);
      if bs[0].Ok? {
        SpawnBranchesBlocks(codec, acc + bs[0].value, branches[1..]);
      }
    }
  }

  /** The branch loop appends: its lines are `acc` followed by the lines it renders from nothing, and it fails alike. */
  lemma SpawnBranchesAppend(codec: Codec, acc: seq<string>, branches: seq<Json>)
    requires forall i :: 0 <= i < |branches| ==> branches[i].JList?
    ensures SpawnBranchesOnto(codec, acc, branches) == Prefixed(acc, SpawnBranchesOnto(codec, [], branches))
  {
    SpawnBranchesBlocks(codec, acc, branches);
    SpawnBranchesBlocks(codec, [], branches);
    BlocksAppend(acc, BranchBlocks(codec, branches));
  }

  /** One turn of the branch fold: a failing block fails it, and otherwise the block is appended. */
  lemma SpawnBranchesStep(codec: Codec, acc: seq<string>, branches: seq<Json>)
    requires branches != [] && forall i :: 0 <= i < |branches| ==> branches[i].JList?
    ensures var block := BranchBlock(codec, branches[0]);
            && (block.Err? ==> SpawnBranchesOnto(codec, acc, branches) == Err(block.msg))
            && (block.Ok? ==> SpawnBranchesOnto(codec, acc, branches) == SpawnBranchesOnto(codec, acc + block.value, branches[1..]))
  {
  }

  /** Each branch contributes its block, in order: the first branch's block, then the rest's. */
  lemma SpawnBranchesCons(codec: Codec, branches: seq<Json>)
    requires branches != [] && forall i :: 0 <= i < |branches| ==> branches[i].JList?
    ensures SpawnBranchesOnto(codec, [], branches).Ok? <==>
              BranchBlock(codec, branches[0]).Ok? && SpawnBranchesOnto(codec, [], branches[1..]).Ok?
    ensures SpawnBranchesOnto(codec, [], branches).Ok? ==>
              SpawnBranchesOnto(codec, [], branches).value
              == BranchBlock(codec, branches[0]).value + SpawnBranchesOnto(codec, [], branches[1..]).value
  {
    var block := BranchBlock(codec, branches[0]);
    if block.Ok? {
      assert [] + block.value == block.value;
      SpawnBranchesAppend(codec, block.value, branches[1..]);
    }
  }

  /**
   * A spawn stage whose branches are all lists renders as `spawn` with the prefix, each
   * branch's block in order, then `endspawn` with the prefix; any other spawn is `raw`.
   */
  lemma DecompileSpawn(codec: Codec, branches: seq<Json>, prefix: string)
    ensures var stage := JObj([("spawn", JList(branches))]);
            var r := DecompileStage(codec, stage, prefix);
            && ((exists i :: 0 <= i < |branches| && !branches[i].JList?) ==> r == Ok([RawLine(codec, stage, prefix)]))
            && ((forall i :: 0 <= i < |branches| ==> branches[i].JList?) ==>
                  && (r.Ok? <==> SpawnBranchesOnto(codec, [], branches).Ok?)
                  && (r.Ok? ==> r.value == [prefix + " spawn"] + SpawnBranchesOnto(codec, [], branches).value + [prefix + " endspawn"]))
  {
    var stage := JObj([("spawn", JList(branches))]);
    assert OneKey(stage, "spawn") && !OneKey(stage, "merge");
  }

  /**
   * A merge stage with a header line and a `pipeline` list renders as the header, the
   * pipeline with the `|` prefix, then `endmerge`; without either it is `raw`.
   */
  lemma DecompileMerge(codec: Codec, m: Dict<Json>, prefix: string)
    ensures var stage := JObj([("merge", JObj(m))]);
            var r := DecompileStage(codec, stage, prefix);
            var pi := KeyIndex(m, "pipeline");
            && (MergeHeader(codec, m, prefix).None? || pi.None? || !m[pi.value].1.JList? ==> r == Ok([RawLine(codec, stage, prefix)]))
            && (MergeHeader(codec, m, prefix).Some? && pi.Some? && m[pi.value].1.JList? ==>
                  && (r.Ok? <==> PipelineLines(codec, [], m[pi.value].1.items, "|").Ok?)
                  && (r.Ok? ==> r.value == [MergeHeader(codec, m, prefix).value]
                                           + PipelineLines(codec, [], m[pi.value].1.items, "|").value + ["endmerge"]))
  {
    var stage := JObj([("merge", JObj(m))]);
    assert OneKey(stage, "merge");
  }

  /** The one-key stages with a line of their own: a recognised key whose payload has the shape its line needs. */
  predicate KnownStage(codec: Codec, k: string, v: Json) {
    || k == "filter" || k == "identified" || k == "limit"
    || (k in ["eval", "select", "unmarshal", "unwind", "bulkExpand"] && v.JObj?)
    || (k == "join" && v.JObj? && StringListOf(Get(v.fields, "fields")).Some?)
    || (k == "segment" && v.JObj? && SegmentId(v.fields).Some?)
    || (k == "switch" && v.JObj? && SwitchText(codec, v.fields).Some?)
    || (k == "group" && v.JObj? && GroupText(codec, v.fields).Some?)
    || (k == "sort" && v.JList? && StringItems(v.items).Some?)
  }

  /** The character right after `prefix` and one more is the second character of what follows. */
  lemma CharAfterPrefix(prefix: string, w: string, x: string)
    requires |w| >= 2
    ensures |prefix + w + x| > |prefix| + 1 && (prefix + w + x)[|prefix| + 1] == w[1]
  {
  }

  /** `KeyedLineKnown` for the keys up to `select`. */
  lemma KeyedLineKnownFirst(codec: Codec, k: string, v: Json, prefix: string, raw: string)
    requires KnownStage(codec, k, v) && k in {"filter", "identified", "eval", "select"}
    ensures var line := KeyedLine(codec, k, v, prefix, raw);
            |line| > |prefix| + 1 && line[|prefix| + 1] == k[0]
  {
    if k == "filter" {
      CharAfterPrefix(prefix, " filter ", PyStr(codec, v));
    } else if k == "identified" {
      CharAfterPrefix(prefix, " identified ", PyStr(codec, v));
    } else if k == "eval" && v.JObj? {
      CharAfterPrefix(prefix, " eval ", FormatBraceMap(codec, v.fields));
    } else if k == "select" && v.JObj? {
      CharAfterPrefix(prefix, " select ", FormatBraceMap(codec, v.fields));
    }
  }

  /** `KeyedLineKnown` for `join`. */
  lemma KeyedLineKnownJoin(codec: Codec, v: Json, prefix: string, raw: string)
    requires KnownStage(codec, "join", v)
    ensures var line := KeyedLine(codec, "join", v, prefix, raw);
            |line| > |prefix| + 1 && line[|prefix| + 1] == 'j'
  {
    CharAfterPrefix(prefix, " join fields [", Join(StringListOf(Get(v.fields, "fields")).value, ",") + "]");
  }

  /** `KeyedLineKnown` for `unmarshal` and `unwind`. */
  lemma KeyedLineKnownMaps(codec: Codec, k: string, v: Json, prefix: string, raw: string)
    requires KnownStage(codec, k, v) && k in {"unmarshal", "unwind"}
    ensures var line := KeyedLine(codec, k, v, prefix, raw);
            |line| > |prefix| + 1 && line[|prefix| + 1] == k[0]
  {
    if k == "unmarshal" {
      CharAfterPrefix(prefix, " unmarshal ", FormatBraceMap(codec, v.fields));
    } else {
      CharAfterPrefix(prefix, " unwind ", FormatBraceMap(codec, v.fields));
    }
  }

  /** `KeyedLineKnown` for `segment`. */
  lemma KeyedLineKnownSegment(codec: Codec, v: Json, prefix: string, raw: string)
    requires KnownStage(codec, "segment", v)
    ensures var line := KeyedLine(codec, "segment", v, prefix, raw);
            |line| > |prefix| + 1 && line[|prefix| + 1] == 's'
  {
    CharAfterPrefix(prefix, " segment id=", codec.dumps(JStr(PyStr(codec, SegmentId(v.fields).value))));
  }

  /** `KeyedLineKnown` for `bulkExpand`. */
  lemma KeyedLineKnownBulk(codec: Codec, v: Json, prefix: string, raw: string)
    requires KnownStage(codec, "bulkExpand", v)
    ensures var line := KeyedLine(codec, "bulkExpand", v, prefix, raw);
            |line| > |prefix| + 1 && line[|prefix| + 1] == 'b'
  {
    CharAfterPrefix(prefix, " bulkExpand ", JsonOneLine(codec, v));
  }

  /** `KeyedLineKnown` for `switch`. */
  lemma KeyedLineKnownSwitch(codec: Codec, v: Json, prefix: string, raw: string)
    requires KnownStage(codec, "switch", v)
    ensures var line := KeyedLine(codec, "switch", v, prefix, raw);
            |line| > |prefix| + 1 && line[|prefix| + 1] == 's'
  {
    CharAfterPrefix(prefix, " switch ", SwitchText(codec, v.fields).value);
  }

  /** `KeyedLineKnown` for the remaining keys: `group`, `sort` and `limit`. */
  lemma KeyedLineKnownRest(codec: Codec, k: string, v: Json, prefix: string, raw: string)
    requires KnownStage(codec, k, v)
    requires !(k in {"filter", "identified", "eval", "select", "join", "unmarshal", "unwind", "segment", "bulkExpand", "switch"})
    ensures var line := KeyedLine(codec, k, v, prefix, raw);
            |line| > |prefix| + 1 && line[|prefix| + 1] == k[0]
  {
    if k == "group" {
      CharAfterPrefix(prefix, " group ", GroupText(codec, v.fields).value);
    } else if k == "sort" {
      CharAfterPrefix(prefix, " sort ", Join(StringItems(v.items).value, ","));
    } else {
      CharAfterPrefix(prefix, " limit ", PyStr(codec, v));
    }
  }

  /** A one-key stage with a line of its own renders as the prefix, a space and then its key. */
  lemma KeyedLineKnown(codec: Codec, k: string, v: Json, prefix: string, raw: string)
    requires KnownStage(codec, k, v)
    ensures var line := KeyedLine(codec, k, v, prefix, raw);
            |line| > |prefix| + 1 && line[|prefix| + 1] == k[0]
  {
    if k in {"filter", "identified", "eval", "select"} {
      KeyedLineKnownFirst(codec, k, v, prefix, raw);
    } else if k == "join" {
      KeyedLineKnownJoin(codec, v, prefix, raw);
    } else if k in {"unmarshal", "unwind"} {
      KeyedLineKnownMaps(codec, k, v, prefix, raw);
    } else if k == "segment" {
      KeyedLineKnownSegment(codec, v, prefix, raw);
    } else if k == "bulkExpand" {
      KeyedLineKnownBulk(codec, v, prefix, raw);
    } else if k == "switch" {
      KeyedLineKnownSwitch(codec, v, prefix, raw);
    } else {
      KeyedLineKnownRest(codec, k, v, prefix, raw);
    }
  }

  /** A one-key stage without a line of its own renders as the `raw` fallback. */
  lemma KeyedLineUnknown(codec: Codec, k: string, v: Json, prefix: string, raw: string)
    requires !KnownStage(codec, k, v)
    ensures KeyedLine(codec, k, v, prefix, raw) == raw
  {
  }

  /**
   * A one-key stage renders with its key right after the prefix and a space when it has a line of its own,
   * and as the `raw` fallback exactly when it does not.
   */
  lemma KeyedLineFallback(codec: Codec, k: string, v: Json, prefix: string)
    ensures var raw := RawLine(codec, JObj([(k, v)]), prefix);
            var line := KeyedLine(codec, k, v, prefix, raw);
            && (KnownStage(codec, k, v) ==> |line| > |prefix| + 1 && line[|prefix| + 1] == k[0])
            && (line == raw <==> !KnownStage(codec, k, v))
  {
    var raw := RawLine(codec, JObj([(k, v)]), prefix);
    if KnownStage(codec, k, v) {
      KeyedLineKnown(codec, k, v, prefix, raw);
      assert k[0] != 'r';
      assert raw[|prefix| + 1] == 'r';
    } else {
      KeyedLineUnknown(codec, k, v, prefix, raw);
    }
  }

  /** A stage that is neither a merge nor a spawn decompiles to its one leaf line. */
  lemma DecompileLeaf(codec: Codec, stage: Json, prefix: string)
    requires !OneKey(stage, "merge") && !OneKey(stage, "spawn")
    ensures DecompileStage(codec, stage, prefix) == Ok([LeafStageLine(codec, stage, prefix)])
  {
  }

  /** The same for a whole stage: a one-key object without a line of its own is `raw`. */
  lemma LeafStageFallback(codec: Codec, k: string, v: Json, prefix: string)
    ensures var stage := JObj([(k, v)]);
            LeafStageLine(codec, stage, prefix) == RawLine(codec, stage, prefix) <==> !KnownStage(codec, k, v)
  {
    KeyedLineFallback(codec, k, v, prefix);
  }

  // ---------------------------------------------------------------------------
  // the loops, as the source runs them

  /** `_format_brace_map` */
  method FormatBraceMapImpl(codec: Codec, m: Dict<Json>) returns (text: string)
    ensures text == FormatBraceMap(codec, m)
  {
    var parts: seq<string> := [];
    var i := 0;
    while i < |m|
      invariant i <= |m| && |parts| == i
      invariant forall j :: 0 <= j < i ==> parts[j] == m[j].0 + "=" + PyStr(codec, m[j].1)
    {
      parts := parts + [m[i].0 + "=" + PyStr(codec, m[i].1)];
      i := i + 1;
    }
    assert parts == EntryTexts(codec, m);
    text := "{ " + Join(parts, ", ") + " }";
  }

  /** The switch case loop: the first case without `value` and `==` makes the stage `raw`. */
  method SwitchTextImpl(codec: Codec, sw: Dict<Json>) returns (r: Option<string>)
    ensures r == SwitchText(codec, sw)
  {
    if !(|sw| == 1 && sw[0].1.JObj? && |sw[0].1.fields| == 1 && sw[0].1.fields[0].1.JList?) {
      return None;
    }
    var (out, inner) := sw[0];
    var (field, cases) := inner.fields[0];
    var texts := CaseTextsImpl(codec, cases.items);
    if texts.None? {
      return None;
    }
    r := Some(out + " from " + field + " { " + Join(texts.value, ", ") + " }");
  }

  /** The loop filling `cases_text`, returning early at a case without both keys. */
  method CaseTextsImpl(codec: Codec, cases: seq<Json>) returns (r: Option<seq<string>>)
    ensures r == CaseTexts(codec, cases)
  {
    ghost var f := c => CaseText(codec, c);
    var texts: seq<string> := [];
    var i := 0;
    while i < |cases|
      invariant i <= |cases|
      invariant AllSome(f, cases[..i]) == Some(texts)
    {
      var c := cases[i];
      if !(c.JObj? && Get(c.fields, "value").Some? && Get(c.fields, "==").Some?) {
        assert f(cases[i]).None?;
        AllSomeFailsAt(f, cases, i);
        return None;
      }
      var text := FormatSwitchScalar(codec, Get(c.fields, "value").value) + "==" + FormatSwitchScalar(codec, Get(c.fields, "==").value);
      assert f(c) == Some(text);
      AllSomeSnoc(f, cases[..i], c);
      TakeSnoc(cases, i);
      texts := texts + [text];
      i := i + 1;
    }
    assert cases[..i] == cases;
    r := Some(texts);
  }

  /** The list-form group loop, with the source's `ok` flag and `break`. */
  method GroupListPartsImpl(codec: Codec, items: seq<Json>) returns (r: Option<seq<string>>)
    ensures r == GroupListParts(codec, items)
  {
    var parts: seq<string> := [];
    var ok := true;
    var i := 0;
    while i < |items|
      invariant i <= |items|
      invariant ok ==> |parts| == i && forall j :: 0 <= j < i ==>
                  items[j].JObj? && |items[j].fields| == 1 && GroupPart(codec, items[j].fields[0].0, items[j].fields[0].1).Some?
                  && parts[j] == GroupPart(codec, items[j].fields[0].0, items[j].fields[0].1).value
      invariant !ok ==> GroupListParts(codec, items).None?
    {
      var item := items[i];
      if !(item.JObj? && |item.fields| == 1) {
        ok := false;
        break;
      }
      var (alias, aggObj) := item.fields[0];
      if !(aggObj.JObj? && |aggObj.fields| == 1) {
        ok := false;
        break;
      }
      var (agg, arg) := aggObj.fields[0];
      if arg.JNull? {
        parts := parts + [alias + "=" + agg + "(null)"];
      } else {
        parts := parts + [alias + "=" + agg + "(" + PyStr(codec, arg) + ")"];
      }
      i := i + 1;
    }
    if ok {
      assert parts == GroupListParts(codec, items).value;
      r := Some(parts);
    } else {
      r := None;
    }
  }

  /** The map-form group loop: the first malformed aggregation makes the stage `raw`. */
  method GroupMapPartsImpl(codec: Codec, fields: Dict<Json>) returns (r: Option<seq<string>>)
    ensures r == GroupMapParts(codec, fields)
  {
    var parts: seq<string> := [];
    var i := 0;
    while i < |fields|
      invariant i <= |fields| && |parts| == i
      invariant forall j :: 0 <= j < i ==>
                  GroupPart(codec, fields[j].0, fields[j].1).Some? && parts[j] == GroupPart(codec, fields[j].0, fields[j].1).value
    {
      var (alias, aggObj) := fields[i];
      if !(aggObj.JObj? && |aggObj.fields| == 1) {
        return None;
      }
      var (agg, arg) := aggObj.fields[0];
      if arg.JNull? {
        parts := parts + [alias + "=" + agg + "(null)"];
      } else {
        parts := parts + [alias + "=" + agg + "(" + PyStr(codec, arg) + ")"];
      }
      i := i + 1;
    }
    assert parts == GroupMapParts(codec, fields).value;
    r := Some(parts);
  }

  /** The group stage after `group `, through the two loops. */
  method GroupTextImpl(codec: Codec, grp: Dict<Json>) returns (r: Option<string>)
    ensures r == GroupText(codec, grp)
  {
    var g := Get(grp, "group");
    var f := Get(grp, "fields");
    if g.None? || !g.value.JList? || f.None? {
      return None;
    }
    var groupText := Join(PyStrs(codec, g.value.items), ",");
    if f.value.JList? {
      var parts := GroupListPartsImpl(codec, f.value.items);
      if parts.Some? {
        return Some("by " + groupText + " fields { " + Join(parts.value, ", ") + " }");
      }
      return None;
    }
    if f.value.JObj? {
      var parts := GroupMapPartsImpl(codec, f.value.fields);
      if parts.Some? {
        return Some("by " + groupText + " fields map { " + Join(parts.value, ", ") + " }");
      }
      return None;
    }
    return None;
  }

  /** The single-line shapes of `_decompile_stage`, running the loops of brace maps, switch and group. */
  method LeafStageLineImpl(codec: Codec, stage: Json, prefix: string) returns (line: string)
    ensures line == LeafStageLine(codec, stage, prefix)
  {
    if !stage.JObj? || |stage.fields| != 1 {
      return RawLine(codec, stage, prefix);
    }
    var (k, v) := stage.fields[0];
    line := KeyedLineImpl(codec, k, v, prefix, RawLine(codec, stage, prefix));
  }

  method KeyedLineImpl(codec: Codec, k: string, v: Json, prefix: string, raw: string) returns (line: string)
    ensures line == KeyedLine(codec, k, v, prefix, raw)
  {
    if k == "eval" && v.JObj? {
      var body := FormatBraceMapImpl(codec, v.fields);
      return prefix + " eval " + body;
    }
    if k == "select" && v.JObj? {
      var body := FormatBraceMapImpl(codec, v.fields);
      return prefix + " select " + body;
    }
    if k == "unmarshal" && v.JObj? {
      var body := FormatBraceMapImpl(codec, v.fields);
      return prefix + " unmarshal " + body;
    }
    if k == "unwind" && v.JObj? {
      var body := FormatBraceMapImpl(codec, v.fields);
      return prefix + " unwind " + body;
    }
    if k == "switch" && v.JObj? {
      var text := SwitchTextImpl(codec, v.fields);
      if text.Some? {
        return prefix + " switch " + text.value;
      }
      return raw;
    }
    if k == "group" && v.JObj? {
      var text := GroupTextImpl(codec, v.fields);
      if text.Some? {
        return prefix + " group " + text.value;
      }
      return raw;
    }
    line := KeyedLine(codec, k, v, prefix, raw);
  }

  /** The loop over the source's entries, stopping at the event source. */
  method EventEntryImpl(entries: Dict<Json>) returns (found: Option<(string, Dict<Json>)>)
    ensures found == EventEntry(entries)
  {
    found := None;
    var i := 0;
    while i < |entries|
      invariant i <= |entries|
      invariant EventEntry(entries) == EventEntry(entries[i..])
    {
      var (k, v) := entries[i];
      if k != "timeSeries" && v.JNull? {
        return Some((k, []));
      }
      if k != "timeSeries" && v.JObj? {
        return Some((k, v.fields));
      }
      assert entries[i..][1..] == entries[i + 1..];
      i := i + 1;
    }
  }

  /** The loop building the bracket arguments of the FROM line. */
  method FromLineImpl(codec: Codec, sourceType: string, params: Dict<Json>) returns (line: string)
    ensures line == FromLineText(codec, sourceType, params)
  {
    var parts := ["source=" + sourceType];
    var j := 0;
    while j < |params|
      invariant j <= |params|
      invariant parts == ["source=" + sourceType] + BracketParts(codec, params[..j])
    {
      TakeSnoc(params, j);
      BracketPartsAppend(codec, params[..j], params[j]);
      parts := parts + [params[j].0 + "=" + FormatBracketValue(codec, params[j].1)];
      j := j + 1;
    }
    assert params[..j] == params;
    line := "FROM event([" + Join(parts, ",") + "])";
  }

  /** `_decompile_source_stage` */
  method SourceStageImpl(codec: Codec, stage: Dict<Json>) returns (r: Result<seq<string>>)
    ensures r == SourceStageLines(codec, stage)
  {
    var src := Get(stage, "source");
    if src.None? || !src.value.JObj? {
      var raw := LeafStageLineImpl(codec, JObj(stage), "|");
      return Ok(["PIPELINE", raw]);
    }
    var found := EventEntryImpl(src.value.fields);
    if found.None? {
      return Err(MissingEventSource);
    }
    var (sourceType, params) := found.value;
    var from := FromLineImpl(codec, sourceType, params);
    var ts := Get(src.value.fields, "timeSeries");
    if ts.Some? && ts.value.JObj? {
      var tsParts := TimeSeriesParts(codec, ts.value.fields);
      if tsParts.Err? {
        return Err(tsParts.msg);
      }
      return Ok([from, "TIMESERIES " + Join(tsParts.value, " ")]);
    }
    r := Ok([from]);
  }

  lemma BracketPartsAppend(codec: Codec, params: Dict<Json>, e: (string, Json))
    ensures BracketParts(codec, params + [e]) == BracketParts(codec, params) + [e.0 + "=" + FormatBracketValue(codec, e.1)]
  {
    var l := BracketParts(codec, params + [e]);
    assert forall i :: 0 <= i < |params| ==> (params + [e])[i] == params[i];
  }

  /** `_decompile_stage`, with the spawn loop over branches. */
  method DecompileStageImpl(codec: Codec, stage: Json, prefix: string) returns (r: Result<seq<string>>)
    ensures r == DecompileStage(codec, stage, prefix)
    decreases stage, 2
  {
    if OneKey(stage, "merge") && stage.fields[0].1.JObj? {
      var m := stage.fields[0].1.fields;
      var header := MergeHeader(codec, m, prefix);
      var pi := KeyIndex(m, "pipeline");
      if header.Some? && pi.Some? && m[pi.value].1.JList? {
        var inner := PipelineLinesImpl(codec, [], m[pi.value].1.items, "|");
        if inner.Err? {
          return Err(inner.msg);
        }
        return Ok([header.value] + inner.value + ["endmerge"]);
      }
      return Ok([RawLine(codec, stage, prefix)]);
    }
    if OneKey(stage, "spawn") && stage.fields[0].1.JList? {
      var branches := stage.fields[0].1.items;
      if exists i :: 0 <= i < |branches| && !branches[i].JList? {
        return Ok([RawLine(codec, stage, prefix)]);
      }
      var body := SpawnBranchesImpl(codec, branches);
      if body.Err? {
        return Err(body.msg);
      }
      return Ok([prefix + " spawn"] + body.value + [EndSpawn(prefix)]);
    }
    var line := LeafStageLineImpl(codec, stage, prefix);
    r := Ok([line]);
  }

  /** The loop over a spawn's branches. */
  method SpawnBranchesImpl(codec: Codec, branches: seq<Json>) returns (r: Result<seq<string>>)
    requires forall i :: 0 <= i < |branches| ==> branches[i].JList?
    ensures r == SpawnBranchesOnto(codec, [], branches)
    decreases branches, 1
  {
    var body: seq<string> := [];
    var i := 0;
    while i < |branches|
      invariant i <= |branches|
      invariant SpawnBranchesOnto(codec, body, branches[i..]) == SpawnBranchesOnto(codec, [], branches)
    {
      var lines := PipelineLinesImpl(codec, [], branches[i].items, "||");
      SpawnBranchesHead(codec, body, branches[i..]);
      if lines.Err? {
        return Err(lines.msg);
      }
      assert branches[i..][1..] == branches[i + 1..];
      body := body + ["branch"] + lines.value + ["endbranch"];
      i := i + 1;
    }
    assert branches[i..] == [];
    r := Ok(body);
  }

  /** One turn of the branch loop: the first branch's pipeline fails the loop, or its block is appended. */
  lemma SpawnBranchesHead(codec: Codec, body: seq<string>, rest: seq<Json>)
    requires rest != [] && forall i :: 0 <= i < |rest| ==> rest[i].JList?
    ensures var lines := PipelineLines(codec, [], rest[0].items, "||");
            && (lines.Err? ==> SpawnBranchesOnto(codec, body, rest) == Err(lines.msg))
            && (lines.Ok? ==> SpawnBranchesOnto(codec, body, rest)
                              == SpawnBranchesOnto(codec, body + ["branch"] + lines.value + ["endbranch"], rest[1..]))
  {
    var lines := PipelineLines(codec, [], rest[0].items, "||");
    if lines.Ok? {
      assert body + (["branch"] + lines.value + ["endbranch"]) == body + ["branch"] + lines.value + ["endbranch"];
    }
  }

  /** `_decompile_merge_pipeline` and `_decompile_branch_pipeline` */
  method PipelineLinesImpl(codec: Codec, acc: seq<string>, pipeline: seq<Json>, prefix: string) returns (r: Result<seq<string>>)
    ensures r == PipelineLines(codec, acc, pipeline, prefix)
    decreases pipeline, 2
  {
    if HasSourceHead(pipeline) {
      var head := SourceStageImpl(codec, pipeline[0].fields);
      if head.Err? {
        return Err(head.msg);
      }
      r := StagesLinesImpl(codec, acc + head.value, pipeline[1..], prefix);
    } else {
      r := StagesLinesImpl(codec, acc + ["PIPELINE"], pipeline, prefix);
    }
  }

  /** The stage loop: `lines.extend(_decompile_stage(stage, prefix=...))` for each stage. */
  method StagesLinesImpl(codec: Codec, acc: seq<string>, stages: seq<Json>, prefix: string) returns (r: Result<seq<string>>)
    ensures r == StagesLinesOnto(codec, acc, stages, prefix)
    decreases stages, 1
  {
    var lines := acc;
    var i := 0;
    while i < |stages|
      invariant i <= |stages|
      invariant StagesLinesOnto(codec, lines, stages[i..], prefix) == StagesLinesOnto(codec, acc, stages, prefix)
    {
      var more := DecompileStageImpl(codec, stages[i], prefix);
      if more.Err? {
        return Err(more.msg);
      }
      assert stages[i..][1..] == stages[i + 1..];
      lines := lines + more.value;
      i := i + 1;
    }
    assert stages[i..] == [];
    r := Ok(lines);
  }

  /** `decompile_pendo_aggregation_to_dsl` */
  method DecompileImpl(codec: Codec, body: Json) returns (r: Result<string>)
    ensures r == Decompile(codec, body)
  {
    var norm := NormalizeBody(body);
    if norm.Err? {
      return Err(norm.msg);
    }
    var lines := ResponseLines(codec, norm.value);
    var request := Get(norm.value, "request").value;
    var pv := RequestPipeline(request);
    if !pv.JList? {
      return Err(PipelineNotList);
    }
    lines := lines + RequestLines(codec, request);
    var all := PipelineLinesImpl(codec, lines, pv.items, "|");
    if all.Err? {
      return Err(all.msg);
    }
    r := Ok(Join(all.value, "\n") + "\n");
  }
}
