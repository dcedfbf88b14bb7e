/**
 * The compiler: a parsed query becomes the pipeline of the aggregation API and
 * the request body around it. `CompilePipeline` and `CompileStage` are the
 * structural recursion the source performs; `CompilePipelineImpl` and
 * `CompileStageImpl` run its loops (the stage loop of `compile_pipeline`, the
 * branch comprehensions and the two group loops) and are proved equal to them.
 */
module Compiler {
  import opened Wrappers
  import opened Strings
  import opened JsonData
  import opened Ast
  import opened Stages

  // ---------------------------------------------------------------------------
  // error messages

  const MergeNeedsQuery := "merge stage requires a parsed Query for pipeline"
  const ForkNeedsList := "fork stage payload must be a JSON array or list of Queries"
  const SessionReplaysNeedsObject := "sessionReplays stage payload must be a JSON object"
  const UnknownStageKind := "Unknown stage kind: "
  const UnsupportedFormat := "Unsupported request_format: "

  // ---------------------------------------------------------------------------
  // the source stage

  /** `first` / `last` as emitted: `now()` becomes `now_ms` only when one is supplied. */
  function TimeValueJson(v: TimeValue, nowMs: Option<int>): (r: Json)
    ensures v.TInt? ==> r == JInt(v.i)
    ensures v.TStr? && !(IsNow(v) && nowMs.Some?) ==> r == JStr(v.s)
    ensures IsNow(v) && nowMs.Some? ==> r == JInt(nowMs.value)
  {
    if IsNow(v) && nowMs.Some? then JInt(nowMs.value)
    else
      match v
      case TInt(i) => JInt(i)
      case TStr(s) => JStr(s)
  }

  /** `d[k] = v` for a key `d` does not hold yet, when there is a value. */
  function OptionalEntry(d: Dict<Json>, k: string, v: Option<Json>): (r: Dict<Json>)
    requires Get(d, k).None?
    ensures Get(r, k) == v
    ensures forall k' :: k' != k ==> Get(r, k') == Get(d, k')
    ensures |r| == |d| + (if v.Some? then 1 else 0) && r[..|d|] == d
  {
    if v.None? then d
    else
      assert forall k' :: Get(d + [(k, v.value)], k') == (if k' == k then v else Get(d, k')) by {
        forall k' { GetAppend(d, k, v.value, k'); }
      }
      d + [(k, v.value)]
  }

  /** The `timeSeries` object: `period` and `first`, then `count` and `last` when they are set. */
  function TimeSeriesJson(ts: TimeSeries, nowMs: Option<int>): (r: Dict<Json>)
    ensures Get(r, "period") == Some(JStr(ts.period))
    ensures Get(r, "first") == Some(TimeValueJson(ts.first, nowMs))
    ensures Get(r, "count") == (if ts.count.Some? then Some(JInt(ts.count.value)) else None)
    ensures Get(r, "last") == (if ts.last.Some? then Some(TimeValueJson(ts.last.value, nowMs)) else None)
    ensures |r| == 2 + (if ts.count.Some? then 1 else 0) + (if ts.last.Some? then 1 else 0)
    ensures r[0].0 == "period" && r[1].0 == "first"
  {
    var base := [("period", JStr(ts.period)), ("first", TimeValueJson(ts.first, nowMs))];
    var count := if ts.count.Some? then Some(JInt(ts.count.value)) else None;
    var last := if ts.last.Some? then Some(TimeValueJson(ts.last.value, nowMs)) else None;
    assert "period"[0] != "count"[0] && "period"[0] != "last"[0] && "first"[0] != "count"[0] && "first"[0] != "last"[0];
    assert Get(base, "period") == Some(JStr(ts.period)) && Get(base, "first") == Some(TimeValueJson(ts.first, nowMs));
    assert Get(base, "count").None? && Get(base, "last").None?;
    var withCount := OptionalEntry(base, "count", count);
    OptionalEntry(withCount, "last", last)
  }

  /** The object under `source`: the event source's parameters, then `timeSeries` when there is one. */
  function SourceObject(es: EventSource, ts: Option<TimeSeries>, nowMs: Option<int>): (r: Dict<Json>)
    ensures ts.Some? ==> Get(r, "timeSeries") == Some(JObj(TimeSeriesJson(ts.value, nowMs)))
    ensures ts.None? || es.sourceType != "timeSeries" ==> Get(r, es.sourceType) == Some(JObj(ScalarsJson(es.params)))
    ensures forall k :: k != es.sourceType && k != "timeSeries" ==> Get(r, k).None?
  {
    var src := [(es.sourceType, JObj(ScalarsJson(es.params)))];
    if ts.Some? then Put(src, "timeSeries", JObj(TimeSeriesJson(ts.value, nowMs))) else src
  }

  /** `{"source": ...}`, the first stage of a FROM query. */
  function SourceStage(es: EventSource, ts: Option<TimeSeries>, nowMs: Option<int>): Json {
    JObj([("source", JObj(SourceObject(es, ts, nowMs)))])
  }

  // ---------------------------------------------------------------------------
  // stages

  /** A stage object with the single key `k`. */
  function Single(k: string, v: Json): Json {
    JObj([(k, v)])
  }

  function StringList(xs: seq<string>): (r: Json)
    ensures r.JList? && |r.items| == |xs|
    ensures forall i :: 0 <= i < |xs| ==> r.items[i] == JStr(xs[i])
  {
    if xs == [] then JList([]) else JList([JStr(xs[0])] + StringList(xs[1..]).items)
  }

  /** `{agg: arg}`, with `null` for a missing argument. */
  function AggJson(f: GroupField): Json {
    JObj([(f.agg, if f.arg.None? then JNull else JStr(f.arg.value))])
  }

  /** The list form of a group's fields: one `{alias: {agg: arg}}` per field, in order. */
  function FieldsList(fields: seq<GroupField>): (r: seq<Json>)
    ensures |r| == |fields|
    ensures forall i :: 0 <= i < |fields| ==> r[i] == Single(fields[i].alias, AggJson(fields[i]))
  {
    if fields == [] then [] else [Single(fields[0].alias, AggJson(fields[0]))] + FieldsList(fields[1..])
  }

  /** The map form of a group's fields: `fields_map[alias] = {agg: arg}` for each field in turn. */
  function FieldsMapFold(fields: seq<GroupField>, out: Dict<Json>): Dict<Json> {
    if fields == [] then out else FieldsMapFold(fields[1..], Put(out, fields[0].alias, AggJson(fields[0])))
  }

  function FieldsMap(fields: seq<GroupField>): Dict<Json> {
    FieldsMapFold(fields, [])
  }

  /** The last field that has the alias `a`, the one whose entry the map keeps. */
  function LastWithAlias(fields: seq<GroupField>, a: string): Option<GroupField> {
    if fields == [] then None
    else if fields[|fields| - 1].alias == a then Some(fields[|fields| - 1])
    else LastWithAlias(fields[..|fields| - 1], a)
  }

  /** `{"group": {"group": [...], "fields": ...}}` in the list or the map form. */
  function GroupJson(g: GroupFields): Json {
    Single("group", JObj([("group", StringList(g.group)),
                          ("fields", if g.emitMap then JObj(FieldsMap(g.fields)) else JList(FieldsList(g.fields)))]))
  }

  function SwitchCaseJson(c: SwitchCase): Json {
    JObj([("value", JStr(c.value)), ("==", JStr(c.id))])
  }

  function SwitchCasesJson(cases: seq<SwitchCase>): (r: seq<Json>)
    ensures |r| == |cases|
    ensures forall i :: 0 <= i < |cases| ==> r[i] == SwitchCaseJson(cases[i])
  {
    if cases == [] then [] else [SwitchCaseJson(cases[0])] + SwitchCasesJson(cases[1..])
  }

  /** The merge object: `fields`, the compiled nested pipeline, and `mappings` when the stage has them. */
  function MergeJson(fields: seq<string>, mappings: Option<Dict<string>>, pipeline: seq<Json>): (r: Json)
    ensures r.JObj? && Get(r.fields, "fields") == Some(StringList(fields))
    ensures Get(r.fields, "pipeline") == Some(JList(pipeline))
    ensures Get(r.fields, "mappings").Some? <==> mappings.Some?
    ensures mappings.Some? ==> Get(r.fields, "mappings") == Some(JObj(StringsJson(mappings.value)))
  {
    var m := [("fields", StringList(fields)), ("pipeline", JList(pipeline))];
    assert Get(m, "mappings").None?;
    GetAppend(m, "mappings", JObj(StringsJson(if mappings.Some? then mappings.value else [])), "mappings");
    if mappings.Some? then JObj(m + [("mappings", JObj(StringsJson(mappings.value)))]) else JObj(m)
  }

  /** `compile_pipeline`: the source stage of a FROM query, then each stage compiled in order. */
  function CompilePipeline(q: Query, nowMs: Option<int>): (r: Result<seq<Json>>)
    decreases q, 2
  {
    CompileStagesOnto(PipelineHead(q, nowMs), q.stages, nowMs)
  }

  /** What `compile_pipeline` emits before the stages. */
  function PipelineHead(q: Query, nowMs: Option<int>): seq<Json> {
    if q.eventSource.Some? then [SourceStage(q.eventSource.value, q.timeSeries, nowMs)] else []
  }

  /** The stage loop of `compile_pipeline`, appending to `acc`; the first failing stage stops it. */
  function CompileStagesOnto(acc: seq<Json>, ss: seq<Stage>, nowMs: Option<int>): (r: Result<seq<Json>>)
    decreases ss, 1
  {
    if ss == [] then Ok(acc)
    else
      var j :- CompileStage(ss[0], nowMs);
      CompileStagesOnto(acc + [j], ss[1..], nowMs)
  }

  /** `[compile_pipeline(q) for q in qs]`, appending to `acc`. */
  function CompileBranchesOnto(acc: seq<Json>, qs: seq<Query>, nowMs: Option<int>): (r: Result<seq<Json>>)
    decreases qs, 1
  {
    if qs == [] then Ok(acc)
    else
      var p :- CompilePipeline(qs[0], nowMs);
      CompileBranchesOnto(acc + [JList(p)], qs[1..], nowMs)
  }

  /** `_compile_stage` */
  function CompileStage(st: Stage, nowMs: Option<int>): (r: Result<Json>)
    decreases st, 0
  {
    match st
    case Merge(fields, mappings, query) =>
      if query.None? then Err(MergeNeedsQuery)
      else
        var p :- CompilePipeline(query.value, nowMs);
        Ok(Single("merge", MergeJson(fields, mappings, p)))
    case Fork(ForkQueries(qs)) =>
      var ps :- CompileBranchesOnto([], qs, nowMs);
      Ok(Single("fork", JList(ps)))
    case Spawn(branches) =>
      var ps :- CompileBranchesOnto([], branches, nowMs);
      Ok(Single("spawn", JList(ps)))
    case _ => LeafStage(st)
  }

  /** The stages that hold no nested query: each is one JSON object built from its payload. */
  predicate IsLeaf(st: Stage) {
    !(st.Merge? || st.Spawn? || (st.Fork? && st.payload.ForkQueries?))
  }

  /** `_compile_stage` for the stages without a nested query. */
  function LeafStage(st: Stage): (r: Result<Json>)
    requires IsLeaf(st)
    ensures r.Err? <==> st.Other? || (st.Fork? && !st.payload.value.JList?) || (st.SessionReplays? && !st.value.JObj?)
    ensures r.Ok? && !st.Raw? ==> r.value.JObj? && |r.value.fields| == 1
  {
    match st
    case Filter(expr) => Ok(Single("filter", JStr(expr)))
    case Identified(field) => Ok(Single("identified", JStr(field)))
    case Eval(m) => Ok(Single("eval", JObj(StringsJson(m))))
    case Select(m) => Ok(Single("select", JObj(StringsJson(m))))
    case Join(fields) => Ok(Single("join", JObj([("fields", StringList(fields))])))
    case Unmarshal(m) => Ok(Single("unmarshal", JObj(StringsJson(m))))
    case Unwind(spec) => Ok(Single("unwind", JObj(spec)))
    case Segment(spec) => Ok(Single("segment", JObj(spec)))
    case BulkExpand(obj) => Ok(Single("bulkExpand", JObj(obj)))
    case Fork(payload) =>
      // only a JSON payload is left here; a list passes through unchanged
      if payload.value.JList? then Ok(Single("fork", payload.value)) else Err(ForkNeedsList)
    case SessionReplays(v) =>
      if v.JObj? then Ok(Single("sessionReplays", v)) else Err(SessionReplaysNeedsObject)
    case Switch(out, field, cases) =>
      Ok(Single("switch", Single(out, Single(field, JList(SwitchCasesJson(cases))))))
    case Raw(obj) => Ok(JObj(obj))
    case Limit(n) => Ok(Single("limit", JInt(n)))
    case Sort(keys) => Ok(Single("sort", StringList(keys)))
    case Group(g) => Ok(GroupJson(g))
    case Other(kind, _) => Err(UnknownStageKind + kind)
  }

  // ---------------------------------------------------------------------------
  // the request body

  /** `compile_to_pendo_aggregation_with_format` */
  function CompileToAggregationWithFormat(q: Query, nowMs: Option<int>, format: string): (r: Result<Json>)
    ensures CompilePipeline(q, nowMs).Err? ==> r.Err?
    ensures r.Ok? <==> CompilePipeline(q, nowMs).Ok? && format == "object"
    ensures r.Ok? ==> r.value.JObj? && Keys(r.value.fields) == ["response", "request"]
    ensures r.Ok? ==> Get(r.value.fields, "response")
                      == Some(JObj([("location", JStr("request")), ("mimeType", JStr(q.responseMimeType))]))
    ensures r.Ok? ==> Get(r.value.fields, "request").Some? && Get(r.value.fields, "request").value.JObj?
    ensures r.Ok? ==> Get(Get(r.value.fields, "request").value.fields, "pipeline") == Some(JList(CompilePipeline(q, nowMs).value))
    ensures r.Ok? ==> (Get(Get(r.value.fields, "request").value.fields, "name").Some? <==> q.requestName.Some?)
    ensures r.Ok? && q.requestName.Some? ==> Get(Get(r.value.fields, "request").value.fields, "name") == Some(JStr(q.requestName.value))
  {
    var pipeline :- CompilePipeline(q, nowMs);
    if format != "object" then Err(UnsupportedFormat + format)
    else
      var req := [("pipeline", JList(pipeline))] + (if q.requestName.Some? then [("name", JStr(q.requestName.value))] else []);
      Ok(JObj([("response", JObj([("location", JStr("request")), ("mimeType", JStr(q.responseMimeType))])),
               ("request", JObj(req))]))
  }

  /** `compile_to_pendo_aggregation`: the object format, which fails only when a stage does. */
  function CompileToAggregation(q: Query, nowMs: Option<int>): (r: Result<Json>)
    ensures r.Ok? <==> CompilePipeline(q, nowMs).Ok?
  {
    CompileToAggregationWithFormat(q, nowMs, "object")
  }

  // ---------------------------------------------------------------------------
  // what the compiled pipeline holds

  /** An append loop that stops at the first element `f` fails on. */
  function OntoFold<X>(acc: seq<Json>, xs: seq<X>, f: X -> Result<Json>): Result<seq<Json>>
    decreases |xs|
  {
    if xs == [] then Ok(acc)
    else
      var j :- f(xs[0]);
      OntoFold(acc + [j], xs[1..], f)
  }

  lemma {:induction false} OntoFoldShape<X>(acc: seq<Json>, xs: seq<X>, f: X -> Result<Json>)
    ensures OntoFold(acc, xs, f).Ok? <==> forall i :: 0 <= i < |xs| ==> f(xs[i]).Ok?
    ensures OntoFold(acc, xs, f).Ok? ==>
      var out := OntoFold(acc, xs, f).value;
      |out| == |acc| + |xs| && out[..|acc|] == acc && forall i :: 0 <= i < |xs| ==> out[|acc| + i] == f(xs[i]).value
    decreases |xs|
  {
    if xs != [] && f(xs[0]).Ok? {
      var j := f(xs[0]).value;
      var rest := xs[1..];
      OntoFoldShape(acc + [j], rest, f);
      assert forall i :: 1 <= i < |xs| ==> xs[i] == rest[i - 1];
      if OntoFold(acc, xs, f).Ok? {
        var out := OntoFold(acc, xs, f).value;
        forall i | 0 <= i < |xs| ensures out[|acc| + i] == f(xs[i]).value {
          if i == 0 {
            assert out[..|acc| + 1] == acc + [j];
            assert out[|acc|] == (acc + [j])[|acc|];
          } else {
            assert |acc| + i == |acc + [j]| + (i - 1);
          }
        }
        assert out[..|acc|] == (acc + [j])[..|acc|];
      }
    }
  }

  lemma {:induction false} OntoFoldError<X>(acc: seq<Json>, xs: seq<X>, f: X -> Result<Json>)
    ensures OntoFold(acc, xs, f).Err? ==>
      exists k :: 0 <= k < |xs| && f(xs[k]).Err? && (forall i :: 0 <= i < k ==> f(xs[i]).Ok?)
        && OntoFold(acc, xs, f).msg == f(xs[k]).msg
    decreases |xs|
  {
    if xs != [] && f(xs[0]).Ok? {
      var rest := xs[1..];
      OntoFoldError(acc + [f(xs[0]).value], rest, f);
      if OntoFold(acc, xs, f).Err? {
        var k :| 0 <= k < |rest| && f(rest[k]).Err? && (forall i :: 0 <= i < k ==> f(rest[i]).Ok?)
          && OntoFold(acc, xs, f).msg == f(rest[k]).msg;
        assert forall i :: 1 <= i < k + 1 ==> xs[i] == rest[i - 1];
        assert f(xs[k + 1]).Err?;
      }
    }
  }

  /** The stage loop is the append loop over `CompileStage`. */
  lemma {:induction false} StagesOntoIsFold(acc: seq<Json>, ss: seq<Stage>, nowMs: Option<int>)
    ensures CompileStagesOnto(acc, ss, nowMs) == OntoFold(acc, ss, st => CompileStage(st, nowMs))
    decreases |ss|
  {
    if ss != [] && CompileStage(ss[0], nowMs).Ok? {
      StagesOntoIsFold(acc + [CompileStage(ss[0], nowMs).value], ss[1..], nowMs);
    }
  }

  /** The branch comprehension is the append loop over `CompilePipeline`. */
  lemma {:induction false} BranchesOntoIsFold(acc: seq<Json>, qs: seq<Query>, nowMs: Option<int>)
    ensures CompileBranchesOnto(acc, qs, nowMs) == OntoFold(acc, qs, BranchJson(nowMs))
    decreases |qs|
  {
    if qs != [] && CompilePipeline(qs[0], nowMs).Ok? {
      BranchesOntoIsFold(acc + [JList(CompilePipeline(qs[0], nowMs).value)], qs[1..], nowMs);
    }
  }

  /** One compiled branch, as the list it becomes. */
  function BranchJson(nowMs: Option<int>): Query -> Result<Json> {
    q => (var p :- CompilePipeline(q, nowMs); Ok(JList(p)))
  }

  /** The stage loop emits exactly one fragment per stage, in order, after `acc`, or fails. */
  lemma CompileStagesOntoShape(acc: seq<Json>, ss: seq<Stage>, nowMs: Option<int>)
    ensures CompileStagesOnto(acc, ss, nowMs).Ok? <==> forall i :: 0 <= i < |ss| ==> CompileStage(ss[i], nowMs).Ok?
    ensures CompileStagesOnto(acc, ss, nowMs).Ok? ==>
      var out := CompileStagesOnto(acc, ss, nowMs).value;
      |out| == |acc| + |ss| && out[..|acc|] == acc
      && forall i :: 0 <= i < |ss| ==> out[|acc| + i] == CompileStage(ss[i], nowMs).value
  {
    StagesOntoIsFold(acc, ss, nowMs);
    OntoFoldShape(acc, ss, st => CompileStage(st, nowMs));
  }

  /** When a stage fails, the pipeline fails with the message of the first stage that does. */
  lemma CompileStagesOntoError(acc: seq<Json>, ss: seq<Stage>, nowMs: Option<int>)
    ensures CompileStagesOnto(acc, ss, nowMs).Err? ==>
      exists k :: 0 <= k < |ss| && CompileStage(ss[k], nowMs).Err?
        && (forall i :: 0 <= i < k ==> CompileStage(ss[i], nowMs).Ok?)
        && CompileStagesOnto(acc, ss, nowMs).msg == CompileStage(ss[k], nowMs).msg
  {
    StagesOntoIsFold(acc, ss, nowMs);
    OntoFoldError(acc, ss, st => CompileStage(st, nowMs));
  }

  /**
   * `compile_pipeline` returns the source stage of a FROM query, then one compiled
   * fragment per stage in order; it fails exactly when one of the stages does.
   */
  lemma CompilePipelineShape(q: Query, nowMs: Option<int>)
    ensures CompilePipeline(q, nowMs).Ok? <==> forall i :: 0 <= i < |q.stages| ==> CompileStage(q.stages[i], nowMs).Ok?
    ensures CompilePipeline(q, nowMs).Ok? ==>
      var p := CompilePipeline(q, nowMs).value;
      var off := if q.eventSource.Some? then 1 else 0;
      |p| == off + |q.stages|
      && (q.eventSource.Some? ==> p[0] == SourceStage(q.eventSource.value, q.timeSeries, nowMs))
      && forall i :: 0 <= i < |q.stages| ==> p[off + i] == CompileStage(q.stages[i], nowMs).value
  {
    CompileStagesOntoShape(PipelineHead(q, nowMs), q.stages, nowMs);
  }

  /** `[compile_pipeline(q) for q in qs]` holds one compiled pipeline per query, in order, or fails. */
  lemma CompileBranchesOntoShape(acc: seq<Json>, qs: seq<Query>, nowMs: Option<int>)
    ensures CompileBranchesOnto(acc, qs, nowMs).Ok? <==> forall i :: 0 <= i < |qs| ==> CompilePipeline(qs[i], nowMs).Ok?
    ensures CompileBranchesOnto(acc, qs, nowMs).Ok? ==>
      var out := CompileBranchesOnto(acc, qs, nowMs).value;
      |out| == |acc| + |qs| && out[..|acc|] == acc
      && forall i :: 0 <= i < |qs| ==> out[|acc| + i] == JList(CompilePipeline(qs[i], nowMs).value)
  {
    BranchesOntoIsFold(acc, qs, nowMs);
    OntoFoldShape(acc, qs, BranchJson(nowMs));
  }

  // ---------------------------------------------------------------------------
  // the map form of a group

  /** Adding a field at the front only matters for an alias no later field has. */
  lemma {:induction false} LastWithAliasCons(f: GroupField, rest: seq<GroupField>, a: string)
    ensures LastWithAlias([f] + rest, a)
            == if LastWithAlias(rest, a).Some? then LastWithAlias(rest, a) else if f.alias == a then Some(f) else None
    decreases |rest|
  {
    var fs := [f] + rest;
    if rest != [] {
      assert fs[|fs| - 1] == rest[|rest| - 1];
      assert fs[..|fs| - 1] == [f] + rest[..|rest| - 1];
      LastWithAliasCons(f, rest[..|rest| - 1], a);
    } else {
      assert fs[..|fs| - 1] == [];
    }
  }

  lemma {:induction false} FieldsMapFoldGet(fields: seq<GroupField>, out: Dict<Json>, a: string)
    ensures Get(FieldsMapFold(fields, out), a)
            == if LastWithAlias(fields, a).Some? then Some(AggJson(LastWithAlias(fields, a).value)) else Get(out, a)
  {
    if fields != [] {
      FieldsMapFoldGet(fields[1..], Put(out, fields[0].alias, AggJson(fields[0])), a);
      LastWithAliasCons(fields[0], fields[1..], a);
      assert [fields[0]] + fields[1..] == fields;
    }
  }

  /** In the map form a later field with the same alias overwrites the earlier one. */
  lemma FieldsMapGet(fields: seq<GroupField>, a: string)
    ensures Get(FieldsMap(fields), a) == if LastWithAlias(fields, a).Some? then Some(AggJson(LastWithAlias(fields, a).value)) else None
  {
    FieldsMapFoldGet(fields, [], a);
  }

  lemma {:induction false} FieldsMapFoldDistinct(fields: seq<GroupField>, out: Dict<Json>)
    requires DistinctKeys(out)
    ensures DistinctKeys(FieldsMapFold(fields, out))
  {
    if fields != [] {
      PutDistinct(out, fields[0].alias, AggJson(fields[0]));
      FieldsMapFoldDistinct(fields[1..], Put(out, fields[0].alias, AggJson(fields[0])));
    }
  }

  /** The map form holds every alias once. */
  lemma FieldsMapDistinct(fields: seq<GroupField>)
    ensures DistinctKeys(FieldsMap(fields))
  {
    FieldsMapFoldDistinct(fields, []);
  }

  // ---------------------------------------------------------------------------
  // `now_ms` only reaches `now()` time values, at any depth

  predicate TimeSeriesNowFree(ts: TimeSeries) {
    !IsNow(ts.first) && (ts.last.Some? ==> !IsNow(ts.last.value))
  }

  /** No `now()` time value in the query or in any query nested in its stages. */
  predicate QueryNowFree(q: Query)
    decreases q, 1
  {
    (q.eventSource.Some? && q.timeSeries.Some? ==> TimeSeriesNowFree(q.timeSeries.value))
    && forall i :: 0 <= i < |q.stages| ==> StageNowFree(q.stages[i])
  }

  predicate StageNowFree(st: Stage)
    decreases st, 0
  {
    match st
    case Merge(_, _, query) => query.Some? ==> QueryNowFree(query.value)
    case Spawn(branches) => forall i :: 0 <= i < |branches| ==> QueryNowFree(branches[i])
    case Fork(ForkQueries(qs)) => forall i :: 0 <= i < |qs| ==> QueryNowFree(qs[i])
    case _ => true
  }

  /** Without a `now()` time value anywhere, the supplied `now_ms` makes no difference. */
  lemma {:induction false} PipelineNowFree(q: Query, a: Option<int>, b: Option<int>)
    requires QueryNowFree(q)
    ensures CompilePipeline(q, a) == CompilePipeline(q, b)
    decreases q, 2
  {
    if q.eventSource.Some? && q.timeSeries.Some? {
      assert TimeSeriesJson(q.timeSeries.value, a) == TimeSeriesJson(q.timeSeries.value, b);
    }
    assert PipelineHead(q, a) == PipelineHead(q, b);
    StagesOntoNowFree(PipelineHead(q, a), q.stages, a, b);
  }

  lemma {:induction false} StagesOntoNowFree(acc: seq<Json>, ss: seq<Stage>, a: Option<int>, b: Option<int>)
    requires forall i :: 0 <= i < |ss| ==> StageNowFree(ss[i])
    ensures CompileStagesOnto(acc, ss, a) == CompileStagesOnto(acc, ss, b)
    decreases ss, 1
  {
    if ss != [] {
      StageNowFreeSame(ss[0], a, b);
      if CompileStage(ss[0], a).Ok? {
        assert forall i :: 0 <= i < |ss[1..]| ==> ss[1..][i] == ss[i + 1];
        StagesOntoNowFree(acc + [CompileStage(ss[0], a).value], ss[1..], a, b);
      }
    }
  }

  lemma {:induction false} BranchesOntoNowFree(acc: seq<Json>, qs: seq<Query>, a: Option<int>, b: Option<int>)
    requires forall i :: 0 <= i < |qs| ==> QueryNowFree(qs[i])
    ensures CompileBranchesOnto(acc, qs, a) == CompileBranchesOnto(acc, qs, b)
    decreases qs, 1
  {
    if qs != [] {
      PipelineNowFree(qs[0], a, b);
      if CompilePipeline(qs[0], a).Ok? {
        assert forall i :: 0 <= i < |qs[1..]| ==> qs[1..][i] == qs[i + 1];
        BranchesOntoNowFree(acc + [JList(CompilePipeline(qs[0], a).value)], qs[1..], a, b);
      }
    }
  }

  lemma {:induction false} StageNowFreeSame(st: Stage, a: Option<int>, b: Option<int>)
    requires StageNowFree(st)
    ensures CompileStage(st, a) == CompileStage(st, b)
    decreases st, 0
  {
    match st
    case Merge(_, _, query) =>
      if query.Some? {
        PipelineNowFree(query.value, a, b);
      }
    case Spawn(branches) => BranchesOntoNowFree([], branches, a, b);
    case Fork(ForkQueries(qs)) => BranchesOntoNowFree([], qs, a, b);
    case _ =>
  }

  // ---------------------------------------------------------------------------
  // the loops, as the source runs them

  /** `compile_pipeline`, appending each compiled stage to the pipeline in turn. */
  method CompilePipelineImpl(q: Query, nowMs: Option<int>) returns (r: Result<seq<Json>>)
    ensures r == CompilePipeline(q, nowMs)
    decreases q, 2
  {
    var pipeline: seq<Json> := [];
    if q.eventSource.Some? {
      pipeline := [SourceStage(q.eventSource.value, q.timeSeries, nowMs)];
    }
    var i := 0;
    while i < |q.stages|
      invariant i <= |q.stages|
      invariant CompileStagesOnto(pipeline, q.stages[i..], nowMs) == CompilePipeline(q, nowMs)
      decreases |q.stages| - i
    {
      var j := CompileStageImpl(q.stages[i], nowMs);
      if j.Err? {
        return Err(j.msg);
      }
      assert q.stages[i..][1..] == q.stages[i + 1..];
      pipeline := pipeline + [j.value];
      i := i + 1;
    }
    assert q.stages[i..] == [];
    return Ok(pipeline);
  }

  /** `[compile_pipeline(q) for q in qs]` */
  method CompileBranchesImpl(qs: seq<Query>, nowMs: Option<int>) returns (r: Result<seq<Json>>)
    ensures r == CompileBranchesOnto([], qs, nowMs)
    decreases qs, 1
  {
    var out: seq<Json> := [];
    var i := 0;
    while i < |qs|
      invariant i <= |qs|
      invariant CompileBranchesOnto(out, qs[i..], nowMs) == CompileBranchesOnto([], qs, nowMs)
      decreases |qs| - i
    {
      var p := CompilePipelineImpl(qs[i], nowMs);
      if p.Err? {
        return Err(p.msg);
      }
      assert qs[i..][1..] == qs[i + 1..];
      out := out + [JList(p.value)];
      i := i + 1;
    }
    assert qs[i..] == [];
    return Ok(out);
  }

  /** The list-form loop of the group stage. */
  method FieldsListImpl(fields: seq<GroupField>) returns (out: seq<Json>)
    ensures out == FieldsList(fields)
  {
    out := [];
    var i := 0;
    while i < |fields|
      invariant i <= |fields| && |out| == i
      invariant forall k :: 0 <= k < i ==> out[k] == Single(fields[k].alias, AggJson(fields[k]))
    {
      var f := fields[i];
      if f.arg.None? {
        out := out + [JObj([(f.alias, JObj([(f.agg, JNull)]))])];
      } else {
        out := out + [JObj([(f.alias, JObj([(f.agg, JStr(f.arg.value))]))])];
      }
      i := i + 1;
    }
  }

  /** The map-form loop of the group stage: `fields_map[alias] = {agg: arg}`. */
  method FieldsMapImpl(fields: seq<GroupField>) returns (out: Dict<Json>)
    ensures out == FieldsMap(fields)
  {
    out := [];
    var i := 0;
    while i < |fields|
      invariant i <= |fields|
      invariant FieldsMapFold(fields[i..], out) == FieldsMap(fields)
    {
      assert fields[i..][1..] == fields[i + 1..];
      out := Put(out, fields[i].alias, AggJson(fields[i]));
      i := i + 1;
    }
    assert fields[i..] == [];
  }

  /** `_compile_stage`, running the nested pipelines and the group loops. */
  method CompileStageImpl(st: Stage, nowMs: Option<int>) returns (r: Result<Json>)
    ensures r == CompileStage(st, nowMs)
    decreases st, 0
  {
    match st
    case Merge(fields, mappings, query) =>
      if query.None? {
        return Err(MergeNeedsQuery);
      }
      var p := CompilePipelineImpl(query.value, nowMs);
      if p.Err? {
        return Err(p.msg);
      }
      r := Ok(Single("merge", MergeJson(fields, mappings, p.value)));
    case Fork(ForkQueries(qs)) =>
      var ps := CompileBranchesImpl(qs, nowMs);
      if ps.Err? {
        return Err(ps.msg);
      }
      r := Ok(Single("fork", JList(ps.value)));
    case Spawn(branches) =>
      var ps := CompileBranchesImpl(branches, nowMs);
      if ps.Err? {
        return Err(ps.msg);
      }
      r := Ok(Single("spawn", JList(ps.value)));
    case Group(g) =>
      if g.emitMap {
        var m := FieldsMapImpl(g.fields);
        r := Ok(Single("group", JObj([("group", StringList(g.group)), ("fields", JObj(m))])));
      } else {
        var l := FieldsListImpl(g.fields);
        r := Ok(Single("group", JObj([("group", StringList(g.group)), ("fields", JList(l))])));
      }
    case _ =>
      r := CompileStage(st, nowMs);
  }
}
