/**
 * `validate_aggregation_body`: the envelope check a request body passes before it
 * is sent. The first failing guard decides the error message; a body that passes
 * every guard yields no message.
 */
module Validate {
  import opened Wrappers
  import opened Strings
  import opened JsonData
  import Ast
  import Compiler

  const NotAnObject := "Body must be a JSON object"
  const BadResponse := "Missing/invalid 'response' object"
  const BadLocation := "response.location must be 'request' when provided"
  const BadMimeType := "response.mimeType must be a non-empty string"
  const BadRequest := "request must be an object containing pipeline"
  const MissingPipeline := "request.pipeline is required"
  const PipelineNotList := "request.pipeline must be a list"

  /** `f"pipeline[{idx}] must be a non-empty object"` */
  function StageMessage(idx: nat): string {
    "pipeline[" + NatToString(idx) + "] must be a non-empty object"
  }

  /** `j.get(k)` for a dictionary, nothing for any other value. */
  function Field(j: Json, k: string): Option<Json> {
    if j.JObj? then Get(j.fields, k) else None
  }

  /** `isinstance(stage, dict) and stage` */
  predicate GoodStage(stage: Json) {
    stage.JObj? && stage.fields != []
  }

  /** The guards on `response`: an object, `location` absent or `"request"`, a non-empty `mimeType` string. */
  predicate ValidResponse(response: Json) {
    && response.JObj?
    && Field(response, "location") in {None, Some(JStr("request"))}
    && Field(response, "mimeType").Some?
    && Field(response, "mimeType").value.JStr?
    && Field(response, "mimeType").value.s != ""
  }

  /** The guards on `request`: an object whose `pipeline` is a list of non-empty objects. */
  predicate ValidRequest(request: Json) {
    && request.JObj?
    && Field(request, "pipeline").Some?
    && Field(request, "pipeline").value.JList?
    && forall i :: 0 <= i < |Field(request, "pipeline").value.items| ==>
         GoodStage(Field(request, "pipeline").value.items[i])
  }

  /** The accepted envelope, stated guard by guard. */
  predicate ValidBody(body: Json) {
    && body.JObj?
    && Field(body, "response").Some? && ValidResponse(Field(body, "response").value)
    && Field(body, "request").Some? && ValidRequest(Field(body, "request").value)
  }

  /** The loop over `enumerate(pipeline)` from position `from`: the first stage that is not a non-empty object. */
  function FirstBadStage(pipeline: seq<Json>, from: nat): (r: Option<nat>)
    requires from <= |pipeline|
    ensures r.None? <==> forall i :: from <= i < |pipeline| ==> GoodStage(pipeline[i])
    ensures r.Some? ==> from <= r.value < |pipeline| && !GoodStage(pipeline[r.value])
                        && forall i :: from <= i < r.value ==> GoodStage(pipeline[i])
    decreases |pipeline| - from
  {
    if from == |pipeline| then None
    else if !GoodStage(pipeline[from]) then Some(from)
    else FirstBadStage(pipeline, from + 1)
  }

  /** The guards on `body.get("response")`, in the order the source checks them. */
  function ResponseError(response: Option<Json>): (r: Option<string>)
    ensures r.None? <==> response.Some? && ValidResponse(response.value)
  {
    if response.None? || !response.value.JObj? then Some(BadResponse)
    else
      var location := Get(response.value.fields, "location");
      if location.Some? && location.value != JStr("request") then Some(BadLocation)
      else
        var mimeType := Get(response.value.fields, "mimeType");
        if mimeType.None? || !mimeType.value.JStr? || mimeType.value.s == "" then Some(BadMimeType)
        else None
  }

  /** The guards on `body.get("request")`, then the stage loop. */
  function RequestError(request: Option<Json>): (r: Option<string>)
    ensures r.None? <==> request.Some? && ValidRequest(request.value)
  {
    if request.None? || !request.value.JObj? then Some(BadRequest)
    else
      var pipeline := Get(request.value.fields, "pipeline");
      if pipeline.None? then Some(MissingPipeline)
      else if !pipeline.value.JList? then Some(PipelineNotList)
      else
        match FirstBadStage(pipeline.value.items, 0)
        case Some(idx) => Some(StageMessage(idx))
        case None => None
  }

  /** `validate_aggregation_body`: `None` when the body is accepted, otherwise the `ValidationError` message. */
  function ValidateAggregationBody(body: Json): (r: Option<string>)
    ensures r.None? <==> ValidBody(body)
  {
    if !body.JObj? then Some(NotAnObject)
    else
      var responseError := ResponseError(Get(body.fields, "response"));
      if responseError.Some? then responseError
      else RequestError(Get(body.fields, "request"))
  }

  /** The stage loop as written: it stops at the first bad stage and names its position. */
  method FirstBadStageImpl(pipeline: seq<Json>) returns (r: Option<nat>)
    ensures r == FirstBadStage(pipeline, 0)
  {
    var idx := 0;
    while idx < |pipeline|
      invariant 0 <= idx <= |pipeline|
      invariant FirstBadStage(pipeline, idx) == FirstBadStage(pipeline, 0)
    {
      if !GoodStage(pipeline[idx]) {
        return Some(idx);
      }
      idx := idx + 1;
    }
    return None;
  }

  // ---------------------------------------------------------------------------
  // properties

  /** A body whose envelope is fine but one of whose stages is bad is rejected with that stage's position. */
  lemma BadStageNamed(body: Json, stages: seq<Json>, idx: nat)
    requires body.JObj? && Field(body, "response").Some? && ValidResponse(Field(body, "response").value)
    requires Field(body, "request").Some? && Field(Field(body, "request").value, "pipeline") == Some(JList(stages))
    requires idx < |stages| && !GoodStage(stages[idx])
    requires forall i :: 0 <= i < idx ==> GoodStage(stages[i])
    ensures ValidateAggregationBody(body) == Some(StageMessage(idx))
  {
    var request := Field(body, "request").value;
    assert request.JObj? && Get(request.fields, "pipeline") == Some(JList(stages));
    assert FirstBadStage(stages, 0) == Some(idx);
    assert RequestError(Some(request)) == Some(StageMessage(idx));
  }

  /** The legacy form, whose `request` is the bare pipeline array, is rejected whatever it holds. */
  lemma LegacyArrayRejected(body: Json, stages: seq<Json>)
    requires body.JObj? && Field(body, "response").Some? && ValidResponse(Field(body, "response").value)
    requires Field(body, "request") == Some(JList(stages))
    ensures ValidateAggregationBody(body) == Some(BadRequest)
  {
  }

  /** Each compiled stage is a one-key object, except a raw stage, which is its own object. */
  lemma CompiledStageGood(st: Ast.Stage, nowMs: Option<int>)
    requires Compiler.CompileStage(st, nowMs).Ok?
    ensures GoodStage(Compiler.CompileStage(st, nowMs).value) <==> !(st.Raw? && st.obj == [])
  {
    if !(st.Merge? || st.Spawn? || (st.Fork? && st.payload.ForkQueries?)) {
      assert Compiler.CompileStage(st, nowMs) == Compiler.LeafStage(st);
    }
  }

  /** No stage of `q` is a raw stage with an empty object. */
  predicate NoEmptyRaw(q: Ast.Query) {
    forall i :: 0 <= i < |q.stages| ==> !(q.stages[i].Raw? && q.stages[i].obj == [])
  }

  /** Whether each stage of `q` is a raw stage with an empty object. */
  function EmptyRaws(q: Ast.Query): (r: seq<bool>)
    ensures |r| == |q.stages|
    ensures forall i :: 0 <= i < |q.stages| ==> r[i] == (q.stages[i].Raw? && q.stages[i].obj == [])
  {
    seq(|q.stages|, i requires 0 <= i < |q.stages| => q.stages[i].Raw? && q.stages[i].obj == [])
  }

  /** Every fragment is good when the ones before `off` are and the rest are good exactly where `bad` says no. */
  lemma ShiftedAllGood(p: seq<Json>, off: nat, bad: seq<bool>)
    requires |p| == off + |bad|
    requires forall j :: 0 <= j < off ==> GoodStage(p[j])
    requires forall i :: 0 <= i < |bad| ==> (GoodStage(p[off + i]) <==> !bad[i])
    ensures (forall j :: 0 <= j < |p| ==> GoodStage(p[j])) <==> (forall i :: 0 <= i < |bad| ==> !bad[i])
  {
    if forall i :: 0 <= i < |bad| ==> !bad[i] {
      forall j | 0 <= j < |p| ensures GoodStage(p[j]) {
        if j >= off {
          assert !bad[j - off];
        }
      }
    }
  }

  /** Every fragment `compile_pipeline` emits is a non-empty object unless an empty raw stage put `{}` there. */
  lemma CompiledPipelineGood(q: Ast.Query, nowMs: Option<int>)
    requires Compiler.CompilePipeline(q, nowMs).Ok?
    ensures (forall j :: 0 <= j < |Compiler.CompilePipeline(q, nowMs).value| ==> GoodStage(Compiler.CompilePipeline(q, nowMs).value[j]))
            <==> NoEmptyRaw(q)
  {
    var p := Compiler.CompilePipeline(q, nowMs).value;
    Compiler.CompilePipelineShape(q, nowMs);
    var off := if q.eventSource.Some? then 1 else 0;
    var bad := EmptyRaws(q);
    forall i | 0 <= i < |bad| ensures GoodStage(p[off + i]) <==> !bad[i] {
      CompiledStageGood(q.stages[i], nowMs);
    }
    ShiftedAllGood(p, off, bad);
  }

  /** The response object the compiler writes passes its guards exactly when the mime type is non-empty. */
  lemma CompiledResponseValid(mimeType: string)
    ensures ValidResponse(JObj([("location", JStr("request")), ("mimeType", JStr(mimeType))])) <==> mimeType != ""
  {
    var d := [("location", JStr("request")), ("mimeType", JStr(mimeType))];
    assert "location"[0] != "mimeType"[0];
    assert Get(d, "location") == Some(JStr("request"));
    assert Get(d, "mimeType") == Some(JStr(mimeType));
  }

  /**
   * The compiler's request bodies pass validation exactly when the query names a
   * mime type and holds no empty raw stage.
   */
  lemma CompiledBodyValid(q: Ast.Query, nowMs: Option<int>)
    requires Compiler.CompileToAggregation(q, nowMs).Ok?
    ensures ValidateAggregationBody(Compiler.CompileToAggregation(q, nowMs).value).None?
            <==> q.responseMimeType != "" && NoEmptyRaw(q)
  {
    var body := Compiler.CompileToAggregation(q, nowMs).value;
    var p := Compiler.CompilePipeline(q, nowMs).value;
    assert Field(body, "response") == Some(JObj([("location", JStr("request")), ("mimeType", JStr(q.responseMimeType))]));
    CompiledResponseValid(q.responseMimeType);
    assert Field(Field(body, "request").value, "pipeline") == Some(JList(p));
    CompiledPipelineGood(q, nowMs);
  }
}
