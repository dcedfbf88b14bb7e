/**
 * The parsed form of a DSL query. The records are immutable values, as the
 * frozen dataclasses they model are; the untyped `Stage.payload` becomes one
 * constructor per stage kind, each carrying the payload shape that kind uses.
 */
module Ast {
  import opened Wrappers
  import opened JsonData

  /** A value written after `key=` in `[...]` argument lists and key/value lists. */
  datatype Scalar =
    | SStr(s: string)
    | SEmptyList          // the token `[]`
    | SInt(i: int)

  /** `first` / `last` of a time series: an epoch-millisecond integer or an expression. */
  datatype TimeValue = TInt(i: int) | TStr(s: string)

  /** Meant to carry exactly one of `count` and `last`; see `WellFormedTimeSeries`. */
  datatype TimeSeries = TimeSeries(period: string, first: TimeValue, count: Option<int>, last: Option<TimeValue>)

  datatype EventSource = EventSource(sourceType: string, params: Dict<Scalar>)

  /** One `alias=agg(arg)` assignment of a group stage; `arg` is `None` for `null`. */
  datatype GroupField = GroupField(alias: string, agg: string, arg: Option<string>)

  datatype GroupFields = GroupFields(group: seq<string>, fields: seq<GroupField>, emitMap: bool)

  /** One `value == id` case of a switch stage, both already rendered as text. */
  datatype SwitchCase = SwitchCase(value: string, id: string)

  /** A fork payload: parsed branch queries, or a JSON value given as is. */
  datatype ForkPayload = ForkQueries(queries: seq<Query>) | ForkJson(value: Json)

  datatype Stage =
    | Filter(expr: string)
    | Identified(field: string)
    | Eval(exprs: Dict<string>)
    | Select(exprs: Dict<string>)
    | Join(fields: seq<string>)
    | Switch(out: string, field: string, cases: seq<SwitchCase>)
    | Unmarshal(exprs: Dict<string>)
    | Unwind(spec: Dict<Json>)
    | Segment(spec: Dict<Json>)
    | BulkExpand(obj: Dict<Json>)
    | Raw(obj: Dict<Json>)
    | Limit(n: int)
    | Sort(keys: seq<string>)
    | Group(grp: GroupFields)
      /** `query` is `None` when the payload's `query` entry is not a parsed `Query`. */
    | Merge(mergeFields: seq<string>, mappings: Option<Dict<string>>, query: Option<Query>)
    | Spawn(branches: seq<Query>)
    | Fork(payload: ForkPayload)
    | SessionReplays(value: Json)
      /** A stage of any other kind, which only a hand-built query can hold. */
    | Other(kind: string, value: Json)

  datatype Query = Query(
    eventSource: Option<EventSource>,   // None: PIPELINE mode
    timeSeries: Option<TimeSeries>,
    stages: seq<Stage>,
    responseMimeType: string,
    requestName: Option<string>)

  const DefaultMimeType: string := "application/json"

  /** A query built with the dataclass defaults for the response type and the request name. */
  function MakeQuery(eventSource: Option<EventSource>, timeSeries: Option<TimeSeries>, stages: seq<Stage>): (q: Query)
    ensures q.responseMimeType == "application/json" && q.requestName.None?
    ensures q.eventSource == eventSource && q.timeSeries == timeSeries && q.stages == stages
  {
    Query(eventSource, timeSeries, stages, DefaultMimeType, None)
  }

  /** Exactly one of `count` and `last` is set. */
  predicate WellFormedTimeSeries(ts: TimeSeries) {
    ts.count.Some? != ts.last.Some?
  }

  /** A `now()` time value, which the compiler may replace by a supplied timestamp. */
  predicate IsNow(v: TimeValue) {
    v == TStr("now()")
  }
}
